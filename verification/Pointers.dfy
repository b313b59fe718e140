/** JSON Pointer (RFC 6901) as the connector reads it: decoding, printing, evaluation and the page loop. */
module Pointers {
  import opened Wrappers
  import opened Slashes

  // ---------- escapes

  /** strings.ReplaceAll(s, "~" + digit, by). */
  function Replace(s: string, digit: char, with: char): string
    decreases |s|
  {
    if s == "" then ""
    else if |s| >= 2 && s[0] == '~' && s[1] == digit then [with] + Replace(s[2..], digit, with)
    else [s[0]] + Replace(s[1..], digit, with)
  }

  /** The two replacements of the connector, in its order. */
  function TwoPass(raw: string): string { Replace(Replace(raw, '1', '/'), '0', '~') }

  /** Section 4 of RFC 6901 in one reading: "~1" is '/', "~0" is '~'. */
  function Decode(raw: string): string
    decreases |raw|
  {
    if raw == "" then ""
    else if |raw| >= 2 && raw[0] == '~' && raw[1] == '1' then ['/'] + Decode(raw[2..])
    else if |raw| >= 2 && raw[0] == '~' && raw[1] == '0' then ['~'] + Decode(raw[2..])
    else [raw[0]] + Decode(raw[1..])
  }

  function Encode(token: string): string
  {
    if token == "" then ""
    else (if token[0] == '~' then "~0" else if token[0] == '/' then "~1" else [token[0]]) + Encode(token[1..])
  }

  /** The first pass leaves a '0' after a '~' only where there was one. */
  lemma {:induction false} FirstPassHead(raw: string)
    ensures var once := Replace(raw, '1', '/');
            && (raw == "" <==> once == "")
            && (once != "" ==> (once[0] == '0' <==> raw[0] == '0'))
  {
  }

  /** Both replacements together decode any text in one reading, well escaped or not. */
  lemma {:induction false} TwoPassIsDecode(raw: string)
    ensures TwoPass(raw) == Decode(raw)
    decreases |raw|
  {
    if raw != "" {
      var once := Replace(raw, '1', '/');
      if |raw| >= 2 && raw[0] == '~' && raw[1] == '1' {
        TwoPassIsDecode(raw[2..]);
        assert once[1..] == Replace(raw[2..], '1', '/');
      } else if |raw| >= 2 && raw[0] == '~' && raw[1] == '0' {
        TwoPassIsDecode(raw[2..]);
        var tail := raw[1..];
        assert tail[0] == '0' && tail[1..] == raw[2..];
        assert Replace(tail, '1', '/') == ['0'] + Replace(raw[2..], '1', '/');
        assert once == ['~'] + Replace(tail, '1', '/');
        assert once[0] == '~' && once[1] == '0' && once[2..] == Replace(raw[2..], '1', '/');
      } else {
        TwoPassIsDecode(raw[1..]);
        FirstPassHead(raw[1..]);
        assert once[1..] == Replace(raw[1..], '1', '/');
      }
    }
  }

  /** The other order reads "~01" as '/', where section 4 of RFC 6901 asks for "~1". */
  lemma {:induction false} OtherOrderIsWrong()
    ensures Replace(Replace("~01", '0', '~'), '1', '/') == "/" && Decode("~01") == "~1" == TwoPass("~01")
  {
    assert "~01"[2..] == "1" && "~01"[1..] == "01";
    assert Decode("1") == "1" && Replace("1", '0', '~') == "1";
    assert Replace("~01", '0', '~') == "~1";
    assert "~1"[2..] == "";
    TwoPassIsDecode("~01");
  }

  /** Every '~' begins "~0" or "~1". */
  predicate Escaped(raw: string)
  {
    forall i :: 0 <= i < |raw| && raw[i] == '~' ==> i + 1 < |raw| && (raw[i + 1] == '0' || raw[i + 1] == '1')
  }

  lemma {:induction false} EncodeDecode(token: string)
    ensures Decode(Encode(token)) == token && Escaped(Encode(token)) && Free(Encode(token), '/')
  {
    if token != "" {
      EncodeDecode(token[1..]);
      var rest := Encode(token[1..]);
      var head := if token[0] == '~' then "~0" else if token[0] == '/' then "~1" else [token[0]];
      assert Encode(token) == head + rest && Encode(token)[|head|..] == rest;
      forall i | 0 <= i < |head + rest| && (head + rest)[i] == '~'
        ensures i + 1 < |head + rest| && ((head + rest)[i + 1] == '0' || (head + rest)[i + 1] == '1') {
        if i >= |head| { assert (head + rest)[i] == rest[i - |head|]; }
      }
      assert [token[0]] + token[1..] == token;
    }
  }

  lemma {:induction false} DecodeEncode(raw: string)
    requires Escaped(raw) && Free(raw, '/')
    ensures Encode(Decode(raw)) == raw
    decreases |raw|
  {
    if raw != "" {
      var width := if raw[0] == '~' then 2 else 1;
      var rest := raw[width..];
      forall i | 0 <= i < |rest| && rest[i] == '~' ensures i + 1 < |rest| && (rest[i + 1] == '0' || rest[i + 1] == '1') {
        assert raw[i + width] == '~';
      }
      DecodeEncode(rest);
      assert Decode(raw)[1..] == Decode(rest);
      assert raw == raw[..width] + rest;
    }
  }

  // ---------- pointers and their tokens

  function EncodeAll(tokens: seq<string>): seq<string> { seq(|tokens|, i requires 0 <= i < |tokens| => Encode(tokens[i])) }

  function DecodeAll(parts: seq<string>): seq<string> { seq(|parts|, i requires 0 <= i < |parts| => Decode(parts[i])) }

  /** Section 3 of RFC 6901: each token after a '/'. */
  function Print(tokens: seq<string>): string
  {
    if tokens == [] then "" else "/" + Join(EncodeAll(tokens))
  }

  function Tokens(path: string): Option<seq<string>>
  {
    if path == "" then Some([])
    else if path[0] != '/' then None
    else Some(DecodeAll(Split(path[1..])))
  }

  /** What the API accepts. */
  predicate ValidPath(path: string)
  {
    path == "" || (path[0] == '/' && |path| <= 1000 && Escaped(path))
  }

  lemma {:induction false} PrintParses(tokens: seq<string>)
    ensures Tokens(Print(tokens)) == Some(tokens)
    ensures |Print(tokens)| <= 1000 ==> ValidPath(Print(tokens))
  {
    if tokens != [] {
      var parts := EncodeAll(tokens);
      forall i | 0 <= i < |tokens| ensures Free(parts[i], '/') && Escaped(parts[i]) && Decode(parts[i]) == tokens[i] { EncodeDecode(tokens[i]); }
      SplitJoin(parts);
      assert Print(tokens)[1..] == Join(parts);
      assert DecodeAll(parts) == tokens;
      JoinEscaped(parts);
      EscapedAfterSlash(Join(parts));
    }
  }

  lemma {:induction false} JoinEscaped(parts: seq<string>)
    requires |parts| >= 1 && forall i :: 0 <= i < |parts| ==> Escaped(parts[i])
    ensures Escaped(Join(parts))
    decreases |parts|
  {
    if |parts| > 1 {
      JoinEscaped(parts[1..]);
      EscapedAfterSlash(Join(parts[1..]));
      EscapedConcat(parts[0], "/" + Join(parts[1..]));
      assert Join(parts) == parts[0] + ("/" + Join(parts[1..]));
    }
  }

  lemma {:induction false} EscapedAfterSlash(s: string)
    requires Escaped(s)
    ensures Escaped("/" + s)
  {
    var r := "/" + s;
    forall i | 0 <= i < |r| && r[i] == '~' ensures i + 1 < |r| && (r[i + 1] == '0' || r[i + 1] == '1') {
      assert s[i - 1] == '~';
      assert r[i + 1] == s[i];
    }
  }

  lemma {:induction false} EscapedConcat(a: string, b: string)
    requires Escaped(a) && Escaped(b)
    ensures Escaped(a + b)
  {
    var r := a + b;
    forall i | 0 <= i < |r| && r[i] == '~' ensures i + 1 < |r| && (r[i + 1] == '0' || r[i + 1] == '1') {
      if i < |a| { assert r[i + 1] == a[i + 1]; } else { assert b[i - |a|] == '~' && r[i + 1] == b[i - |a| + 1]; }
    }
  }

  /** The parts of a text whose escapes are whole are whole themselves. */
  lemma {:induction false} SplitEscaped(s: string)
    requires Escaped(s)
    ensures forall i :: 0 <= i < |Split(s)| ==> Escaped(Split(s)[i])
  {
    if s != "" {
      var tail := s[1..];
      forall i | 0 <= i < |tail| && tail[i] == '~' ensures i + 1 < |tail| && (tail[i + 1] == '0' || tail[i + 1] == '1') { assert s[i + 1] == '~'; }
      SplitEscaped(tail);
      var rest := Split(tail);
      if s[0] != '/' {
        SplitHead(tail);
        var first := [s[0]] + rest[0];
        forall i | 0 <= i < |first| && first[i] == '~' ensures i + 1 < |first| && (first[i + 1] == '0' || first[i + 1] == '1') {
          if i > 0 { assert rest[0][i - 1] == '~' && first[i + 1] == rest[0][i]; } else { assert s[1] == tail[0]; }
        }
      }
    }
  }

  lemma {:induction false} SplitHead(s: string)
    ensures s != "" && s[0] != '/' ==> Split(s)[0] != "" && Split(s)[0][0] == s[0]
  {
  }

  /** Printing the tokens of an accepted pointer gives the pointer back, so pointers and token lists match one to one. */
  lemma {:induction false} ParsePrints(path: string)
    requires ValidPath(path)
    ensures Tokens(path).Some? && Print(Tokens(path).value) == path
  {
    if path != "" {
      var tail := path[1..];
      forall i | 0 <= i < |tail| && tail[i] == '~' ensures i + 1 < |tail| && (tail[i + 1] == '0' || tail[i + 1] == '1') { assert path[i + 1] == '~'; }
      var parts := Split(tail);
      SplitEscaped(tail);
      JoinSplit(tail);
      forall i | 0 <= i < |parts| ensures Encode(Decode(parts[i])) == parts[i] { DecodeEncode(parts[i]); }
      assert EncodeAll(DecodeAll(parts)) == parts;
    }
  }

  // ---------- evaluation

  datatype Json =
    | JsonNull | JsonBool(flag: bool) | JsonNumber(literal: string) | JsonString(text: string)
    | JsonArray(items: seq<Json>) | JsonObject(fields: map<string, Json>)

  datatype PointerError = NoSlash | NotFound | NotAnIndex | Scalar

  predicate IsDigits(s: string) { s != "" && forall i :: 0 <= i < |s| ==> '0' <= s[i] <= '9' }

  function DigitsValue(s: string): nat
    requires forall i :: 0 <= i < |s| ==> '0' <= s[i] <= '9'
  {
    if s == "" then 0 else DigitsValue(s[..|s| - 1]) * 10 + (s[|s| - 1] as int - '0' as int)
  }

  /** strconv.Atoi without its 64-bit bound, which is above any array length. */
  function Atoi(s: string): Option<int>
  {
    if IsDigits(s) then Some(DigitsValue(s))
    else if s != "" && s[0] == '+' && IsDigits(s[1..]) then Some(DigitsValue(s[1..]))
    else if s != "" && s[0] == '-' && IsDigits(s[1..]) then (var n: int := DigitsValue(s[1..]); Some(-n))
    else None
  }

  /** Section 4 of RFC 6901: digits without a leading zero. */
  predicate Canonical(s: string) { IsDigits(s) && (|s| > 1 ==> s[0] != '0') }

  function Decimal(n: nat): string
  {
    if n < 10 then [('0' as int + n) as char] else Decimal(n / 10) + [('0' as int + n % 10) as char]
  }

  lemma {:induction false} DecimalReads(n: nat)
    ensures Canonical(Decimal(n)) && Atoi(Decimal(n)) == Some(n)
  {
    if n >= 10 {
      DecimalReads(n / 10);
      var s := Decimal(n);
      assert s[..|s| - 1] == Decimal(n / 10);
      assert s[0] == Decimal(n / 10)[0];
      assert s[|s| - 1] as int - '0' as int == n % 10;
      LeadingDigit(n / 10);
      assert IsDigits(s);
    } else {
      var s := Decimal(n);
      assert s[..0] == "" && s[0] as int - '0' as int == n;
      assert DigitsValue(s) == DigitsValue(s[..0]) * 10 + n;
    }
  }

  lemma {:induction false} LeadingDigit(n: nat)
    requires n > 0
    ensures Decimal(n)[0] != '0'
  {
    if n >= 10 { LeadingDigit(n / 10); }
  }

  function Step(value: Json, token: string): Result<Json, PointerError>
  {
    match value
    case JsonObject(fields) => if token in fields then Ok(fields[token]) else Err(NotFound)
    case JsonArray(items) =>
      var index := Atoi(token);
      if index.None? || index.value < 0 || index.value >= |items| then Err(NotAnIndex) else Ok(items[index.value])
    case _ => Err(Scalar)
  }

  function Follow(value: Json, tokens: seq<string>): Result<Json, PointerError>
    decreases |tokens|
  {
    if tokens == [] then Ok(value)
    else match Step(value, tokens[0])
      case Err(e) => Err(e)
      case Ok(next) => Follow(next, tokens[1..])
  }

  function Evaluate(value: Json, path: string): Result<Json, PointerError>
  {
    match Tokens(path)
    case None => Err(NoSlash)
    case Some(tokens) => Follow(value, tokens)
  }

  /** The connector's loop. */
  method Pointer(value: Json, path: string) returns (r: Result<Json, PointerError>)
    ensures r == Evaluate(value, path)
  {
    if path == "" { return Ok(value); }
    if path[0] != '/' { return Err(NoSlash); }
    var current := value;
    var parts := Split(path[1..]);
    ghost var tokens := DecodeAll(parts);
    for i := 0 to |parts|
      invariant Follow(value, tokens) == Follow(current, tokens[i..])
    {
      var part := Replace(Replace(parts[i], '1', '/'), '0', '~');
      TwoPassIsDecode(parts[i]);
      assert tokens[i..][0] == part && tokens[i..][1..] == tokens[i + 1..];
      match current {
        case JsonObject(fields) =>
          if part !in fields { return Err(NotFound); }
          current := fields[part];
        case JsonArray(items) =>
          var index := Atoi(part);
          if index.None? || index.value < 0 || index.value >= |items| { return Err(NotAnIndex); }
          current := items[index.value];
        case JsonNull => return Err(Scalar);
        case JsonBool(_) => return Err(Scalar);
        case JsonNumber(_) => return Err(Scalar);
        case JsonString(_) => return Err(Scalar);
      }
    }
    return Ok(current);
  }

  /** The API's scan. */
  method ValidPointer(value: string) returns (ok: bool)
    ensures ok <==> ValidPath(value)
  {
    if value == "" { return true; }
    if value[0] != '/' || |value| > 1000 { return false; }
    var index := 0;
    while index < |value|
      invariant 0 <= index <= |value|
      invariant forall i :: 0 <= i < index && value[i] == '~' ==> i + 1 < |value| && (value[i + 1] == '0' || value[i + 1] == '1')
    {
      if value[index] != '~' {
        index := index + 1;
        continue;
      }
      index := index + 1;
      if index == |value| || (value[index] != '0' && value[index] != '1') {
        assert value[index - 1] == '~';
        return false;
      }
      index := index + 1;
    }
    return true;
  }

  // ---------- against the standard

  /** Evaluation by section 4 of RFC 6901: an array is entered only by a canonical index in range. */
  ghost predicate Selects(value: Json, tokens: seq<string>, result: Json)
    decreases |tokens|
  {
    if tokens == [] then result == value
    else match value
      case JsonObject(fields) => tokens[0] in fields && Selects(fields[tokens[0]], tokens[1..], result)
      case JsonArray(items) => exists n: nat {:trigger Decimal(n)} :: n < |items| && tokens[0] == Decimal(n) && Selects(items[n], tokens[1..], result)
      case _ => false
  }

  /** What the standard selects, the connector's evaluation of the printed tokens returns. */
  lemma {:induction false} EvaluateFollowsTokens(value: Json, tokens: seq<string>, result: Json)
    requires Selects(value, tokens, result)
    ensures Evaluate(value, Print(tokens)) == Ok(result)
  {
    PrintParses(tokens);
    SelectsFollows(value, tokens, result);
  }

  lemma {:induction false} SelectsFollows(value: Json, tokens: seq<string>, result: Json)
    requires Selects(value, tokens, result)
    ensures Follow(value, tokens) == Ok(result)
    decreases |tokens|
  {
    if tokens != [] {
      match value
      case JsonObject(fields) => SelectsFollows(fields[tokens[0]], tokens[1..], result);
      case JsonArray(items) =>
        var n: nat :| n < |items| && tokens[0] == Decimal(n) && Selects(items[n], tokens[1..], result);
        DecimalReads(n);
        SelectsFollows(items[n], tokens[1..], result);
    }
  }

  lemma {:induction false} CanonicalIsDecimal(s: string)
    requires Canonical(s)
    ensures s == Decimal(DigitsValue(s))
    ensures |s| > 1 ==> DigitsValue(s) >= 10
    decreases |s|
  {
    if |s| == 1 {
      assert s[..0] == "";
    } else {
      var front := s[..|s| - 1];
      CanonicalIsDecimal(front);
      assert DigitsValue(front) >= 1 by { if |front| == 1 { assert front[..0] == ""; } }
      assert s == front + [s[|s| - 1]];
    }
  }

  /** Every array on the way is entered by a canonical index. */
  ghost predicate CanonicalSteps(value: Json, tokens: seq<string>)
    decreases |tokens|
  {
    tokens != [] && Step(value, tokens[0]).Ok? ==>
      (value.JsonArray? ==> Canonical(tokens[0])) && CanonicalSteps(Step(value, tokens[0]).value, tokens[1..])
  }

  /** The connector returns more than the standard selects exactly when an array is entered by "+1", "01" or the like. */
  lemma {:induction false} SelectsIff(value: Json, tokens: seq<string>, result: Json)
    ensures Selects(value, tokens, result) <==> Follow(value, tokens) == Ok(result) && CanonicalSteps(value, tokens)
    decreases |tokens|
  {
    if tokens != [] {
      match value
      case JsonObject(fields) => if tokens[0] in fields { SelectsIff(fields[tokens[0]], tokens[1..], result); }
      case JsonArray(items) =>
        if Step(value, tokens[0]).Ok? {
          var n := Atoi(tokens[0]).value;
          SelectsIff(items[n], tokens[1..], result);
          if Canonical(tokens[0]) { CanonicalIsDecimal(tokens[0]); }
        }
        if Selects(value, tokens, result) {
          var n: nat :| n < |items| && tokens[0] == Decimal(n) && Selects(items[n], tokens[1..], result);
          DecimalReads(n);
        }
      case JsonNull =>
      case JsonBool(_) =>
      case JsonNumber(_) =>
      case JsonString(_) =>
    }
  }

  /** "+0" enters an array although it is no index of the standard. */
  lemma {:induction false} SignedIndexIsFollowed(item: Json)
    ensures Follow(JsonArray([item]), ["+0"]) == Ok(item) && !Selects(JsonArray([item]), ["+0"], item)
  {
    assert "+0"[1..] == "0" && "0"[..0] == "";
    assert Atoi("+0") == Some(0);
    assert Follow(item, ["+0"][1..]) == Ok(item);
    SelectsIff(JsonArray([item]), ["+0"], item);
  }
}
