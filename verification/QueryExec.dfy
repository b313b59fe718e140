/**
 The query executor around validation: the server's two loops, the publish job's check of each bundled query, the
 request frame, the child's second validation, and the bounded result stream.
*/
module QueryExec {
  import opened Wrappers
  import opened Manifests
  import opened Schema
  import opened Lexing
  import opened Validation
  import opened Revalidation

  // ---------- validating

  method ReadableSql(sql: string) returns (r: Result<string, Refusal>)
    ensures r == Readable(sql)
  {
    var text := Trim(sql);
    if EndsWith(text, ';') { text := Trim(WithoutSuffix(text, ';')); }
    if text == "" || '\0' in text { return Err(Empty); }
    if DollarQuoted(text) { return Err(DollarQuotes); }
    var result := new char[|text|](i requires 0 <= i < |text| => text[i]);
    assert result[..] == text;
    var masked := MaskInPlace(result);
    match masked
    case Err(e) => return Err(Masking(e));
    case Ok(_) => return Ok(result[..]);
  }

  method ValidateQuery(sql: string, parameters: Parameters) returns (r: Result<Validated, Refusal>)
    ensures r == Validate(sql, parameters)
  {
    hide Readable, Words, Names, Lower, Trim, ParameterType;
    var cleaned := ReadableSql(sql);
    if cleaned.Err? { return Err(cleaned.error); }
    var words := Words(cleaned.value);
    if |words| == 0 || (Lower(words[0]) != "select" && Lower(words[0]) != "with") { return Err(NotAQuery); }
    for i := 0 to |words|
      invariant forall k :: 0 <= k < i ==> Lower(words[k]) !in FORBIDDEN
    {
      if Lower(words[i]) in FORBIDDEN { return Err(Forbidden); }
    }
    var referenced := Names(cleaned.value);
    if exists name :: name in referenced && name !in parameters { return Err(Missing); }
    if exists name :: name in parameters && name !in referenced { return Err(Unknown); }
    var types: ParameterTypes := map[];
    var rest := parameters.Keys;
    while rest != {}
      invariant rest <= parameters.Keys && types.Keys == parameters.Keys - rest
      invariant forall name :: name in types ==> ParameterType(parameters[name]) == Some(types[name])
      decreases rest
    {
      var name: string :| name in rest;
      var kind := ParameterType(parameters[name]);
      if kind.None? { return Err(Untyped); }
      types := types[name := kind.value];
      rest := rest - {name};
    }
    assert Typed(parameters) && types == TypesOf(parameters);
    return Ok(Validated(Trim(WithoutSuffix(Trim(sql), ';')), types));
  }

  /** A stored text accepts exactly the typed values for the parameters it was stored with, whatever those first values were. */
  lemma {:induction false} StoredQueryAccepts(sql: string, first: Parameters, parameters: Parameters)
    requires Validate(sql, first).Ok?
    ensures var c := Validate(sql, first).value.sql;
            && (Validate(c, parameters).Ok? <==> parameters.Keys == first.Keys && Typed(parameters))
            && (Validate(c, parameters).Ok? ==> Validate(c, parameters).value == Validated(KeptAgain(c), TypesOf(parameters)))
  {
    hide Readable, Words, Names, Lower, HasForbidden, IsQueryText, Trim;
    ValidateAgain(sql, first);
    var c := Validate(sql, first).value.sql;
    var referenced := Names(Readable(c).value);
    assert referenced == first.Keys;
    if Validate(c, parameters).Ok? { assert parameters.Keys == referenced; }
  }

  // ---------- publishing: sample values for the declared types

  function Sample(kind: string): Option<Value>
  {
    if kind == "boolean" then Some(Flag(false))
    else if kind == "integer" then Some(Float(0.0))
    else if kind == "number" then Some(Float(0.5))
    else if kind == "string" then Some(Text(""))
    else None
  }

  function SampleParameters(types: ParameterTypes): Parameters
  {
    map name | name in types && Sample(types[name]).Some? :: Sample(types[name]).value
  }

  predicate KnownTypes(types: ParameterTypes)
  {
    forall name :: name in types ==> types[name] in {"boolean", "integer", "number", "string"}
  }

  /** The sample of a known type has that type, so declared types survive the round trip exactly when all are known. */
  lemma {:induction false} SamplesHaveTheirTypes(types: ParameterTypes)
    ensures Typed(SampleParameters(types))
    ensures TypesOf(SampleParameters(types)) == types <==> KnownTypes(types)
  {
    assert 0.5 != (0.5).Floor as real;
    forall name | name in types ensures Sample(types[name]).Some? ==> ParameterType(Sample(types[name]).value) == Some(types[name]) {
    }
    if !KnownTypes(types) {
      var name :| name in types && types[name] !in {"boolean", "integer", "number", "string"};
      assert name !in TypesOf(SampleParameters(types));
    }
  }

  /** runPublish keeps the text of a bundled query under its declared types, or stops. */
  predicate Publishable(text: string, declared: ParameterTypes)
  {
    var r := Validate(text, SampleParameters(declared));
    r.Ok? && r.value.types == declared
  }

  /** A published query runs with exactly the parameters its manifest declares. */
  lemma {:induction false} PublishedQueryAccepts(text: string, declared: ParameterTypes, parameters: Parameters)
    requires Publishable(text, declared)
    ensures KnownTypes(declared)
    ensures var c := Clean(text);
            Validate(c, parameters).Ok? && Validate(c, parameters).value.types == declared <==>
            Typed(parameters) && TypesOf(parameters) == declared
  {
    hide Readable, Words, Names, Lower, HasForbidden, IsQueryText, Trim, ParameterType;
    SamplesHaveTheirTypes(declared);
    StoredQueryAccepts(text, SampleParameters(declared), parameters);
    assert SampleParameters(declared).Keys == TypesOf(SampleParameters(declared)).Keys == declared.Keys;
    if Typed(parameters) && TypesOf(parameters) == declared { assert parameters.Keys == TypesOf(parameters).Keys; }
  }

  /** A Go map gives the empty string for a missing name. */
  function TextOf(files: map<string, string>, name: string): string { if name in files then files[name] else "" }

  /** The loop of runPublish over the bundled queries. */
  method CheckQueries(m: Manifest, files: map<string, string>) returns (r: Option<seq<PublishedQuery>>)
    ensures r.Some? <==> forall i :: 0 <= i < |m.queries| ==> Publishable(TextOf(files, m.queries[i].name), m.queries[i].parameters)
    ensures r.Some? ==> |r.value| == |m.queries| && forall i :: 0 <= i < |m.queries| ==>
              r.value[i] == PublishedQuery(m.queries[i].name, Clean(TextOf(files, m.queries[i].name)), m.queries[i].parameters)
  {
    hide Readable, Words, Names, Lower, HasForbidden, IsQueryText, Trim, ParameterType, SampleParameters;
    var published := [];
    for i := 0 to |m.queries|
      invariant |published| == i
      invariant forall k :: 0 <= k < i ==> Publishable(TextOf(files, m.queries[k].name), m.queries[k].parameters)
      invariant forall k :: 0 <= k < i ==>
                  published[k] == PublishedQuery(m.queries[k].name, Clean(TextOf(files, m.queries[k].name)), m.queries[k].parameters)
    {
      var query := m.queries[i];
      var checked := ValidateQuery(TextOf(files, query.name), SampleParameters(query.parameters));
      if checked.Err? || checked.value.types != query.parameters { return None; }
      published := published + [PublishedQuery(query.name, checked.value.sql, checked.value.types)];
    }
    return Some(published);
  }

  // ---------- the child process

  const MAX_REQUEST_BYTES: nat := 2_097_152

  datatype Request = Request(sql: string, parameters: Parameters, types: ParameterTypes, maxRows: int, maxBytes: int)

  predicate WithinLimits(request: Request) { 1 <= request.maxRows <= 10_000 && 1 <= request.maxBytes <= 10_485_760 }

  /** The text the child runs, if it runs one. */
  function ChildText(request: Request): Option<string>
  {
    if !WithinLimits(request) then None
    else
      var checked := Validate(request.sql, request.parameters);
      if checked.Err? || checked.value.types != request.types then None else Some(checked.value.sql)
  }

  /** The child refuses nothing that the server accepted, and runs the same text but for a ';' in a final line comment. */
  lemma {:induction false} ChildRunsWhatServerAccepted(sql: string, parameters: Parameters, maxRows: int, maxBytes: int)
    requires Validate(sql, parameters).Ok?
    ensures var v := Validate(sql, parameters).value;
            var request := Request(v.sql, parameters, v.types, maxRows, maxBytes);
            ChildText(request) == if 1 <= maxRows <= 10_000 && 1 <= maxBytes <= 10 * 1024 * 1024 then Some(KeptAgain(v.sql)) else None
  {
    ValidateAgain(sql, parameters);
  }

  type Byte = b: int | 0 <= b < 0x100

  type Bytes = seq<Byte>

  /** The four header bytes, most significant first. */
  function PutUint32(n: nat): (header: Bytes)
    requires n < 0x1_0000_0000
    ensures |header| == 4
  {
    [n / 0x100 / 0x100 / 0x100, n / 0x100 / 0x100 % 0x100, n / 0x100 % 0x100, n % 0x100]
  }

  function Uint32(header: Bytes): nat
    requires |header| == 4
  {
    var a: nat, b: nat, c: nat, d: nat := header[0], header[1], header[2], header[3];
    ((a * 0x100 + b) * 0x100 + c) * 0x100 + d
  }

  lemma {:induction false} Uint32RoundTrip(n: nat)
    requires n < 0x1_0000_0000
    ensures Uint32(PutUint32(n)) == n
  {
  }

  /** EncodeRequest, over any JSON encoder. */
  function EncodeRequest(json: Request -> Bytes, request: Request): Option<Bytes>
  {
    var payload := json(request);
    if |payload| > MAX_REQUEST_BYTES then None else Some(PutUint32(|payload|) + payload)
  }

  /** DecodeRequest: reads at most as many bytes as the header says. */
  function DecodeRequest(parse: Bytes -> Option<Request>, input: Bytes): Option<Request>
  {
    if |input| < 4 then None
    else
      var size := Uint32(input[..4]);
      if size == 0 || size > MAX_REQUEST_BYTES then None
      else parse(if 4 + size <= |input| then input[4..4 + size] else input[4..])
  }

  /** What is framed is read back, whatever follows it on the pipe. */
  lemma {:induction false} FrameRoundTrip(json: Request -> Bytes, parse: Bytes -> Option<Request>, request: Request, after: Bytes)
    requires json(request) != [] && parse(json(request)) == Some(request)
    requires EncodeRequest(json, request).Some?
    ensures DecodeRequest(parse, EncodeRequest(json, request).value + after) == Some(request)
  {
    var payload := json(request);
    var input := PutUint32(|payload|) + payload + after;
    Uint32RoundTrip(|payload|);
    assert input[..4] == PutUint32(|payload|);
    assert input[4..4 + |payload|] == payload;
  }

  // ---------- the bounded result stream

  datatype WriteError = OutputLimit | Broken | BadRow | RowsFailed

  /** limitWriter: passes data on while it fits, and fails for good once something did not. */
  class LimitWriter {
    var remaining: int
    var err: Option<WriteError>
    var written: string
    ghost const limit: int

    ghost predicate Valid()
      reads this
    {
      limit >= 0 && |written| + remaining == limit && remaining >= 0
    }

    constructor (limit: int)
      requires limit >= 0
      ensures Valid() && this.limit == limit && written == "" && err.None?
    {
      this.limit, remaining, err, written := limit, limit, None, "";
    }

    /** The underlying writer takes so many bytes, all of them unless it fails. */
    method Write(data: string, taken: nat, fails: bool) returns (r: Option<WriteError>)
      requires Valid() && taken <= |data| && (taken < |data| ==> fails)
      modifies this
      ensures Valid() && r == err
      ensures old(err).Some? ==> err == old(err) && written == old(written)
      ensures old(err).None? && |data| > old(remaining) ==> err == Some(OutputLimit) && written == old(written)
      ensures old(err).None? && |data| <= old(remaining) ==>
                written == old(written) + data[..taken] && err == if fails then Some(Broken) else None
    {
      if err.Some? { return err; }
      if |data| > remaining {
        err := Some(OutputLimit);
        return err;
      }
      written := written + data[..taken];
      remaining := remaining - taken;
      if fails { err := Some(Broken); }
      return err;
    }
  }

  function Joined(rows: seq<string>): string
  {
    if rows == [] then "" else if |rows| == 1 then rows[0] else Joined(rows[..|rows| - 1]) + "," + rows[|rows| - 1]
  }

  function Footer(snapshot: string, truncated: bool): string
  {
    "],\"snapshot_id\":" + snapshot + ",\"truncated\":" + (if truncated then "true" else "false") + "}"
  }

  /** The whole result: the first maxRows rows, and whether there were more. */
  function Stream(columns: string, rows: seq<string>, maxRows: nat, snapshot: string): string
  {
    var shown := if |rows| > maxRows then rows[..maxRows] else rows;
    "{\"columns\":" + columns + ",\"rows\":[" + Joined(shown) + "],\"snapshot_id\":" + snapshot + ",\"truncated\":"
    + (if |rows| > maxRows then "true" else "false") + "}"
  }

  lemma {:induction false} StreamParts(columns: string, rows: seq<string>, maxRows: nat, snapshot: string)
    ensures var shown := if |rows| > maxRows then rows[..maxRows] else rows;
            Stream(columns, rows, maxRows, snapshot) == Header(columns) + Joined(shown) + Footer(snapshot, |rows| > maxRows)
  {
    hide Joined;
    var joined := Joined(if |rows| > maxRows then rows[..maxRows] else rows);
    var tail := "],\"snapshot_id\":" + snapshot + ",\"truncated\":" + (if |rows| > maxRows then "true" else "false") + "}";
    assert Header(columns) + joined + tail == Stream(columns, rows, maxRows, snapshot);
  }

  /** The underlying writer's answer to each write: None, or how much it took before it failed. */
  type Sink = nat -> Option<nat>

  /** The k-th write, of the next part of the whole: it goes through, or the whole does not fit, or the writer fails. */
  method Put(limited: LimitWriter, data: string, sink: Sink, k: nat, ghost whole: string) returns (r: Option<WriteError>)
    requires limited.Valid() && limited.err.None? && limited.written + data <= whole
    modifies limited
    ensures limited.Valid() && r == limited.err
    ensures r.None? ==> limited.written == old(limited.written) + data && sink(k).None?
    ensures r.Some? ==> limited.written <= whole && (|whole| > limited.limit || sink(k).Some?)
  {
    var answer := sink(k);
    var taken: nat := if answer.Some? && answer.value < |data| then answer.value else |data|;
    assert data[..taken] <= data;
    r := limited.Write(data, taken, answer.Some?);
  }

  function Header(columns: string): string { "{\"columns\":" + columns + ",\"rows\":[" }

  /** Each row's JSON, or nothing for a row that cannot be read or encoded. */
  function Texts(rows: seq<Option<string>>): (r: seq<string>)
    ensures |r| == |rows|
  {
    seq(|rows|, i requires 0 <= i < |rows| => if rows[i].Some? then rows[i].value else "")
  }

  /** The writes before the row of this number. */
  function Before(count: nat): nat { if count == 0 then 1 else 2 * count }

  /** The header, each row, a comma between two of them, and the footer. */
  function Writes(shown: nat): nat { Before(shown) + 1 }

  /** A row, after a comma unless it is the first. */
  method PutRow(limited: LimitWriter, row: string, count: nat, sink: Sink, ghost header: string, ghost shown: seq<string>, ghost end: string)
    returns (r: Option<WriteError>)
    requires limited.Valid() && limited.err.None? && count < |shown| && row == shown[count]
    requires limited.written == header + Joined(shown[..count])
    modifies limited
    ensures limited.Valid() && r == limited.err
    ensures r.None? ==> limited.written == header + Joined(shown[..count + 1])
    ensures r.None? ==> forall k :: Before(count) <= k < Before(count + 1) ==> sink(k).None?
    ensures r.Some? ==>
              && limited.written <= header + Joined(shown) + end
              && (|header + Joined(shown) + end| > limited.limit || exists k: nat :: k < Before(count + 1) && sink(k).Some?)
  {
    hide Joined;
    ghost var whole := header + Joined(shown) + end;
    Within(header, shown, end, count);
    if count > 0 {
      r := Put(limited, ",", sink, 2 * count, whole);
      if r.Some? { return; }
      r := Put(limited, row, sink, 2 * count + 1, whole);
    } else {
      r := Put(limited, row, sink, 1, whole);
    }
  }

  /**
   streamQuery. stopped says that the rows ended with an error. It succeeds exactly when the shown rows are readable, no
   error ended them, the whole fits and no write fails, and then the whole was written; otherwise a part of it.
  */
  method StreamQuery(
    columns: string, rows: seq<Option<string>>, stopped: bool, maxRows: nat, maxBytes: nat, snapshot: string, sink: Sink)
    returns (output: string, r: Option<WriteError>)
    ensures |output| <= maxBytes
    ensures var shown := if |rows| > maxRows then maxRows else |rows|;
            r.None? <==>
            && (forall i :: 0 <= i < shown ==> rows[i].Some?)
            && !(stopped && |rows| <= maxRows)
            && |Stream(columns, Texts(rows), maxRows, snapshot)| <= maxBytes
            && (forall k :: 0 <= k < Writes(shown) ==> sink(k).None?)
    ensures r.None? ==> output == Stream(columns, Texts(rows), maxRows, snapshot)
    ensures r.Some? ==> output <= Stream(columns, Texts(rows), maxRows, snapshot)
  {
    hide Header, Footer, Joined;
    var limited := new LimitWriter(maxBytes);
    var texts := Texts(rows);
    ghost var shown := if |rows| > maxRows then texts[..maxRows] else texts;
    ghost var end := Footer(snapshot, |rows| > maxRows);
    ghost var whole := Header(columns) + Joined(shown) + end;
    StreamParts(columns, texts, maxRows, snapshot);
    NothingJoined(shown);
    r := Put(limited, Header(columns), sink, 0, whole);
    if r.Some? { return limited.written, r; }
    var count := 0;
    while count < maxRows && count < |rows|
      invariant 0 <= count <= |shown|
      invariant fresh(limited) && limited.Valid() && limited.limit == maxBytes && limited.err.None?
      invariant limited.written == Header(columns) + Joined(shown[..count])
      invariant forall i :: 0 <= i < count ==> rows[i].Some?
      invariant forall k :: 0 <= k < Before(count) ==> sink(k).None?
    {
      JoinedGrows(shown, count);
      if rows[count].None? { return limited.written, Some(BadRow); }
      r := PutRow(limited, texts[count], count, sink, Header(columns), shown, end);
      if r.Some? { return limited.written, r; }
      count := count + 1;
    }
    var truncated := count == maxRows && count < |rows|;
    assert shown[..count] == shown;
    if !truncated && stopped { return limited.written, Some(RowsFailed); }
    r := Put(limited, Footer(snapshot, truncated), sink, Before(count), whole);
    return limited.written, r;
  }

  lemma {:induction false} NothingJoined(rows: seq<string>)
    ensures Joined(rows[..0]) == ""
  {
  }

  lemma {:induction false} JoinedPrefix(rows: seq<string>, count: nat)
    requires count < |rows|
    ensures Joined(rows[..count + 1]) == (if count == 0 then rows[0] else Joined(rows[..count]) + "," + rows[count])
  {
    assert rows[..count + 1][..count] == rows[..count];
    assert rows[..count + 1][count] == rows[count];
    if count > 0 { assert |rows[..count + 1]| > 1; }
  }

  lemma {:induction false} JoinedGrows(rows: seq<string>, count: nat)
    requires count <= |rows|
    ensures Joined(rows[..count]) <= Joined(rows)
    decreases |rows| - count
  {
    if count == |rows| {
      assert rows[..count] == rows;
    } else {
      JoinedGrows(rows, count + 1);
      JoinedPrefix(rows, count);
      if count == 0 { NothingJoined(rows); }
    }
  }

  lemma {:induction false} Within(header: string, rows: seq<string>, end: string, count: nat)
    requires count < |rows|
    ensures var before, whole := header + Joined(rows[..count]), header + Joined(rows) + end;
            && (count > 0 ==> before + "," <= whole && before + "," + rows[count] <= whole)
            && (count == 0 ==> before + rows[count] <= whole)
            && before + (if count > 0 then "," else "") + rows[count] == header + Joined(rows[..count + 1])
  {
    hide Joined;
    NothingJoined(rows);
    JoinedPrefix(rows, count);
    JoinedGrows(rows, count + 1);
  }
}
