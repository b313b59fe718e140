/**
 Which bytes of a query are code and which belong to a literal or a comment: a lexer that reads one token at a
 time, and the masked text it defines. A byte is the char with its code.
*/
module Lexing {
  import opened Wrappers

  /** Between tokens of code, inside a literal, inside a line comment, inside a block comment. */
  datatype Mode = Code | Quoted(quote: char) | Line | Block

  datatype Token = Token(width: nat, code: bool, next: Mode)

  predicate Starts(s: string, first: char, second: char)
  {
    |s| >= 2 && s[0] == first && s[1] == second
  }

  predicate IsQuote(c: char) { c == '\'' || c == '"' }

  function Next(s: string, mode: Mode): (t: Token)
    requires s != ""
    ensures 1 <= t.width <= |s|
  {
    match mode
    case Code =>
      if IsQuote(s[0]) then Token(1, false, Quoted(s[0]))
      else if Starts(s, '-', '-') then Token(2, false, Line)
      else if Starts(s, '/', '*') then Token(2, false, Block)
      else Token(1, true, Code)
    case Quoted(quote) =>
      if s[0] != quote then Token(1, false, mode)
      else if Starts(s, quote, quote) then Token(2, false, mode)
      else Token(1, false, Code)
    case Line => if s[0] == '\n' then Token(1, true, Code) else Token(1, false, Line)
    case Block => if Starts(s, '*', '/') then Token(2, false, Code) else Token(1, false, Block)
  }

  /** For each byte, whether it is code. */
  function Marks(s: string, mode: Mode): (code: seq<bool>)
    ensures |code| == |s|
    decreases |s|
  {
    if s == "" then []
    else
      var t := Next(s, mode);
      seq(t.width, i => t.code) + Marks(s[t.width..], t.next)
  }

  /** Where the text leaves the lexer. */
  function End(s: string, mode: Mode): Mode
    decreases |s|
  {
    if s == "" then mode
    else
      var t := Next(s, mode);
      End(s[t.width..], t.next)
  }

  function Blank(s: string, code: seq<bool>): (r: string)
    requires |code| == |s|
    ensures |r| == |s|
  {
    seq(|s|, i requires 0 <= i < |s| => if code[i] then s[i] else ' ')
  }

  datatype MaskError = ManyStatements | OpenLiteral | OpenComment

  predicate Separated(s: string, code: seq<bool>)
    requires |code| == |s|
  {
    exists i :: 0 <= i < |s| && code[i] && s[i] == ';'
  }

  /** Literals and comments blanked; an error exactly for a ';' in code or a literal or block comment left open. */
  function Mask(s: string): Result<string, MaskError>
  {
    var code := Marks(s, Code);
    if Separated(s, code) then Err(ManyStatements)
    else
      match End(s, Code)
      case Quoted(_) => Err(OpenLiteral)
      case Block => Err(OpenComment)
      case Code | Line => Ok(Blank(s, code))
  }

  // ---------- reading from the middle

  /** At index i the lexer is between two tokens, in the given mode. */
  ghost predicate Reached(s: string, i: nat, mode: Mode)
  {
    i <= |s| && Marks(s, Code)[i..] == Marks(s[i..], mode) && End(s, Code) == End(s[i..], mode)
  }

  lemma {:induction false} Advance(s: string, i: nat, mode: Mode)
    requires Reached(s, i, mode) && i < |s|
    ensures var t := Next(s[i..], mode);
            && Reached(s, i + t.width, t.next)
            && forall k :: i <= k < i + t.width ==> Marks(s, Code)[k] == t.code
  {
    var t := Next(s[i..], mode);
    var code := Marks(s, Code);
    assert s[i..][t.width..] == s[i + t.width..];
    assert Marks(s[i..], mode)[t.width..] == Marks(s[i + t.width..], t.next);
    assert code[i..][t.width..] == code[i + t.width..];
    forall k | i <= k < i + t.width ensures code[k] == t.code { assert code[k] == code[i..][k - i]; }
  }

  lemma {:induction false} ReachedStart(s: string)
    ensures Reached(s, 0, Code)
  {
    assert s[0..] == s && Marks(s, Code)[0..] == Marks(s, Code);
  }

  // ---------- the masked text is plain code

  /** Code that holds no quote and starts no comment. */
  predicate Plain(s: string)
  {
    && (forall i :: 0 <= i < |s| ==> !IsQuote(s[i]))
    && (forall i :: 0 <= i < |s| - 1 ==> !(s[i] == '-' && s[i + 1] == '-') && !(s[i] == '/' && s[i + 1] == '*'))
  }

  lemma {:induction false} PlainIsCode(s: string)
    requires Plain(s)
    ensures Marks(s, Code) == seq(|s|, i => true) && End(s, Code) == Code
    decreases |s|
  {
    if s != "" {
      var rest := s[1..];
      forall i | 0 <= i < |rest| - 1 ensures !(rest[i] == '-' && rest[i + 1] == '-') && !(rest[i] == '/' && rest[i + 1] == '*') {
        assert rest[i] == s[i + 1] && rest[i + 1] == s[i + 2];
      }
      PlainIsCode(rest);
    }
  }

  /** What the lexer calls code keeps no quote and no comment start, whatever mode it began in. */
  lemma {:induction false} BlankedIsPlain(s: string, mode: Mode)
    ensures Plain(Blank(s, Marks(s, mode)))
    decreases |s|
  {
    if s != "" {
      var t := Next(s, mode);
      var rest := s[t.width..];
      var masked, tail := Blank(s, Marks(s, mode)), Blank(rest, Marks(rest, t.next));
      BlankedIsPlain(rest, t.next);
      assert masked[t.width..] == tail;
      forall i | 0 <= i < |s| ensures !IsQuote(masked[i]) {
        if i >= t.width { assert masked[i] == tail[i - t.width]; }
      }
      forall i | 0 <= i < |s| - 1
        ensures !(masked[i] == '-' && masked[i + 1] == '-') && !(masked[i] == '/' && masked[i + 1] == '*') {
        if i >= t.width {
          assert masked[i] == tail[i - t.width] && masked[i + 1] == tail[i + 1 - t.width];
        }
      }
    }
  }

  /** Masking keeps the length and every code byte, blanks the rest, and leaves no quote, ';', "--" or comment opener. */
  lemma {:induction false} MaskedIsPlain(s: string)
    requires Mask(s).Ok?
    ensures var m := Mask(s).value;
            && |m| == |s|
            && (forall i :: 0 <= i < |s| ==> m[i] == if Marks(s, Code)[i] then s[i] else ' ')
            && (forall i :: 0 <= i < |s| ==> m[i] != '\'' && m[i] != '"' && m[i] != ';')
            && (forall i :: 0 <= i < |s| - 1 ==> !(m[i] == '-' && m[i + 1] == '-') && !(m[i] == '/' && m[i + 1] == '*'))
            && Plain(m) && ';' !in m
  {
    BlankedIsPlain(s, Code);
    var m := Mask(s).value;
    forall i | 0 <= i < |m| ensures m[i] != ';' {
    }
  }

  /** Plain text without a ';' is its own masked form, so masking twice changes nothing more. */
  lemma {:induction false} PlainMasksToItself(s: string)
    requires Plain(s) && ';' !in s
    ensures Mask(s) == Ok(s)
  {
    PlainIsCode(s);
    assert Blank(s, Marks(s, Code)) == s;
  }

  // ---------- in place

  /** Bytes before the index are masked and separate nothing; the others are untouched. */
  ghost predicate BlankedTo(now: string, s: string, index: int)
  {
    && |now| == |s| && 0 <= index <= |s|
    && now[index..] == s[index..]
    && forall i :: 0 <= i < index ==>
         now[i] == (if Marks(s, Code)[i] then s[i] else ' ') && !(Marks(s, Code)[i] && s[i] == ';')
  }

  lemma {:induction false} BlankedOn(now: string, now': string, s: string, i: nat, mode: Mode)
    requires Reached(s, i, mode) && i < |s| && BlankedTo(now, s, i)
    requires var t := Next(s[i..], mode);
             && |now'| == |now| && now'[..i] == now[..i] && now'[i + t.width..] == now[i + t.width..]
             && (forall k :: i <= k < i + t.width ==> now'[k] == if t.code then now[k] else ' ')
             && (mode.Code? ==> now[i] != ';')
    ensures var t := Next(s[i..], mode); Reached(s, i + t.width, t.next) && BlankedTo(now', s, i + t.width)
  {
    var t := Next(s[i..], mode);
    Advance(s, i, mode);
    assert now[i] == now[i..][0] == s[i..][0];
    forall k | 0 <= k < i + t.width
      ensures now'[k] == (if Marks(s, Code)[k] then s[k] else ' ') && !(Marks(s, Code)[k] && s[k] == ';') {
      if k < i { assert now'[k] == now'[..i][k] == now[..i][k]; } else { assert now[k] == now[i..][k - i] == s[i..][k - i]; }
    }
    assert now'[i + t.width..] == now[i..][t.width..];
    assert s[i + t.width..] == s[i..][t.width..];
  }

  /** A ';' in code at the first byte not yet read. */
  lemma {:induction false} SeparatorFound(s: string, i: nat)
    requires Reached(s, i, Code) && i < |s| && s[i] == ';'
    ensures Mask(s) == Err(ManyStatements)
  {
    Advance(s, i, Code);
  }

  lemma {:induction false} LeftOpen(now: string, s: string, i: nat, mode: Mode)
    requires BlankedTo(now, s, |s|) && Reached(s, |s|, mode)
    ensures Mask(s) ==
            match mode
            case Quoted(_) => Err(OpenLiteral)
            case Block => Err(OpenComment)
            case Code | Line => Ok(now)
  {
    assert s[|s|..] == "";
    if !mode.Quoted? && !mode.Block? { assert Blank(s, Marks(s, Code)) == now; }
  }

  /** Blanks the token of the given width at the index. */
  method BlankToken(result: array<char>, index: nat, mode: Mode, width: nat, ghost s: string)
    requires Reached(s, index, mode) && index < |s| && BlankedTo(result[..], s, index)
    requires var t := Next(s[index..], mode); t.width == width <= 2 && !t.code && (mode.Code? ==> result[index] != ';')
    modifies result
    ensures Reached(s, index + width, Next(s[index..], mode).next) && BlankedTo(result[..], s, index + width)
  {
    hide Reached;
    ghost var before := result[..];
    result[index] := ' ';
    if width == 2 { result[index + 1] := ' '; }
    BlankedOn(before, result[..], s, index, mode);
  }

  /** The inside of a literal, with doubled quotes, up to its closing quote. */
  method BlankLiteral(result: array<char>, from: nat, quote: char, ghost s: string) returns (index: nat, closed: bool)
    requires Reached(s, from, Quoted(quote)) && BlankedTo(result[..], s, from)
    modifies result
    ensures Reached(s, index, if closed then Code else Quoted(quote)) && BlankedTo(result[..], s, index)
    ensures from <= index && (closed || index == |s|)
  {
    hide Reached, BlankedTo;
    index, closed := from, false;
    Untouched(result[..], s, index);
    while index < result.Length && !closed
      invariant from <= index <= result.Length == |s|
      invariant Reached(s, index, if closed then Code else Quoted(quote)) && BlankedTo(result[..], s, index)
      decreases result.Length - index, !closed
    {
      Untouched(result[..], s, index);
      if result[index] == quote {
        if index + 1 < result.Length && result[index + 1] == quote {
          BlankToken(result, index, Quoted(quote), 2, s);
          index := index + 2;
          continue;
        }
        BlankToken(result, index, Quoted(quote), 1, s);
        index := index + 1;
        closed := true;
      } else {
        BlankToken(result, index, Quoted(quote), 1, s);
        index := index + 1;
      }
    }
  }

  /** A line comment, up to the line break. */
  method BlankLine(result: array<char>, from: nat, ghost s: string) returns (index: nat)
    requires Reached(s, from, Line) && BlankedTo(result[..], s, from)
    modifies result
    ensures BlankedTo(result[..], s, index) && from <= index
    ensures Reached(s, index, Code) || (index == |s| && Reached(s, index, Line))
  {
    hide Reached, BlankedTo;
    index := from;
    Untouched(result[..], s, index);
    while index < result.Length && result[index] != '\n'
      invariant from <= index <= result.Length == |s|
      invariant Reached(s, index, Line) && BlankedTo(result[..], s, index)
    {
      Untouched(result[..], s, index);
      BlankToken(result, index, Line, 1, s);
      index := index + 1;
    }
    Untouched(result[..], s, index);
    if index < result.Length { NewlineIsCode(s, index); }
  }

  /** The inside of a block comment, up to the closing pair. */
  method BlankComment(result: array<char>, from: nat, ghost s: string) returns (index: nat, closed: bool)
    requires Reached(s, from, Block) && BlankedTo(result[..], s, from)
    modifies result
    ensures Reached(s, index, if closed then Code else Block) && BlankedTo(result[..], s, index)
    ensures from <= index && (closed || index + 1 >= |s|)
  {
    hide Reached, BlankedTo;
    index, closed := from, false;
    Untouched(result[..], s, index);
    while index + 1 < result.Length && !closed
      invariant from <= index <= result.Length == |s|
      invariant Reached(s, index, if closed then Code else Block) && BlankedTo(result[..], s, index)
      decreases result.Length - index, !closed
    {
      Untouched(result[..], s, index);
      if result[index] == '*' && result[index + 1] == '/' {
        BlankToken(result, index, Block, 2, s);
        index := index + 2;
        closed := true;
      } else {
        BlankToken(result, index, Block, 1, s);
        index := index + 1;
      }
    }
  }

  /** The scan over the byte slice, blanking as it goes. */
  method MaskInPlace(result: array<char>) returns (r: Result<(), MaskError>)
    modifies result
    ensures match Mask(old(result[..]))
            case Ok(masked) => r == Ok(()) && result[..] == masked
            case Err(e) => r == Err(e)
  {
    hide Mask, Reached, BlankedTo;
    ghost var text := result[..];
    var index: nat := 0;
    Start(text);
    while index < result.Length
      invariant 0 <= index <= result.Length == |text|
      invariant Reached(text, index, Code) || (index == |text| && Reached(text, index, Line))
      invariant BlankedTo(result[..], text, index)
    {
      Untouched(result[..], text, index);
      if result[index] == ';' {
        SeparatorFound(text, index);
        return Err(ManyStatements);
      } else if IsQuote(result[index]) {
        var quote := result[index];
        BlankToken(result, index, Code, 1, text);
        var closed;
        index, closed := BlankLiteral(result, index + 1, quote, text);
        Untouched(result[..], text, index);
        if !closed {
          LeftOpen(result[..], text, index, Quoted(quote));
          return Err(OpenLiteral);
        }
      } else if index + 1 < result.Length && result[index] == '-' && result[index + 1] == '-' {
        BlankToken(result, index, Code, 2, text);
        index := BlankLine(result, index + 2, text);
        Untouched(result[..], text, index);
      } else if index + 1 < result.Length && result[index] == '/' && result[index + 1] == '*' {
        BlankToken(result, index, Code, 2, text);
        var closed;
        index, closed := BlankComment(result, index + 2, text);
        Untouched(result[..], text, index);
        if !closed {
          StillOpen(result[..], text, index);
          return Err(OpenComment);
        }
      } else {
        BlankedOn(result[..], result[..], text, index, Code);
        index := index + 1;
      }
    }
    Untouched(result[..], text, index);
    LeftOpen(result[..], text, index, if Reached(text, index, Code) then Code else Line);
    return Ok(());
  }

  lemma {:induction false} Start(s: string)
    ensures Reached(s, 0, Code) && BlankedTo(s, s, 0)
  {
    ReachedStart(s);
  }

  lemma {:induction false} Untouched(now: string, s: string, i: int)
    requires BlankedTo(now, s, i)
    ensures |now| == |s| && 0 <= i <= |s| && now[i..] == s[i..]
    ensures forall k :: i <= k < |s| ==> now[k] == s[k] && s[k] == s[i..][k - i]
  {
    forall k | i <= k < |s| ensures now[k] == s[k] { assert now[k] == now[i..][k - i]; }
  }

  /** At a line break a line comment is over: the byte is code either way. */
  lemma {:induction false} NewlineIsCode(s: string, i: nat)
    requires Reached(s, i, Line) && i < |s| && s[i] == '\n'
    ensures Reached(s, i, Code)
  {
  }

  /** One byte cannot close a block comment. */
  lemma {:induction false} StillOpen(now: string, s: string, i: nat)
    requires Reached(s, i, Block) && BlankedTo(now, s, i) && |s| - 1 <= i <= |s|
    ensures Mask(s) == Err(OpenComment)
  {
    if i < |s| {
      BlankedOn(now, now[i := ' '], s, i, Block);
      LeftOpen(now[i := ' '], s, i + 1, Block);
    } else {
      LeftOpen(now, s, i, Block);
    }
  }
}
