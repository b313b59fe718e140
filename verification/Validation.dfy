/**
 Which query texts are accepted, with which parameters, and what a second validation of an accepted text says.
 White space is the six ASCII characters; a byte is the char with its code.
*/
module Validation {
  import opened Wrappers
  import opened Manifests
  import opened Lexing

  // ---------- trimming

  predicate IsSpace(c: char)
  {
    c == ' ' || c == '\t' || c == '\n' || c == '\r' || c == '\U{0B}' || c == '\U{0C}'
  }

  function TrimLeft(s: string): string
  {
    if s != "" && IsSpace(s[0]) then TrimLeft(s[1..]) else s
  }

  function TrimRight(s: string): string
  {
    if s != "" && IsSpace(s[|s| - 1]) then TrimRight(s[..|s| - 1]) else s
  }

  function Trim(s: string): string { TrimRight(TrimLeft(s)) }

  predicate EndsWith(s: string, c: char) { s != "" && s[|s| - 1] == c }

  function WithoutSuffix(s: string, c: char): string { if EndsWith(s, c) then s[..|s| - 1] else s }

  /** The text that is scanned: trimmed, without one final ';'. */
  function Prepare(sql: string): string
  {
    var text := Trim(sql);
    if EndsWith(text, ';') then Trim(WithoutSuffix(text, ';')) else text
  }

  /** The text that is kept. */
  function Clean(sql: string): string { Trim(WithoutSuffix(Trim(sql), ';')) }

  // ---------- words, parameters and dollar quotes

  predicate IsStart(c: char) { 'a' <= c <= 'z' || 'A' <= c <= 'Z' || c == '_' }

  predicate IsWord(c: char) { IsStart(c) || '0' <= c <= '9' }

  /** The length of the run of word characters that the text starts with. */
  function Run(s: string): (n: nat)
    ensures n <= |s| && (forall i :: 0 <= i < n ==> IsWord(s[i])) && (n < |s| ==> !IsWord(s[n]))
  {
    if s != "" && IsWord(s[0]) then 1 + Run(s[1..]) else 0
  }

  function Words(s: string): seq<string>
    decreases |s|
  {
    if s == "" then []
    else if IsStart(s[0]) then [s[..Run(s)]] + Words(s[Run(s)..])
    else Words(s[1..])
  }

  /** The parameters that the text refers to as $name. */
  function Names(s: string): set<string>
    decreases |s|
  {
    if s == "" then {}
    else if s[0] == '$' && |s| > 1 && IsStart(s[1]) then {s[1..1 + Run(s[1..])]} + Names(s[1 + Run(s[1..])..])
    else Names(s[1..])
  }

  /** "$$", or "$tag$" for a word. */
  predicate DollarQuote(s: string, i: int, j: int)
  {
    && 0 <= i < j < |s| && s[i] == '$' && s[j] == '$'
    && (forall k :: i < k < j ==> IsWord(s[k]))
    && (j == i + 1 || IsStart(s[i + 1]))
  }

  predicate DollarQuoted(s: string)
  {
    exists i, j :: 0 <= i < |s| && 0 <= j < |s| && DollarQuote(s, i, j)
  }

  function Lower(s: string): (r: string)
    ensures |r| == |s|
  {
    if s == "" then ""
    else [if 'A' <= s[0] <= 'Z' then (s[0] as int + 32) as char else s[0]] + Lower(s[1..])
  }

  const FORBIDDEN: set<string> := {
    "alter", "attach", "call", "checkpoint", "copy", "create", "delete", "detach", "drop", "export", "force",
    "import", "insert", "install", "load", "merge", "pragma", "reset", "set", "update", "vacuum"}

  // ---------- acceptance

  datatype Refusal = Empty | DollarQuotes | Masking(error: MaskError) | NotAQuery | Forbidden | Missing | Unknown | Untyped

  /** readableSQL: the prepared text with literals and comments blanked. */
  function Readable(sql: string): Result<string, Refusal>
  {
    var text := Prepare(sql);
    if text == "" || '\0' in text then Err(Empty)
    else if DollarQuoted(text) then Err(DollarQuotes)
    else match Mask(text)
      case Err(e) => Err(Masking(e))
      case Ok(masked) => Ok(masked)
  }

  /** A decoded JSON value: a number literal is an integer, or a decimal that may be out of range; Float is a Go float64. */
  datatype Value = Text(text: string) | Flag(flag: bool) | Float(float: real) | Integer(integer: int) | Decimal(inRange: bool) | Null | Composite

  function ParameterType(v: Value): Option<string>
  {
    match v
    case Text(_) => Some("string")
    case Flag(_) => Some("boolean")
    case Float(x) => if x == x.Floor as real then Some("integer") else Some("number")
    case Integer(n) => if -0x8000_0000_0000_0000 <= n <= 0x7FFF_FFFF_FFFF_FFFF then Some("integer") else None
    case Decimal(inRange) => if inRange then Some("number") else None
    case Null => None
    case Composite => None
  }

  type Parameters = map<string, Value>

  predicate Typed(parameters: Parameters)
  {
    forall name :: name in parameters ==> ParameterType(parameters[name]).Some?
  }

  function TypesOf(parameters: Parameters): ParameterTypes
    requires Typed(parameters)
  {
    map name | name in parameters :: ParameterType(parameters[name]).value
  }

  datatype Validated = Validated(sql: string, types: ParameterTypes)

  predicate IsQueryText(words: seq<string>) { words != [] && Lower(words[0]) in {"select", "with"} }

  predicate HasForbidden(words: seq<string>) { exists i :: 0 <= i < |words| && Lower(words[i]) in FORBIDDEN }

  function Validate(sql: string, parameters: Parameters): Result<Validated, Refusal>
  {
    match Readable(sql)
    case Err(e) => Err(e)
    case Ok(masked) =>
      var words := Words(masked);
      var referenced := Names(masked);
      if !IsQueryText(words) then Err(NotAQuery)
      else if HasForbidden(words) then Err(Forbidden)
      else if exists name :: name in referenced && name !in parameters then Err(Missing)
      else if exists name :: name in parameters && name !in referenced then Err(Unknown)
      else if !Typed(parameters) then Err(Untyped)
      else Ok(Validated(Clean(sql), TypesOf(parameters)))
  }

  // ---------- trimming leaves a middle part

  lemma {:induction false} TrimLeftPart(s: string)
    ensures |TrimLeft(s)| <= |s| && TrimLeft(s) == s[|s| - |TrimLeft(s)|..]
    ensures TrimLeft(s) != "" ==> !IsSpace(TrimLeft(s)[0])
    ensures s != "" && !IsSpace(s[0]) ==> TrimLeft(s) == s
  {
    if s != "" && IsSpace(s[0]) { TrimLeftPart(s[1..]); }
  }

  lemma {:induction false} TrimRightPart(s: string)
    ensures |TrimRight(s)| <= |s| && TrimRight(s) == s[..|TrimRight(s)|]
    ensures forall i :: |TrimRight(s)| <= i < |s| ==> IsSpace(s[i])
    ensures TrimRight(s) != "" ==> !IsSpace(TrimRight(s)[|TrimRight(s)| - 1])
    ensures s != "" && !IsSpace(s[|s| - 1]) ==> TrimRight(s) == s
  {
    if s != "" && IsSpace(s[|s| - 1]) { TrimRightPart(s[..|s| - 1]); }
  }

  predicate Trimmed(s: string) { s != "" ==> !IsSpace(s[0]) && !IsSpace(s[|s| - 1]) }

  lemma {:induction false} TrimPart(s: string)
    ensures Trimmed(Trim(s))
    ensures Trimmed(s) ==> Trim(s) == s
    ensures exists i: nat, j: nat :: i <= j <= |s| && Trim(s) == s[i..j]
  {
    hide TrimLeft, TrimRight;
    var left := TrimLeft(s);
    TrimLeftPart(s);
    TrimRightPart(left);
    var i: nat := |s| - |left|;
    assert Trim(s) == left[..|Trim(s)|] == s[i..i + |Trim(s)|];
    if Trim(s) != "" { assert Trim(s)[0] == left[0]; }
    if Trimmed(s) { TrimmedStays(s); }
  }

  lemma {:induction false} TrimmedStays(s: string)
    requires Trimmed(s)
    ensures Trim(s) == s
  {
    TrimLeftPart(s);
    TrimRightPart(s);
  }

  /** The text that is kept is the text that was scanned. */
  lemma {:induction false} CleanIsPrepared(sql: string)
    ensures Clean(sql) == Prepare(sql) && Trimmed(Prepare(sql))
  {
    TrimPart(sql);
    TrimPart(Trim(sql));
    TrimPart(WithoutSuffix(Trim(sql), ';'));
  }
}
