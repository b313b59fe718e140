/**
 Exactly which texts are accepted, by positions of the readable text: its words, its first word and its parameters; and
 the type of each kind of parameter value.
*/
module Acceptance {
  import opened Wrappers
  import opened Lexing
  import opened Validation

  predicate Letter(c: char) { 'a' <= c <= 'z' || 'A' <= c <= 'Z' || c == '_' }

  predicate WordChar(c: char) { 'a' <= c <= 'z' || 'A' <= c <= 'Z' || c == '_' || '0' <= c <= '9' }

  predicate AllWord(s: string, i: nat, j: nat)
    requires j <= |s|
  {
    forall k :: i <= k < j ==> WordChar(s[k])
  }

  /**
   A word: a letter or underscore and all word characters behind it, where no letter or underscore in the same stretch
   comes before it. Digits may: the pattern has no word boundary, so "1insert" holds the word insert.
  */
  ghost predicate WordAt(s: string, i: nat, j: nat)
  {
    && i < j <= |s| && Letter(s[i]) && AllWord(s, i, j) && (j < |s| ==> !WordChar(s[j]))
    && forall h: nat :: h < i && AllWord(s, h, i) ==> !Letter(s[h])
  }

  function LowerChar(c: char): char { if 'A' <= c <= 'Z' then (c as int + 32) as char else c }

  /** The word at these positions is the given one, in any case. */
  predicate Spells(s: string, i: nat, j: nat, word: string)
    requires i <= j <= |s|
  {
    j - i == |word| && forall k :: 0 <= k < |word| ==> LowerChar(s[i + k]) == word[k]
  }

  ghost predicate Contains(s: string, word: string)
  {
    exists i: nat, j: nat :: WordAt(s, i, j) && Spells(s, i, j, word)
  }

  /** The word that no other precedes. */
  ghost predicate FirstWord(s: string, i: nat, j: nat)
  {
    WordAt(s, i, j) && forall i2: nat, j2: nat :: WordAt(s, i2, j2) ==> i <= i2
  }

  ghost predicate Opens(s: string, word: string)
  {
    exists i: nat, j: nat :: FirstWord(s, i, j) && Spells(s, i, j, word)
  }

  /** "$" and the name, up to its last word character. */
  predicate ReferenceAt(s: string, i: nat, name: string)
  {
    && i < |s| && s[i] == '$' && i + 1 + |name| <= |s| && s[i + 1..i + 1 + |name|] == name
    && name != "" && Letter(name[0]) && AllWord(s, i + 1, i + 1 + |name|)
    && (i + 1 + |name| < |s| ==> !WordChar(s[i + 1 + |name|]))
  }

  ghost predicate Refers(s: string, name: string)
  {
    exists i: nat :: ReferenceAt(s, i, name)
  }

  // ---------- the words are those at the positions

  lemma {:induction false} SkipOne(s: string, i: nat, j: nat)
    requires s != "" && !Letter(s[0])
    ensures WordAt(s, i, j) <==> i >= 1 && j >= 1 && WordAt(s[1..], i - 1, j - 1)
  {
    var t := s[1..];
    if WordAt(s, i, j) {
      forall h: nat | h < i - 1 && AllWord(t, h, i - 1) ensures !Letter(t[h]) {
        forall k | h + 1 <= k < i ensures WordChar(s[k]) { assert WordChar(t[k - 1]); }
        assert AllWord(s, h + 1, i);
      }
      forall k | i - 1 <= k < j - 1 ensures WordChar(t[k]) { assert WordChar(s[k + 1]); }
    }
    if i >= 1 && j >= 1 && WordAt(t, i - 1, j - 1) {
      forall h: nat | h < i && AllWord(s, h, i) ensures !Letter(s[h]) {
        if h > 0 {
          forall k | h - 1 <= k < i - 1 ensures WordChar(t[k]) { assert WordChar(s[k + 1]); }
          assert AllWord(t, h - 1, i - 1);
        }
      }
      forall k | i <= k < j ensures WordChar(s[k]) { assert WordChar(t[k - 1]); }
    }
  }

  lemma {:induction false} RunIsWord(s: string)
    ensures AllWord(s, 0, Run(s)) && (Run(s) < |s| ==> !WordChar(s[Run(s)]))
    ensures s != "" && Letter(s[0]) ==> Run(s) > 0
  {
    forall k | 0 <= k < Run(s) ensures WordChar(s[k]) { assert IsWord(s[k]); }
  }

  lemma {:induction false} TailWord(s: string, n: nat, i: nat, j: nat)
    requires n <= i && n <= j && (n < |s| ==> !WordChar(s[n])) && n <= |s|
    ensures WordAt(s, i, j) <==> WordAt(s[n..], i - n, j - n)
  {
    var t := s[n..];
    if WordAt(s, i, j) {
      forall k | i - n <= k < j - n ensures WordChar(t[k]) { assert WordChar(s[k + n]); }
      forall h: nat | h < i - n && AllWord(t, h, i - n) ensures !Letter(t[h]) {
        forall k | h + n <= k < i ensures WordChar(s[k]) { assert WordChar(t[k - n]); }
        assert AllWord(s, h + n, i);
      }
    }
    if WordAt(t, i - n, j - n) {
      forall k | i <= k < j ensures WordChar(s[k]) { assert WordChar(t[k - n]); }
      forall h: nat | h < i && AllWord(s, h, i) ensures !Letter(s[h]) {
        if h >= n {
          forall k | h - n <= k < i - n ensures WordChar(t[k]) { assert WordChar(s[k + n]); }
          assert AllWord(t, h - n, i - n);
        }
      }
    }
  }

  lemma {:induction false} PrefixWord(s: string, i: nat, n: nat)
    requires i <= n <= |s| && AllWord(s, 0, n)
    ensures AllWord(s, 0, i)
  {
  }

  /** Behind a first word the words are those of the rest. */
  lemma {:induction false} SkipWord(s: string, i: nat, j: nat)
    requires s != "" && Letter(s[0])
    ensures var n := Run(s); WordAt(s, i, j) <==> (i == 0 && j == n) || (i >= n && j >= n && WordAt(s[n..], i - n, j - n))
  {
    hide Run;
    var n := Run(s);
    RunIsWord(s);
    if i >= n && j >= n { TailWord(s, n, i, j); }
    if WordAt(s, i, j) && 0 < i < n { PrefixWord(s, i, n); }
  }

  lemma {:induction false} SliceOfRest(s: string, n: nat, i: nat, j: nat)
    requires n <= |s| && i <= j <= |s| - n
    ensures s[n..][i..j] == s[i + n..j + n]
  {
  }

  lemma {:induction false} WordsAreAt(s: string, k: nat) returns (i: nat, j: nat)
    requires k < |Words(s)|
    ensures WordAt(s, i, j) && i < j <= |s| && s[i..j] == Words(s)[k]
    decreases |s|
  {
    hide WordAt, Run;
    if Letter(s[0]) {
      var n := Run(s);
      RunIsWord(s);
      if k == 0 {
        SkipWord(s, 0, n);
        assert s[0..n] == Words(s)[0];
        i, j := 0, n;
      } else {
        i, j := WordsAreAt(s[n..], k - 1);
        SkipWord(s, i + n, j + n);
        SliceOfRest(s, n, i, j);
        i, j := i + n, j + n;
      }
    } else {
      i, j := WordsAreAt(s[1..], k);
      SkipOne(s, i + 1, j + 1);
      SliceOfRest(s, 1, i, j);
      i, j := i + 1, j + 1;
    }
  }

  lemma {:induction false} InText(s: string, i: nat, j: nat)
    requires WordAt(s, i, j)
    ensures i < j <= |s|
  {
  }

  lemma {:induction false} AtAreWords(s: string, i: nat, j: nat)
    requires WordAt(s, i, j)
    ensures i < j <= |s| && s[i..j] in Words(s)
    decreases |s|
  {
    hide WordAt, Run;
    InText(s, i, j);
    if Letter(s[0]) {
      var n := Run(s);
      RunIsWord(s);
      SkipWord(s, i, j);
      if i == 0 && j == n {
        assert Words(s)[0] == s[..n] == s[0..n];
      } else {
        AtAreWords(s[n..], i - n, j - n);
        SliceOfRest(s, n, i - n, j - n);
        assert forall w :: w in Words(s[n..]) ==> w in Words(s);
      }
    } else {
      SkipOne(s, i, j);
      AtAreWords(s[1..], i - 1, j - 1);
      SliceOfRest(s, 1, i - 1, j - 1);
    }
  }

  lemma {:induction false} FirstIsFirst(s: string) returns (i: nat, j: nat)
    requires Words(s) != []
    ensures FirstWord(s, i, j) && i < j <= |s| && s[i..j] == Words(s)[0]
    decreases |s|
  {
    hide WordAt, Run;
    if Letter(s[0]) {
      i, j := 0, Run(s);
      RunIsWord(s);
      SkipWord(s, 0, j);
      assert s[0..j] == Words(s)[0];
    } else {
      i, j := FirstIsFirst(s[1..]);
      SkipOne(s, i + 1, j + 1);
      forall i2: nat, j2: nat | WordAt(s, i2, j2) ensures i + 1 <= i2 {
        SkipOne(s, i2, j2);
        assert WordAt(s[1..], i2 - 1, j2 - 1);
      }
      SliceOfRest(s, 1, i, j);
      i, j := i + 1, j + 1;
    }
  }

  lemma {:induction false} LowerAt(s: string, k: nat)
    requires k < |s|
    ensures Lower(s)[k] == LowerChar(s[k])
    decreases |s|
  {
    if k > 0 { LowerAt(s[1..], k - 1); }
  }

  lemma {:induction false} SpellsIsLower(s: string, i: nat, j: nat, word: string)
    requires i <= j <= |s|
    ensures Spells(s, i, j, word) <==> Lower(s[i..j]) == word
  {
    hide Lower;
    var part := s[i..j];
    forall k | 0 <= k < |part| ensures Lower(part)[k] == LowerChar(s[i + k]) { LowerAt(part, k); }
  }

  lemma {:induction false} ContainedAt(s: string, word: string) returns (i: nat, j: nat)
    requires Contains(s, word)
    ensures WordAt(s, i, j) && i < j <= |s| && Spells(s, i, j, word)
  {
    i, j :| WordAt(s, i, j) && Spells(s, i, j, word);
  }

  lemma {:induction false} OpenedAt(s: string, word: string) returns (i: nat, j: nat)
    requires Opens(s, word)
    ensures FirstWord(s, i, j) && i < j <= |s| && Spells(s, i, j, word)
  {
    i, j :| FirstWord(s, i, j) && Spells(s, i, j, word);
  }

  /** A word occurs at some positions exactly when it is among the words. */
  lemma {:induction false} ContainsIff(s: string, word: string)
    ensures Contains(s, word) <==> exists k :: 0 <= k < |Words(s)| && Lower(Words(s)[k]) == word
  {
    hide WordAt, Spells, Words, Lower;
    if Contains(s, word) {
      var i, j := ContainedAt(s, word);
      AtAreWords(s, i, j);
      SpellsIsLower(s, i, j, word);
    }
    if exists k :: 0 <= k < |Words(s)| && Lower(Words(s)[k]) == word {
      var k :| 0 <= k < |Words(s)| && Lower(Words(s)[k]) == word;
      var i, j := WordsAreAt(s, k);
      SpellsIsLower(s, i, j, word);
    }
  }

  lemma {:induction false} OpensIff(s: string, word: string)
    ensures Opens(s, word) <==> Words(s) != [] && Lower(Words(s)[0]) == word
  {
    hide WordAt, Spells, Words, Lower;
    if Opens(s, word) {
      var i, j := OpenedAt(s, word);
      AtAreWords(s, i, j);
      var i0, j0 := FirstIsFirst(s);
      assert i == i0;
      SameEnd(s, i, j, j0);
      SpellsIsLower(s, i, j, word);
    }
    if Words(s) != [] && Lower(Words(s)[0]) == word {
      var i, j := FirstIsFirst(s);
      SpellsIsLower(s, i, j, word);
    }
  }

  lemma {:induction false} SameEnd(s: string, i: nat, j: nat, j2: nat)
    requires WordAt(s, i, j) && WordAt(s, i, j2)
    ensures j == j2
  {
  }

  // ---------- the parameters are those at the positions

  lemma {:induction false} ReferenceShift(s: string, n: nat, i: nat, name: string)
    requires n <= i && n <= |s|
    ensures ReferenceAt(s, i, name) <==> ReferenceAt(s[n..], i - n, name)
  {
    var t := s[n..];
    if i < |s| && i + 1 + |name| <= |s| {
      assert s[i + 1..i + 1 + |name|] == t[i - n + 1..i - n + 1 + |name|];
      forall k | i + 1 <= k < i + 1 + |name| ensures s[k] == t[k - n] {}
      forall k | i - n + 1 <= k < i - n + 1 + |name| ensures t[k] == s[k + n] {}
      if AllWord(t, i - n + 1, i - n + 1 + |name|) { forall k | i + 1 <= k < i + 1 + |name| ensures WordChar(s[k]) { assert WordChar(t[k - n]); } }
      if AllWord(s, i + 1, i + 1 + |name|) { forall k | i - n + 1 <= k < i - n + 1 + |name| ensures WordChar(t[k]) { assert WordChar(s[k + n]); } }
    }
  }

  /** The name behind a "$" is all word characters there. */
  lemma {:induction false} FirstReference(s: string, name: string)
    requires |s| > 1 && s[0] == '$' && Letter(s[1])
    ensures var n := Run(s[1..]); n > 0 && (ReferenceAt(s, 0, name) <==> name == s[1..1 + n])
    ensures forall i: nat :: 1 <= i < 1 + Run(s[1..]) ==> !ReferenceAt(s, i, name)
  {
    hide Run;
    var t := s[1..];
    var n := Run(t);
    RunIsWord(t);
    forall k | 1 <= k < 1 + n ensures WordChar(s[k]) && s[k] != '$' { assert WordChar(t[k - 1]); }
    assert AllWord(s, 1, 1 + n);
    if ReferenceAt(s, 0, name) {
      assert |name| == n;
    }
  }

  lemma {:induction false} RefersIff(s: string, name: string)
    ensures Refers(s, name) <==> name in Names(s)
    decreases |s|
  {
    hide ReferenceAt, Run;
    if s == "" {
      NothingRefers(s, name);
    } else if s[0] == '$' && |s| > 1 && Letter(s[1]) {
      var n := Run(s[1..]);
      FirstReference(s, name);
      var t := s[1 + n..];
      RefersIff(t, name);
      forall i: nat | i >= 1 + n ensures ReferenceAt(s, i, name) <==> ReferenceAt(t, i - 1 - n, name) { ReferenceShift(s, 1 + n, i, name); }
      if Refers(t, name) {
        var i: nat :| ReferenceAt(t, i, name);
        ReferenceShift(s, 1 + n, i + 1 + n, name);
      }
    } else {
      var t := s[1..];
      RefersIff(t, name);
      NoReference(s, name);
      forall i: nat | i >= 1 ensures ReferenceAt(s, i, name) <==> ReferenceAt(t, i - 1, name) { ReferenceShift(s, 1, i, name); }
      if Refers(t, name) {
        var i: nat :| ReferenceAt(t, i, name);
        ReferenceShift(s, 1, i + 1, name);
      }
    }
  }

  lemma {:induction false} NothingRefers(s: string, name: string)
    requires s == ""
    ensures !Refers(s, name)
  {
  }

  lemma {:induction false} NoReference(s: string, name: string)
    requires s != "" && !(s[0] == '$' && |s| > 1 && Letter(s[1]))
    ensures !ReferenceAt(s, 0, name)
  {
    if |name| > 0 && 1 + |name| <= |s| { assert s[1..1 + |name|][0] == s[1]; }
  }

  // ---------- acceptance

  /** No word of the text may be one of these. */
  const STATEMENTS: set<string> := {
    "alter", "attach", "call", "checkpoint", "copy", "create", "delete", "detach", "drop", "export", "force",
    "import", "insert", "install", "load", "merge", "pragma", "reset", "set", "update", "vacuum"}

  /** Reads only: begins with select or with, and holds none of the forbidden words. */
  ghost predicate ReadsOnly(text: string)
  {
    && (Opens(text, "select") || Opens(text, "with"))
    && forall word :: word in STATEMENTS ==> !Contains(text, word)
  }

  /**
   A query is accepted exactly when it is readable, its first word is select or with, no word is one of the 21 forbidden
   ones, its references are the given parameters, and every value has a type.
  */
  lemma {:induction false} AcceptedExactly(sql: string, parameters: Parameters)
    ensures Validate(sql, parameters).Ok? <==>
              && Readable(sql).Ok?
              && ReadsOnly(Readable(sql).value)
              && (forall name :: Refers(Readable(sql).value, name) <==> name in parameters)
              && (forall name :: name in parameters ==> ParameterType(parameters[name]).Some?)
  {
    hide Readable, Words, Names, Lower, Contains, Opens, Refers, ParameterType;
    if Readable(sql).Ok? {
      var text := Readable(sql).value;
      OpensIff(text, "select");
      OpensIff(text, "with");
      ForbiddenIff(text);
      forall name: string ensures Refers(text, name) <==> name in Names(text) { RefersIff(text, name); }
    }
  }

  lemma {:induction false} ForbiddenIff(text: string)
    ensures HasForbidden(Words(text)) <==> exists word :: word in STATEMENTS && Contains(text, word)
  {
    hide Words, Lower, Contains;
    forall word: string ensures Contains(text, word) <==> exists k :: 0 <= k < |Words(text)| && Lower(Words(text)[k]) == word { ContainsIff(text, word); }
    assert STATEMENTS == FORBIDDEN;
    if HasForbidden(Words(text)) {
      var k :| 0 <= k < |Words(text)| && Lower(Words(text)[k]) in FORBIDDEN;
      assert Contains(text, Lower(Words(text)[k]));
    }
  }

  // ---------- the text that is scanned and kept

  predicate White(c: char) { c in {' ', '\t', '\n', '\r', '\U{0B}', '\U{0C}'} }

  predicate AllWhite(s: string, i: nat, j: nat)
    requires j <= |s|
  {
    forall k :: i <= k < j ==> White(s[k])
  }

  /** The part without white space at its ends, of a text that has only white space and at most one ';', the last, around it. */
  predicate KeptPart(sql: string, i: nat, j: nat)
  {
    && i <= j <= |sql| && AllWhite(sql, 0, i)
    && (i < j ==> !White(sql[i]) && !White(sql[j - 1]))
    && ((AllWhite(sql, j, |sql|) && (i < j ==> sql[j - 1] != ';'))
        || exists p: nat :: j <= p < |sql| && sql[p] == ';' && AllWhite(sql, j, p) && AllWhite(sql, p + 1, |sql|))
  }

  lemma {:induction false} LeftPart(s: string) returns (i: nat)
    ensures i <= |s| && TrimLeft(s) == s[i..] && AllWhite(s, 0, i) && (i < |s| ==> !White(s[i]))
  {
    i := 0;
    if s != "" && White(s[0]) {
      var j := LeftPart(s[1..]);
      i := j + 1;
      forall k | 0 <= k < i ensures White(s[k]) { if k > 0 { assert White(s[1..][k - 1]); } }
    }
  }

  lemma {:induction false} RightPart(s: string) returns (j: nat)
    ensures j <= |s| && TrimRight(s) == s[..j] && AllWhite(s, j, |s|) && (j > 0 ==> !White(s[j - 1]))
  {
    j := |s|;
    if s != "" && White(s[|s| - 1]) {
      j := RightPart(s[..|s| - 1]);
      forall k | j <= k < |s| ensures White(s[k]) { if k < |s| - 1 { assert White(s[..|s| - 1][k]); } }
    }
  }

  lemma {:induction false} MiddlePart(s: string) returns (i: nat, j: nat)
    ensures i <= j <= |s| && Trim(s) == s[i..j] && AllWhite(s, 0, i) && AllWhite(s, j, |s|)
    ensures i < j ==> !White(s[i]) && !White(s[j - 1])
  {
    hide TrimLeft, TrimRight;
    i := LeftPart(s);
    var n := RightPart(s[i..]);
    j := i + n;
    forall k | j <= k < |s| ensures White(s[k]) { assert White(s[i..][k - i]); }
    if n > 0 { assert s[i..][n - 1] == s[j - 1]; }
    assert s[i..][..n] == s[i..j];
  }

  lemma {:induction false} SliceOfSlice(s: string, a: nat, b: nat, n: nat, m: nat)
    requires a <= b <= |s| && n <= m <= b - a
    ensures s[a..b][n..m] == s[a + n..a + m]
  {
    var part := s[a..b][n..m];
    forall k | 0 <= k < m - n ensures part[k] == s[a + n..a + m][k] { assert part[k] == s[a..b][n + k]; }
    assert |part| == |s[a + n..a + m]|;
    assert part == s[a + n..a + m];
  }

  /** The text that is kept, by its positions. */
  lemma {:induction false} KeptByPositions(sql: string) returns (i: nat, j: nat)
    ensures KeptPart(sql, i, j) && Clean(sql) == sql[i..j]
  {
    hide Trim;
    var a, b := MiddlePart(sql);
    if a < b && sql[b - 1] == ';' {
      var inner := sql[a..b - 1];
      SliceOfSlice(sql, a, b, 0, b - a - 1);
      assert WithoutSuffix(Trim(sql), ';') == sql[a..b][0..b - a - 1];
      var n, m := MiddlePart(inner);
      i, j := a + n, a + m;
      SliceOfSlice(sql, a, b - 1, n, m);
      forall k | j <= k < b - 1 ensures White(sql[k]) { assert White(inner[k - a]); }
      if n < m { assert sql[i] == inner[n] && sql[j - 1] == inner[m - 1]; }
      assert sql[b - 1] == ';' && AllWhite(sql, j, b - 1);
    } else {
      i, j := a, b;
      TrimPart(sql);
      assert WithoutSuffix(Trim(sql), ';') == Trim(sql);
      TrimmedStays(Trim(sql));
    }
  }

  /** "$$", or "$tag$" for a word. */
  predicate TagAt(s: string, i: nat, j: nat)
  {
    i < j < |s| && s[i] == '$' && s[j] == '$' && (j == i + 1 || (Letter(s[i + 1]) && AllWord(s, i + 1, j)))
  }

  /** A text is readable unless nothing is kept of it, or that holds a NUL, a dollar quote, a ';' in code, or an open literal or comment. */
  lemma {:induction false} ReadableExactly(sql: string)
    ensures var text := Clean(sql);
            && (Readable(sql).Ok? <==>
                && text != "" && '\0' !in text
                && (forall i: nat, j: nat :: !TagAt(text, i, j))
                && (forall i :: 0 <= i < |text| && text[i] == ';' ==> !Marks(text, Code)[i])
                && (End(text, Code) == Code || End(text, Code) == Line))
            && (Readable(sql).Ok? ==> |Readable(sql).value| == |text| && forall i :: 0 <= i < |text| ==>
                  Readable(sql).value[i] == if Marks(text, Code)[i] then text[i] else ' ')
  {
    hide Clean, Prepare, Marks, End, Trim;
    CleanIsPrepared(sql);
    TagsAreQuotes(Clean(sql));
  }

  lemma {:induction false} TagsAreQuotes(s: string)
    ensures DollarQuoted(s) <==> exists i: nat, j: nat :: TagAt(s, i, j)
  {
    forall i: nat, j: nat ensures TagAt(s, i, j) <==> DollarQuote(s, i, j) {
      if i < j < |s| && AllWord(s, i + 1, j) {
        forall k | i < k < j ensures IsWord(s[k]) { assert WordChar(s[k]); }
      }
      if DollarQuote(s, i, j) {
        forall k | i + 1 <= k < j ensures WordChar(s[k]) { assert IsWord(s[k]); }
      }
    }
  }

  /** What is handed on: the kept part of the text, and the type of each parameter. */
  lemma {:induction false} AcceptedKeeps(sql: string, parameters: Parameters) returns (i: nat, j: nat)
    requires Validate(sql, parameters).Ok?
    ensures var v := Validate(sql, parameters).value;
            && KeptPart(sql, i, j) && v.sql == sql[i..j] && v.types.Keys == parameters.Keys
            && forall name :: name in parameters ==> ParameterType(parameters[name]) == Some(v.types[name])
  {
    hide Readable, Words, Names, Lower, IsQueryText, HasForbidden, Clean, ParameterType;
    i, j := KeptByPositions(sql);
  }

  // ---------- the type of a value

  predicate IsWhole(x: real, k: int) { x == k as real }

  /** Texts, booleans, whole numbers in 64 bits and other numbers have types; null, lists, objects and out-of-range numbers have none. */
  lemma {:induction false} TypeOfEachKind(text: string, flag: bool, x: real, n: int, inRange: bool)
    ensures ParameterType(Text(text)) == Some("string")
    ensures ParameterType(Flag(flag)) == Some("boolean")
    ensures ParameterType(Float(x)) == Some(if exists k :: IsWhole(x, k) then "integer" else "number")
    ensures ParameterType(Integer(n)) == if -9_223_372_036_854_775_808 <= n <= 9_223_372_036_854_775_807 then Some("integer") else None
    ensures ParameterType(Decimal(inRange)) == if inRange then Some("number") else None
    ensures ParameterType(Null).None? && ParameterType(Composite).None?
  {
    if x == x.Floor as real { assert IsWhole(x, x.Floor); }
  }
}
