/** Masking twice only trims, and a text accepted once is accepted again with the same types. */
module Revalidation {
  import opened Wrappers
  import opened Lexing
  import opened Validation

  // ---------- masking the masked text

  /** b is a stretch of a, or a stretch of it with some characters blanked. */
  ghost predicate Within(b: string, a: string, from: nat)
  {
    from + |b| <= |a| && forall i :: 0 <= i < |b| ==> b[i] == a[from + i] || b[i] == ' '
  }

  /** Blanking or cutting makes no dollar quote. */
  lemma {:induction false} NoNewDollarQuote(b: string, a: string, from: nat)
    requires Within(b, a, from) && !DollarQuoted(a)
    ensures !DollarQuoted(b)
  {
    forall i, j | 0 <= i < |b| && 0 <= j < |b| ensures !DollarQuote(b, i, j) {
      if DollarQuote(b, i, j) {
        forall k | from + i < k < from + j ensures IsWord(a[k]) { assert IsWord(b[k - from]); }
        assert DollarQuote(a, from + i, from + j);
      }
    }
  }

  lemma {:induction false} PlainPart(s: string, i: nat, j: nat)
    requires i <= j <= |s| && Plain(s)
    ensures Plain(s[i..j])
  {
    var part := s[i..j];
    forall k | 0 <= k < |part| - 1 ensures !(part[k] == '-' && part[k + 1] == '-') && !(part[k] == '/' && part[k + 1] == '*') {
      assert part[k] == s[i + k] && part[k + 1] == s[i + k + 1];
    }
  }

  /** readableSQL of its own result only trims it; blank text is refused as empty. */
  lemma {:induction false} ReadableAgain(sql: string)
    requires Readable(sql).Ok?
    ensures var masked := Readable(sql).value;
            Readable(masked) == if Trim(masked) == "" then Err(Empty) else Ok(Trim(masked))
  {
    hide Plain, DollarQuoted, Trim, Mask;
    var text, masked := Prepare(sql), Readable(sql).value;
    MaskedIsPlain(text);
    TrimPart(masked);
    var i: nat, j: nat :| i <= j <= |masked| && Trim(masked) == masked[i..j];
    var again := masked[i..j];
    assert Prepare(masked) == again;
    PlainPart(masked, i, j);
    PlainMasksToItself(again);
    assert Within(again, text, i);
    NoNewDollarQuote(again, text, i);
  }

  // ---------- a ';' kept inside a trailing line comment

  predicate Closed(mode: Mode) { mode.Code? || mode.Line? }

  predicate RealQuote(mode: Mode) { mode.Quoted? ==> IsQuote(mode.quote) }

  lemma {:induction false} LastSemicolon(s: string, mode: Mode)
    requires s != "" && Next(s, mode).width == |s|
    requires EndsWith(s, ';') && !Marks(s, mode)[|s| - 1] && Closed(End(s, mode)) && RealQuote(mode)
    ensures End(s, mode).Line?
  {
  }

  lemma {:induction false} NextMode(s: string, mode: Mode)
    requires s != ""
    ensures RealQuote(mode) ==> RealQuote(Next(s, mode).next)
    ensures End(s, mode) == End(s[Next(s, mode).width..], Next(s, mode).next)
    ensures Marks(s, mode)[Next(s, mode).width..] == Marks(s[Next(s, mode).width..], Next(s, mode).next)
  {
  }

  /** A final ';' that is no code, in a text that leaves nothing open, lies in a line comment. */
  lemma {:induction false} FinalSemicolonInLine(s: string, mode: Mode)
    requires EndsWith(s, ';') && !Marks(s, mode)[|s| - 1] && Closed(End(s, mode)) && RealQuote(mode)
    ensures End(s, mode).Line?
    decreases |s|
  {
    hide Next, Marks, End, RealQuote, Closed;
    var t := Next(s, mode);
    if t.width == |s| {
      LastSemicolon(s, mode);
    } else {
      NextMode(s, mode);
      FinalSemicolonInLine(s[t.width..], t.next);
    }
  }

  lemma {:induction false} TokenOfPrefix(s: string, mode: Mode)
    requires s != "" && Next(s, mode).width < |s|
    ensures Next(s[..|s| - 1], mode) == Next(s, mode)
  {
  }

  lemma {:induction false} LastByteInLine(s: string, mode: Mode)
    requires s != "" && Next(s, mode).width == |s|
    requires (EndsWith(s, ';') || IsSpace(s[|s| - 1])) && End(s, mode).Line? && RealQuote(mode)
    ensures |s| == 1 && mode.Line? && !Marks(s, mode)[0]
  {
  }

  /** Dropping a ';' or white space from the end of a line comment changes nothing before it. */
  lemma {:induction false} DropFromLine(s: string, mode: Mode)
    requires s != "" && (EndsWith(s, ';') || IsSpace(s[|s| - 1])) && End(s, mode).Line? && RealQuote(mode)
    ensures var short := s[..|s| - 1];
            && End(short, mode).Line? && Marks(short, mode) == Marks(s, mode)[..|s| - 1] && !Marks(s, mode)[|s| - 1]
    decreases |s|
  {
    hide Next, Marks, End, RealQuote, IsSpace;
    var t := Next(s, mode);
    var rest, short := s[t.width..], s[..|s| - 1];
    if rest == "" {
      LastByteInLine(s, mode);
      NothingRead(short, mode);
    } else {
      NextMode(s, mode);
      TokenOfPrefix(s, mode);
      DropFromLine(rest, t.next);
      DroppedMarks(s, mode);
      NextMode(short, mode);
    }
  }

  lemma {:induction false} NothingRead(s: string, mode: Mode)
    requires s == ""
    ensures Marks(s, mode) == [] && End(s, mode) == mode
  {
  }

  lemma {:induction false} DroppedMarks(s: string, mode: Mode)
    requires s != "" && Next(s, mode).width < |s|
    requires var t := Next(s, mode); var rest := s[t.width..];
             Marks(rest[..|rest| - 1], t.next) == Marks(rest, t.next)[..|rest| - 1] && !Marks(rest, t.next)[|rest| - 1]
    ensures var short, t := s[..|s| - 1], Next(s, mode);
            && Marks(short, mode) == Marks(s, mode)[..|s| - 1] && !Marks(s, mode)[|s| - 1]
            && short[t.width..] == s[t.width..][..|s| - t.width - 1]
  {
    hide Next;
    var t, short := Next(s, mode), s[..|s| - 1];
    TokenOfPrefix(s, mode);
    assert short[t.width..] == s[t.width..][..|s| - t.width - 1];
    assert Marks(s, mode) == seq(t.width, i => t.code) + Marks(s[t.width..], t.next);
  }

  lemma {:induction false} TrimFromLine(s: string)
    requires End(s, Code).Line?
    ensures var short := TrimRight(s);
            && |short| <= |s| && short == s[..|short|]
            && End(short, Code).Line? && Marks(short, Code) == Marks(s, Code)[..|short|]
            && forall k :: |short| <= k < |s| ==> !Marks(s, Code)[k]
    decreases |s|
  {
    if s != "" && IsSpace(s[|s| - 1]) {
      DropFromLine(s, Code);
      var less := s[..|s| - 1];
      TrimFromLine(less);
      var short := TrimRight(less);
      assert Marks(s, Code)[..|s| - 1][..|short|] == Marks(s, Code)[..|short|];
      forall k | |short| <= k < |s| ensures !Marks(s, Code)[k] {
        if k < |less| { assert Marks(s, Code)[k] == Marks(less, Code)[k]; }
      }
    }
  }

  // ---------- blanks at the end add no word and no parameter

  ghost predicate BlankFrom(s: string, k: nat) { k <= |s| && forall i :: k <= i < |s| ==> s[i] == ' ' }

  lemma {:induction false} RunBeforeBlanks(s: string, k: nat)
    requires BlankFrom(s, k)
    ensures Run(s[..k]) == Run(s)
  {
    if s != "" && IsWord(s[0]) {
      assert s[..k][1..] == s[1..][..k - 1];
      RunBeforeBlanks(s[1..], k - 1);
    }
  }

  lemma {:induction false} WordsBeforeBlanks(s: string, k: nat)
    requires BlankFrom(s, k)
    ensures Words(s[..k]) == Words(s)
    decreases |s|
  {
    if s != "" {
      var short := s[..k];
      if k == 0 {
        WordsBeforeBlanks(s[1..], 0);
        assert s[1..][..0] == short;
      } else if IsStart(s[0]) {
        RunBeforeBlanks(s, k);
        var n := Run(s);
        assert short[n..] == s[n..][..k - n] && short[..n] == s[..n];
        WordsBeforeBlanks(s[n..], k - n);
      } else {
        assert short[1..] == s[1..][..k - 1];
        WordsBeforeBlanks(s[1..], k - 1);
      }
    }
  }

  lemma {:induction false} FirstNameBeforeBlanks(s: string, k: nat)
    requires BlankFrom(s, k) && |s| > 1 && s[0] == '$' && IsStart(s[1])
    ensures var n, short := Run(s[1..]), s[..k];
            && 1 + n <= k && |short| > 1 && short[0] == '$' && IsStart(short[1])
            && Run(short[1..]) == n && short[1 + n..] == s[1 + n..][..k - 1 - n] && short[1..1 + n] == s[1..1 + n]
            && BlankFrom(s[1 + n..], k - 1 - n)
  {
    hide Run;
    var short, tail := s[..k], s[1..];
    assert s[0] != ' ' && s[1] != ' ';
    assert short[1..] == tail[..k - 1];
    RunBeforeBlanks(tail, k - 1);
    var n := Run(tail);
    assert n <= |tail[..k - 1]| == k - 1;
    assert short[1 + n..] == s[1 + n..][..k - 1 - n] && short[1..1 + n] == s[1..1 + n];
  }

  lemma {:induction false} NamesBeforeBlanks(s: string, k: nat)
    requires BlankFrom(s, k)
    ensures Names(s[..k]) == Names(s)
    decreases |s|
  {
    if s != "" {
      var short := s[..k];
      if k == 0 {
        NamesBeforeBlanks(s[1..], 0);
        assert s[1..][..0] == short;
      } else if s[0] == '$' && |s| > 1 && IsStart(s[1]) {
        FirstNameBeforeBlanks(s, k);
        var n := Run(s[1..]);
        NamesBeforeBlanks(s[1 + n..], k - 1 - n);
      } else {
        assert short[1..] == s[1..][..k - 1];
        NamesBeforeBlanks(s[1..], k - 1);
      }
    }
  }

  // ---------- validating the kept text

  /** The text that a second validation keeps. */
  function KeptAgain(c: string): string
  {
    if EndsWith(c, ';') then TrimRight(c[..|c| - 1]) else c
  }

  /** Masking the shorter text gives the front of the masked longer one, which has only blanks after it. */
  lemma {:induction false} MaskShorter(c: string)
    requires EndsWith(c, ';') && Mask(c).Ok?
    ensures var short := KeptAgain(c);
            && |short| < |c| && short == c[..|short|] && short != ""
            && Mask(short) == Ok(Mask(c).value[..|short|]) && BlankFrom(Mask(c).value, |short|)
  {
    hide Next;
    var n := |c| - 1;
    var less, masked, code := c[..n], Mask(c).value, Marks(c, Code);
    MaskedIsPlain(c);
    FinalSemicolonInLine(c, Code);
    DropFromLine(c, Code);
    TrimFromLine(less);
    NotOnlyLine(less);
    var short := TrimRight(less);
    assert Marks(short, Code) == code[..n][..|short|] == code[..|short|];
    forall k | |short| <= k < |c| ensures masked[k] == ' ' {
      if k < n { assert code[k] == code[..n][k]; }
    }
    forall i | 0 <= i < |short| ensures !(Marks(short, Code)[i] && short[i] == ';') { assert Marks(short, Code)[i] == code[i]; }
    assert Blank(short, Marks(short, Code)) == masked[..|short|];
  }

  /** An accepted text that still ends in ';' prepares to a shorter one, whose masked form lacks only blanks. */
  lemma {:induction false} ReadableShorter(c: string)
    requires Trimmed(c) && EndsWith(c, ';') && '\0' !in c && !DollarQuoted(c) && Mask(c).Ok?
    ensures var short := KeptAgain(c);
            && Prepare(c) == short && |short| <= |c| && Mask(short) == Ok(Mask(c).value[..|short|]) && BlankFrom(Mask(c).value, |short|)
            && short != "" && '\0' !in short && !DollarQuoted(short)
  {
    hide DollarQuoted, Mask;
    var less, short := c[..|c| - 1], KeptAgain(c);
    MaskShorter(c);
    TrimmedStays(c);
    TrimLeftPart(less);
    assert less[0] == c[0];
    assert Prepare(c) == Trim(less) == short;
    assert Within(short, c, 0);
    NoNewDollarQuote(short, c, 0);
  }

  /** A line comment starts with its dashes, so some text is left. */
  lemma {:induction false} NotOnlyLine(s: string)
    requires End(s, Code).Line?
    ensures TrimRight(s) != ""
  {
    TrimFromLine(s);
  }

  /**
   Validation is stable: the kept text is accepted again with the same parameters and types, and is kept as it is
   unless it ends in a ';' (which then lies inside a trailing line comment).
  */
  lemma {:induction false} ValidateAgain(sql: string, parameters: Parameters)
    requires Validate(sql, parameters).Ok?
    ensures var v := Validate(sql, parameters).value;
            && Validate(v.sql, parameters) == Ok(Validated(KeptAgain(v.sql), v.types))
            && (EndsWith(v.sql, ';') ==> End(v.sql, Code).Line?)
  {
    hide Words, Names, Mask, DollarQuoted, Trim, TrimRight, IsQueryText, HasForbidden, Typed, TypesOf, Lower, Marks,
         End;
    var c := Prepare(sql);
    CleanIsPrepared(sql);
    CleanIsPrepared(c);
    TrimmedStays(c);
    if EndsWith(c, ';') {
      ReadableShorter(c);
      var short, masked := KeptAgain(c), Mask(c).value;
      WordsBeforeBlanks(masked, |short|);
      NamesBeforeBlanks(masked, |short|);
      EndOfMasked(c);
    }
  }

  lemma {:induction false} EndOfMasked(c: string)
    requires EndsWith(c, ';') && Mask(c).Ok?
    ensures End(c, Code).Line?
  {
    MaskedIsPlain(c);
    FinalSemicolonInLine(c, Code);
  }

  // ---------- a kept ';'

  lemma {:induction false} CodeFirst(code: string, rest: string)
    requires forall i :: 0 <= i < |code| ==> !IsQuote(code[i]) && code[i] != '-' && code[i] != '/'
    ensures Marks(code + rest, Code) == seq(|code|, i => true) + Marks(rest, Code) && End(code + rest, Code) == End(rest, Code)
    decreases |code|
  {
    if code == "" {
      assert code + rest == rest;
    } else {
      CodeFirst(code[1..], rest);
      assert (code + rest)[1..] == code[1..] + rest;
    }
  }

  lemma {:induction false} OneLine(s: string)
    requires '\n' !in s
    ensures Marks(s, Line) == seq(|s|, i => false) && End(s, Line) == Line
    decreases |s|
  {
    if s != "" { OneLine(s[1..]); }
  }

  lemma {:induction false} OneWord(word: string, rest: string)
    requires word != "" && IsStart(word[0]) && forall i :: 0 <= i < |word| ==> IsWord(word[i])
    requires forall i :: 0 <= i < |rest| ==> !IsStart(rest[i])
    requires rest != "" ==> !IsWord(rest[0])
    ensures Words(word + rest) == [word]
  {
    RunFirst(word, rest);
    assert (word + rest)[..|word|] == word && (word + rest)[|word|..] == rest;
    NoWords(rest);
  }

  lemma {:induction false} RunFirst(word: string, rest: string)
    requires (forall i :: 0 <= i < |word| ==> IsWord(word[i])) && (rest != "" ==> !IsWord(rest[0]))
    ensures Run(word + rest) == |word|
    decreases |word|
  {
    if word == "" {
      assert word + rest == rest;
    } else {
      RunFirst(word[1..], rest);
      assert (word + rest)[1..] == word[1..] + rest;
    }
  }

  lemma {:induction false} NoWords(s: string)
    requires forall i :: 0 <= i < |s| ==> !IsStart(s[i])
    ensures Words(s) == []
    decreases |s|
  {
    if s != "" { NoWords(s[1..]); }
  }

  lemma {:induction false} NoNames(s: string)
    requires '$' !in s
    ensures Names(s) == {}
    decreases |s|
  {
    if s != "" { NoNames(s[1..]); }
  }

  lemma {:induction false} LowerStays(s: string)
    requires forall i :: 0 <= i < |s| ==> !('A' <= s[i] <= 'Z')
    ensures Lower(s) == s
    decreases |s|
  {
    if s != "" { LowerStays(s[1..]); }
  }

  lemma {:induction false} SelectIsAllowed()
    ensures IsQueryText(["select"]) && !HasForbidden(["select"])
  {
    LowerStays("select");
    assert forall word :: word in FORBIDDEN ==> |word| != 6 || word[0] != 's';
  }

  const COMMENTED := "select 1 -- ;"

  lemma {:induction false} CommentMarks(s: string)
    requires s == "-- ;"
    ensures Marks(s, Code) == [false, false, false, false] && End(s, Code) == Line
  {
    assert s[2..] == " ;";
    OneLine(" ;");
  }

  lemma {:induction false} CommentedMarks()
    ensures Marks(COMMENTED, Code) == seq(9, i => true) + [false, false, false, false] && End(COMMENTED, Code) == Line
  {
    hide Marks, End;
    assert COMMENTED == "select 1 " + "-- ;";
    CommentMarks("-- ;");
    CodeFirst("select 1 ", "-- ;");
  }

  lemma {:induction false} CommentedReads()
    ensures Mask(COMMENTED) == Ok("select 1 " + "    ") && !DollarQuoted(COMMENTED)
  {
    hide Marks, End;
    CommentedMarks();
    var code := Marks(COMMENTED, Code);
    assert forall i :: 0 <= i < 13 ==> code[i] == (i < 9);
    assert Blank(COMMENTED, code) == "select 1 " + "    ";
  }

  lemma {:induction false} CommentedPrepares()
    ensures Prepare(COMMENTED + ";") == COMMENTED && KeptAgain(COMMENTED) == "select 1 --"
  {
    var sql := COMMENTED + ";";
    TrimmedStays(sql);
    TrimmedStays(COMMENTED);
    assert sql[..|sql| - 1] == COMMENTED;
    var less := COMMENTED[..|COMMENTED| - 1];
    assert less == "select 1 --" + " " && less[..|less| - 1] == "select 1 --";
    TrimRightPart("select 1 --");
  }

  /** "select 1 -- ;;" is kept with a ';' at its end, and without it when the kept text is validated again. */
  lemma {:induction false} SemicolonIsKept()
    ensures Validate("select 1 -- ;;", map[]) == Ok(Validated("select 1 -- ;", map[]))
    ensures Validate("select 1 -- ;", map[]) == Ok(Validated("select 1 --", map[]))
  {
    hide Words, Names, Mask, DollarQuoted, Prepare, Clean, IsQueryText, HasForbidden, KeptAgain;
    assert "select 1 -- ;;" == COMMENTED + ";";
    CommentedPrepares();
    CommentedReads();
    CleanIsPrepared(COMMENTED + ";");
    assert "select 1 " + "    " == "select" + " 1     ";
    OneWord("select", " 1     ");
    NoNames("select" + " 1     ");
    SelectIsAllowed();
    assert TypesOf(map[]) == map[];
    ValidateAgain(COMMENTED + ";", map[]);
  }
}
