/** What the lexer makes of each construct, whatever text follows it: quoted text, comments, and what is left open. */
module Stretches {
  import opened Wrappers
  import opened Lexing

  function Blanks(n: nat): (code: seq<bool>)
    ensures |code| == n
  {
    seq(n, i => false)
  }

  /** Inside a literal, up to the quote that ends it. */
  lemma {:induction false} InsideQuotes(quote: char, body: string, rest: string)
    requires (quote == '\'' || quote == '"') && quote !in body && (rest == "" || rest[0] != quote)
    ensures Marks(body + [quote] + rest, Quoted(quote)) == Blanks(|body| + 1) + Marks(rest, Code)
    ensures End(body + [quote] + rest, Quoted(quote)) == End(rest, Code)
    decreases |body|
  {
    var s := body + [quote] + rest;
    if body == "" {
      assert s == [quote] + rest && s[1..] == rest;
    } else {
      InsideQuotes(quote, body[1..], rest);
      assert s[1..] == body[1..] + [quote] + rest;
      assert s[0] != quote;
    }
  }

  /** A quoted text is blanked with its quotes, and code goes on behind it. */
  lemma {:induction false} QuotedStretch(quote: char, body: string, rest: string)
    requires (quote == '\'' || quote == '"') && quote !in body && (rest == "" || rest[0] != quote)
    ensures Marks([quote] + body + [quote] + rest, Code) == Blanks(|body| + 2) + Marks(rest, Code)
    ensures End([quote] + body + [quote] + rest, Code) == End(rest, Code)
  {
    hide Marks, End;
    var s := [quote] + body + [quote] + rest;
    assert s[1..] == body + [quote] + rest;
    InsideQuotes(quote, body, rest);
    QuoteOpens(s, quote);
  }

  lemma {:induction false} QuoteOpens(s: string, quote: char)
    requires s != "" && s[0] == quote && (quote == '\'' || quote == '"')
    ensures Marks(s, Code) == [false] + Marks(s[1..], Quoted(quote)) && End(s, Code) == End(s[1..], Quoted(quote))
  {
  }

  /** Two quotes in a literal are one of its characters. */
  lemma {:induction false} DoubledQuote(quote: char, rest: string)
    requires quote == '\'' || quote == '"'
    ensures Marks([quote, quote] + rest, Quoted(quote)) == [false, false] + Marks(rest, Quoted(quote))
    ensures End([quote, quote] + rest, Quoted(quote)) == End(rest, Quoted(quote))
  {
    assert ([quote, quote] + rest)[2..] == rest;
  }

  lemma {:induction false} InsideLine(body: string, rest: string)
    requires '\n' !in body
    ensures Marks(body + "\n" + rest, Line) == Blanks(|body|) + [true] + Marks(rest, Code)
    ensures End(body + "\n" + rest, Line) == End(rest, Code)
    decreases |body|
  {
    var s := body + "\n" + rest;
    if body == "" {
      assert s == "\n" + rest && s[1..] == rest;
    } else {
      InsideLine(body[1..], rest);
      assert s[1..] == body[1..] + "\n" + rest;
    }
  }

  /** A line comment is blanked up to its line feed, which stays. */
  lemma {:induction false} LineStretch(body: string, rest: string)
    requires '\n' !in body
    ensures Marks("--" + body + "\n" + rest, Code) == Blanks(|body| + 2) + [true] + Marks(rest, Code)
    ensures End("--" + body + "\n" + rest, Code) == End(rest, Code)
  {
    var s := "--" + body + "\n" + rest;
    assert s[2..] == body + "\n" + rest;
    InsideLine(body, rest);
  }

  /** No "*" of the body, or right behind it, ends the comment early. */
  predicate StaysOpen(body: string)
  {
    forall i :: 0 <= i < |body| ==> !(body[i] == '*' && (body + "*")[i + 1] == '/')
  }

  lemma {:induction false} InsideBlock(body: string, rest: string)
    requires StaysOpen(body)
    ensures Marks(body + "*/" + rest, Block) == Blanks(|body| + 2) + Marks(rest, Code)
    ensures End(body + "*/" + rest, Block) == End(rest, Code)
    decreases |body|
  {
    var s := body + "*/" + rest;
    if body == "" {
      assert s == "*/" + rest && s[2..] == rest;
    } else {
      var tail := body[1..];
      forall i | 0 <= i < |tail| ensures !(tail[i] == '*' && (tail + "*")[i + 1] == '/') {
        assert tail[i] == body[i + 1] && (tail + "*")[i + 1] == (body + "*")[i + 2];
      }
      InsideBlock(tail, rest);
      assert s[1..] == tail + "*/" + rest;
      assert s[0] == body[0] && s[1] == (body + "*")[1];
    }
  }

  /** A block comment is blanked with its ends, and code goes on behind it. */
  lemma {:induction false} BlockStretch(body: string, rest: string)
    requires StaysOpen(body)
    ensures Marks("/*" + body + "*/" + rest, Code) == Blanks(|body| + 4) + Marks(rest, Code)
    ensures End("/*" + body + "*/" + rest, Code) == End(rest, Code)
  {
    var s := "/*" + body + "*/" + rest;
    assert s[2..] == body + "*/" + rest;
    InsideBlock(body, rest);
  }

  lemma {:induction false} NeverCloses(quote: char, body: string)
    requires (quote == '\'' || quote == '"') && quote !in body
    ensures End(body, Quoted(quote)) == Quoted(quote)
    decreases |body|
  {
    if body != "" { NeverCloses(quote, body[1..]); }
  }

  lemma {:induction false} NeverEnds(body: string)
    requires forall i :: 0 <= i < |body| - 1 ==> !(body[i] == '*' && body[i + 1] == '/')
    ensures End(body, Block) == Block
    decreases |body|
  {
    if body != "" {
      var tail := body[1..];
      forall i | 0 <= i < |tail| - 1 ensures !(tail[i] == '*' && tail[i + 1] == '/') { assert tail[i] == body[i + 1] && tail[i + 1] == body[i + 2]; }
      NeverEnds(tail);
    }
  }

  /** A literal or block comment without its end is refused, or what came before it already was. */
  lemma {:induction false} OpenIsRefused(quote: char, body: string)
    requires quote == '\'' || quote == '"'
    ensures quote !in body ==> Mask([quote] + body).Err?
    ensures (forall i :: 0 <= i < |body| - 1 ==> !(body[i] == '*' && body[i + 1] == '/')) ==> Mask("/*" + body).Err?
  {
    assert ([quote] + body)[1..] == body && ("/*" + body)[2..] == body;
    if quote !in body { NeverCloses(quote, body); }
    if forall i :: 0 <= i < |body| - 1 ==> !(body[i] == '*' && body[i + 1] == '/') { NeverEnds(body); }
  }
}
