/** The connector's page loop: which pages it asks for, and what it writes and counts. */
module Fetching {
  import opened Wrappers
  import opened Pointers

  const MAX_PAGES := 100
  const MAX_TOTAL := 104_857_600

  /** Pointers already chosen; no cursor parameter means one page. */
  datatype Config = Config(records: string, paged: bool, nextCursor: string)

  datatype FetchError = PageFailed | RecordsPointer(error: PointerError) | NotAnArray | TooMuch | WriteFailed | TooManyPages

  /** The server's answer to the request for the n-th page with a cursor (none for the first): a page, or a failure. */
  type Server = (nat, Option<string>) -> Option<Json>

  /** The output's answer to each write: None, or how much it took before it failed. */
  type Sink = nat -> Option<nat>

  /** json.Marshal of a record; fmt.Sprint of a cursor. */
  datatype Text = Text(record: Json -> string, cursor: Json -> string)

  function Items(config: Config, document: Json): Option<seq<Json>>
  {
    var records := Evaluate(document, config.records);
    if records.Ok? && records.value.JsonArray? then Some(records.value.items) else None
  }

  /** The cursor for the page after this one. */
  function Cursor(config: Config, text: Text, document: Json): Option<string>
  {
    if !config.paged then None
    else
      var next := Evaluate(document, config.nextCursor);
      if next.Err? || next.value.JsonNull? || text.cursor(next.value) == "" then None else Some(text.cursor(next.value))
  }

  function Lines(text: Text, items: seq<Json>): string
  {
    if items == [] then "" else Lines(text, items[..|items| - 1]) + text.record(items[|items| - 1]) + "\n"
  }

  /** Each page is the server's answer to the cursor of the page before it, and holds an array of records. */
  ghost predicate Chain(config: Config, text: Text, serve: Server, pages: seq<Json>)
  {
    && (forall k :: 0 <= k < |pages| ==> Items(config, pages[k]).Some?)
    && (|pages| > 0 ==> serve(0, None) == Some(pages[0]))
    && (forall k :: 0 < k < |pages| ==> Follows(config, text, serve, k, pages[k - 1], pages[k]))
  }

  /** No page follows: none is asked for, or the page has no cursor, or null, or one that prints as nothing. */
  ghost predicate Last(config: Config, text: Text, page: Json)
  {
    || !config.paged || Evaluate(page, config.nextCursor).Err? || Evaluate(page, config.nextCursor).value == JsonNull
    || text.cursor(Evaluate(page, config.nextCursor).value) == ""
  }

  ghost predicate Follows(config: Config, text: Text, serve: Server, n: nat, before: Json, after: Json)
  {
    && !Last(config, text, before)
    && serve(n, Some(text.cursor(Evaluate(before, config.nextCursor).value))) == Some(after)
  }

  lemma {:induction false} CursorIs(config: Config, text: Text, page: Json)
    ensures Cursor(config, text, page) ==
            if Last(config, text, page) then None else Some(text.cursor(Evaluate(page, config.nextCursor).value))
  {
    hide Evaluate;
  }

  function Records(config: Config, pages: seq<Json>): seq<Json>
    requires forall k :: 0 <= k < |pages| ==> Items(config, pages[k]).Some?
  {
    if pages == [] then [] else Records(config, pages[..|pages| - 1]) + Items(config, pages[|pages| - 1]).value
  }

  /** The cursor asked for after these pages. */
  ghost function Ask(config: Config, text: Text, pages: seq<Json>): Option<string>
  {
    if pages == [] || Last(config, text, pages[|pages| - 1]) then None
    else Some(text.cursor(Evaluate(pages[|pages| - 1], config.nextCursor).value))
  }

  /** What is wrong with a page that ends the loop. */
  ghost predicate Refused(config: Config, page: Option<Json>, error: FetchError)
  {
    match error
    case PageFailed => page.None?
    case RecordsPointer(e) => page.Some? && Evaluate(page.value, config.records) == Err(e)
    case NotAnArray => page.Some? && Evaluate(page.value, config.records).Ok? && !Evaluate(page.value, config.records).value.JsonArray?
    case TooMuch => false
    case WriteFailed => false
    case TooManyPages => false
  }

  lemma {:induction false} LinesAppend(text: Text, items: seq<Json>, item: Json)
    ensures Lines(text, items + [item]) == Lines(text, items) + text.record(item) + "\n"
  {
    assert (items + [item])[..|items|] == items;
  }

  lemma {:induction false} ChainAppend(config: Config, text: Text, serve: Server, pages: seq<Json>, page: Json)
    requires Chain(config, text, serve, pages) && Items(config, page).Some?
    requires if pages == [] then serve(0, None) == Some(page) else Follows(config, text, serve, |pages|, pages[|pages| - 1], page)
    ensures Chain(config, text, serve, pages + [page])
    ensures Records(config, pages + [page]) == Records(config, pages) + Items(config, page).value
  {
    assert (pages + [page])[..|pages|] == pages;
  }

  /** One page's records, a line each, until the total would pass the limit or a write fails; then so much of the line is cut off. */
  method WriteRecords(text: Text, sink: Sink, items: seq<Json>, before: string, first: nat, ghost earlier: seq<Json>)
    returns (output: string, written: nat, bytes: nat, failed: Option<FetchError>, ghost cut: string)
    requires before == Lines(text, earlier) && |before| <= MAX_TOTAL && first == |earlier|
    requires forall k :: 0 <= k < first ==> sink(k).None?
    ensures written <= |items| && |output| <= MAX_TOTAL
    ensures output == Lines(text, earlier + items[..written]) + cut && bytes == |output| - |cut|
    ensures forall k :: 0 <= k < first + written ==> sink(k).None?
    ensures failed.None? ==> written == |items| && cut == ""
    ensures failed.Some? ==> written < |items| && (failed.value.TooMuch? || failed.value.WriteFailed?)
    ensures failed == Some(TooMuch) ==> cut == "" && |output| + |text.record(items[written])| + 1 > MAX_TOTAL
    ensures failed == Some(WriteFailed) ==> cut <= text.record(items[written]) + "\n" && sink(first + written).Some?
  {
    output, written, bytes, failed, cut := before, 0, |before|, None, "";
    assert earlier + items[..0] == earlier;
    while written < |items|
      invariant written <= |items| && bytes == |output| <= MAX_TOTAL && failed.None? && cut == ""
      invariant output == Lines(text, earlier + items[..written])
      invariant forall k :: 0 <= k < first + written ==> sink(k).None?
    {
      var line := text.record(items[written]) + "\n";
      if bytes + |line| > MAX_TOTAL {
        failed := Some(TooMuch);
        return;
      }
      var answer := sink(first + written);
      if answer.Some? {
        var part := if answer.value < |line| then line[..answer.value] else line;
        output, cut, failed := output + part, part, Some(WriteFailed);
        return;
      }
      LinesAppend(text, earlier + items[..written], items[written]);
      assert earlier + items[..written + 1] == earlier + items[..written] + [items[written]];
      output := output + line;
      written, bytes := written + 1, bytes + |line|;
    }
  }

  /** One page: what is wrong with it, or its records written after those of the pages before. */
  method WritePage(config: Config, text: Text, sink: Sink, document: Json, before: string, first: nat, ghost earlier: seq<Json>)
    returns (output: string, rows: nat, bytes: nat, failed: Option<FetchError>, ghost cut: string)
    requires before == Lines(text, earlier) && |before| <= MAX_TOTAL && first == |earlier|
    requires forall k :: 0 <= k < first ==> sink(k).None?
    ensures |output| <= MAX_TOTAL && bytes == |output| - |cut|
    ensures Items(config, document).None? ==>
              && output == before && rows == first && cut == ""
              && failed.Some? && !failed.value.PageFailed? && Refused(config, Some(document), failed.value)
    ensures Items(config, document).Some? ==>
              var all := earlier + Items(config, document).value;
              && rows <= |all| && output == Lines(text, all[..rows]) + cut
              && (forall k :: 0 <= k < rows ==> sink(k).None?)
              && (failed.None? ==> rows == |all| && cut == "")
              && (failed.Some? ==> rows < |all| && Stopped(text, sink, all[rows], rows, output, cut, failed.value))
  {
    hide Lines, Evaluate;
    output, rows, bytes, failed, cut := before, first, |before|, None, "";
    var records := Evaluate(document, config.records);
    if records.Err? {
      failed := Some(RecordsPointer(records.error));
    } else if !records.value.JsonArray? {
      failed := Some(NotAnArray);
    } else {
      var items := records.value.items;
      var written;
      output, written, bytes, failed, cut := WriteRecords(text, sink, items, before, first, earlier);
      rows := first + written;
      assert (earlier + items)[..rows] == earlier + items[..written];
    }
  }

  /** Why the record of this number was not written. */
  ghost predicate Stopped(text: Text, sink: Sink, record: Json, row: nat, output: string, cut: string, error: FetchError)
  {
    match error
    case TooMuch => cut == "" && |output| + |text.record(record)| + 1 > 100 * 1024 * 1024
    case WriteFailed => cut <= text.record(record) + "\n" && sink(row).Some?
    case _ => false
  }

  /**
   Success writes every record of a chain of at most 100 pages, one line each and in order, up to a page without a
   cursor. The counters are those of the whole lines written, and nothing over 100 MiB is ever written; only a write
   that fails leaves a part of a line behind them.
  */
  method Fetch(config: Config, text: Text, serve: Server, sink: Sink)
    returns (output: string, rows: nat, bytes: nat, r: Result<(), FetchError>, ghost pages: seq<Json>, ghost cut: string)
    ensures Chain(config, text, serve, pages) && |pages| <= 100
    ensures |output| <= 100 * 1024 * 1024 && rows <= |Records(config, pages)|
    ensures output == Lines(text, Records(config, pages)[..rows]) + cut && bytes == |output| - |cut|
    ensures cut != "" ==> r == Err(WriteFailed)
    ensures r.Ok? ==> pages != [] && Last(config, text, pages[|pages| - 1]) && rows == |Records(config, pages)|
    ensures forall k :: 0 <= k < rows ==> sink(k).None?
    ensures r.Err? && (r.error.PageFailed? || r.error.RecordsPointer? || r.error.NotAnArray?) ==>
              && (pages == [] || !Last(config, text, pages[|pages| - 1])) && rows == |Records(config, pages)|
              && Refused(config, serve(|pages|, Ask(config, text, pages)), r.error)
    ensures r.Err? && (r.error.TooMuch? || r.error.WriteFailed?) ==>
              rows < |Records(config, pages)| && Stopped(text, sink, Records(config, pages)[rows], rows, output, cut, r.error)
    ensures r == Err(TooManyPages) ==> |pages| == 100 && !Last(config, text, pages[99])
  {
    hide Lines, Evaluate, Stopped, Refused, Follows, Records, Cursor, Ask, Items, Last;
    output, rows, bytes, pages, cut := "", 0, 0, [], "";
    NoPages(config, text);
    var current: Option<string> := None;
    for page := 0 to MAX_PAGES
      invariant |pages| == page && Chain(config, text, serve, pages) && cut == ""
      invariant bytes == |output| <= MAX_TOTAL && rows == |Records(config, pages)|
      invariant output == Lines(text, Records(config, pages))
      invariant forall k :: 0 <= k < rows ==> sink(k).None?
      invariant current == Ask(config, text, pages) && (page > 0 ==> current.Some?)
    {
      ghost var before := Records(config, pages);
      assert before[..rows] == before;
      var response := serve(page, current);
      if page > 0 { AskLast(config, text, pages); }
      if response.None? {
        NoPage(config);
        return output, rows, bytes, Err(PageFailed), pages, cut;
      }
      var document, failed := response.value, None;
      output, rows, bytes, failed, cut := WritePage(config, text, sink, document, output, rows, before);
      if Items(config, document).None? {
        WhyRefused(config, document, failed.value);
        return output, rows, bytes, Err(failed.value), pages, cut;
      }
      Answered(config, text, serve, pages, document);
      ChainAppend(config, text, serve, pages, document);
      pages := pages + [document];
      if failed.Some? {
        WhyStopped(text, sink, Records(config, pages)[rows], rows, output, cut, failed.value);
        return output, rows, bytes, Err(failed.value), pages, cut;
      }
      assert Records(config, pages)[..rows] == Records(config, pages);
      AskLast(config, text, pages);
      current := Cursor(config, text, document);
      if current.None? { return output, rows, bytes, Ok(()), pages, cut; }
    }
    assert Records(config, pages)[..rows] == Records(config, pages);
    AskLast(config, text, pages);
    return output, rows, bytes, Err(TooManyPages), pages, cut;
  }

  lemma {:induction false} NoPage(config: Config)
    ensures Refused(config, None, PageFailed)
  {
  }

  lemma {:induction false} WhyRefused(config: Config, document: Json, error: FetchError)
    requires Refused(config, Some(document), error)
    ensures error.RecordsPointer? || error.NotAnArray?
  {
  }

  lemma {:induction false} WhyStopped(text: Text, sink: Sink, record: Json, row: nat, output: string, cut: string, error: FetchError)
    requires Stopped(text, sink, record, row, output, cut, error)
    ensures error.TooMuch? || error.WriteFailed?
    ensures cut != "" ==> error.WriteFailed?
  {
  }

  lemma {:induction false} Answered(config: Config, text: Text, serve: Server, pages: seq<Json>, page: Json)
    requires serve(|pages|, Ask(config, text, pages)) == Some(page) && (pages != [] ==> Ask(config, text, pages).Some?)
    ensures if pages == [] then serve(0, None) == Some(page) else Follows(config, text, serve, |pages|, pages[|pages| - 1], page)
  {
  }

  lemma {:induction false} NoPages(config: Config, text: Text)
    ensures Records(config, []) == [] && Lines(text, []) == "" && Ask(config, text, []) == None
  {
  }

  lemma {:induction false} AskLast(config: Config, text: Text, pages: seq<Json>)
    requires pages != []
    ensures Ask(config, text, pages) == Cursor(config, text, pages[|pages| - 1])
    ensures Ask(config, text, pages).None? <==> Last(config, text, pages[|pages| - 1])
  {
    hide Evaluate, Cursor;
    CursorIs(config, text, pages[|pages| - 1]);
  }
}
