/**
 The demo configuration: a controller with page size 5 over the demo page
 source, driven sequentially (each fetch completes before the next trigger).
 */
module Demo {
  import opened Pagination
  import opened NetworkService

  /** The page size the demo's view model constructs its controller with. */
  const PageSize: nat := 5

  /** The demo page source answering a request. */
  function Serve(lines: seq<string>, req: Request): (r: Response<Item>)
    requires req.offset <= |lines|
    ensures r.total == |lines|
    ensures r.items == ItemsOf(lines)[req.offset .. Min(req.offset + req.size, |lines|)]
  {
    FetchItems(lines, req.offset, req.size)
  }

  /** The initial load started on an idle controller and completed
      successfully by the page source. */
  function InitialLoadDone(s: State<Item>, lines: seq<string>): (r: State<Item>)
    requires Idle(s)
    ensures r.pageSize == s.pageSize && Idle(r)
    ensures r.pages == 1 && r.total == |lines|
    ensures r.items == ItemsOf(lines)[.. Min(s.pageSize, |lines|)]
    ensures Consistent(s) ==> Consistent(r)
  {
    var t := StartFirstPage(s, InitialLoad);
    Complete(t.state, InitialLoad, Success(Serve(lines, t.fetch.value)))
  }

  /** Calls `loadNextPageIfNeeded()` and lets the page source complete the
      fetch it starts, until a call starts none. */
  function LoadRemaining(s: State<Item>, lines: seq<string>): (r: State<Item>)
    requires s.pageSize > 0 && s.total <= |lines|
    ensures r.pageSize == s.pageSize
    ensures LoadNextPageIfNeeded(r).fetch.None?
    ensures Consistent(s) ==> Consistent(r)
    decreases if s.pages * s.pageSize <= |lines| then |lines| - s.pages * s.pageSize else 0
  {
    var t := LoadNextPageIfNeeded(s);
    match t.fetch
    case None => s
    case Some(req) =>
      LoadRemaining(Complete(t.state, NextPage, Success(Serve(lines, req))), lines)
  }

  /** The loaded items are exactly the lines of the pages loaded so far, and
      the total is the source's. */
  ghost predicate Aligned(s: State<Item>, lines: seq<string>) {
    && s.total == |lines|
    && s.items == ItemsOf(lines)[.. Min(s.pages * s.pageSize, |lines|)]
    && Consistent(s)
  }

  /** Appending the page at `offset` to the items before it gives the items
      up to the end of that page. */
  lemma AppendPage(lines: seq<string>, offset: nat, size: nat)
    requires offset <= |lines|
    ensures ItemsOf(lines)[.. offset] + FetchItems(lines, offset, size).items
            == ItemsOf(lines)[.. Min(offset + size, |lines|)]
  {
  }

  /** One sequential next-page load keeps the items aligned with the lines
      and advances by exactly one page. */
  lemma NextPageKeepsAlignment(s: State<Item>, lines: seq<string>)
    requires s.pageSize > 0 && Aligned(s, lines) && TriggerPasses(s)
    ensures var t := LoadNextPageIfNeeded(s);
      && t.fetch.Some?
      && var r := Complete(t.state, NextPage, Success(Serve(lines, t.fetch.value)));
      && Aligned(r, lines) && r.pages == s.pages + 1
      && r.nextRunning == s.nextRunning && r.errors == s.errors
      && r.initialRunning == s.initialRunning && r.refreshRunning == s.refreshRunning
  {
    AppendPage(lines, s.pages * s.pageSize, s.pageSize);
  }

  /** Loading the remaining pages from an aligned state loads every line, and
      then no items remain. When items did remain, the pages end at the
      first page that reaches the end of the lines. */
  lemma {:induction false} LoadRemainingLoadsEverything(s: State<Item>, lines: seq<string>)
    requires s.pageSize > 0 && Aligned(s, lines) && !s.nextRunning && s.refreshRunning == 0
    ensures var r := LoadRemaining(s, lines);
      && r.items == ItemsOf(lines) && r.total == |lines|
      && !MorePages(r.pages, r.pageSize, r.total) && !r.indicator
      && !r.nextRunning && r.errors == s.errors
      && r.initialRunning == s.initialRunning && r.refreshRunning == s.refreshRunning
      && r.pages >= s.pages
      && (MorePages(s.pages, s.pageSize, |lines|) ==> r.pages > 0 && MorePages(r.pages - 1, r.pageSize, |lines|))
    decreases if s.pages * s.pageSize <= |lines| then |lines| - s.pages * s.pageSize else 0
  {
    if TriggerPasses(s) {
      var t := LoadNextPageIfNeeded(s);
      NextPageKeepsAlignment(s, lines);
      LoadRemainingLoadsEverything(Complete(t.state, NextPage, Success(Serve(lines, t.fetch.value))), lines);
    } else {
      assert Min(s.pages * s.pageSize, |lines|) == |lines|;
    }
  }

  /** A single first page served by the source is aligned with the lines. */
  lemma OnePageAligned(s: State<Item>, lines: seq<string>)
    requires s.pages == 1 && s.total == |lines| && Consistent(s)
    requires s.items == ItemsOf(lines)[.. Min(s.pageSize, |lines|)]
    ensures Aligned(s, lines)
  {
  }

  /** The demo's controller after its initial load. */
  function FirstPage(lines: seq<string>): (s: State<Item>) {
    InitialLoadDone(Init(PageSize), lines)
  }

  /** The demo's initial load leaves the first page aligned with the lines. */
  lemma FirstPageAligned(lines: seq<string>) returns (s: State<Item>)
    ensures s == FirstPage(lines)
    ensures Aligned(s, lines) && s.pageSize == PageSize && s.pages == 1 && Idle(s) && s.errors == []
  {
    var s0: State<Item> := Init(PageSize);
    s := InitialLoadDone(s0, lines);
    OnePageAligned(s, lines);
  }

  /** The demo run: the initial load, then next-page loads until a trigger
      is ignored. */
  function LoadAll(lines: seq<string>): (s: State<Item>) {
    LoadRemaining(FirstPage(lines), lines)
  }

  /** End to end: with page size 5, the initial load followed by next-page
      loads until a trigger is ignored leaves every line loaded, in order,
      the indicator off and no error reported. */
  lemma LoadEverything(lines: seq<string>)
    ensures var r := LoadAll(lines);
      && r.items == ItemsOf(lines)
      && !MorePages(r.pages, PageSize, r.total) && r.total == |lines|
      && !r.indicator && Idle(r) && r.errors == []
  {
    var s := FirstPageAligned(lines);
    LoadRemainingLoadsEverything(s, lines);
  }

  /** When the lines do not fit on the first page, the demo run stops at the
      first page that reaches the end of the lines. */
  lemma PageCount(lines: seq<string>)
    requires |lines| > PageSize
    ensures var r := LoadAll(lines);
      && r.pages > 0 && r.pageSize == PageSize && r.total == |lines|
      && MorePages(r.pages - 1, r.pageSize, r.total) && !MorePages(r.pages, r.pageSize, r.total)
  {
    var s1 := FirstPageAligned(lines);
    LoadRemainingLoadsEverything(s1, lines);
  }

  /** 24 items in pages of 5 need exactly five pages. Kept apart from the
      scenario lemmas so that the solver sees this arithmetic alone. */
  lemma PagesToCover(pages: nat, pageSize: nat, total: nat)
    requires pages > 0 && pageSize == 5 && total == 24
    requires MorePages(pages - 1, pageSize, total) && !MorePages(pages, pageSize, total)
    ensures pages == 5
  {
  }

  /** The demo's lyrics have 24 lines: the first page shows 5 of them with
      the indicator on. */
  lemma LyricsFirstPage(lines: seq<string>)
    requires |lines| == 24
    ensures var s1 := FirstPage(lines);
      && |s1.items| == 5 && s1.pages == 1 && s1.total == 24 && s1.indicator
  {
  }

  /** Sequential next-page loads after the first page take the 24 lines to
      exactly five pages. */
  lemma LyricsPageCount(lines: seq<string>)
    requires |lines| == 24
    ensures LoadAll(lines).pages == 5
  {
    PageCount(lines);
    var r := LoadAll(lines);
    PagesToCover(r.pages, r.pageSize, r.total);
  }

  /** Sequential next-page loads after the first page bring all 24 lines in
      five pages with the indicator off; a further trigger changes nothing. */
  lemma LyricsAllPages(lines: seq<string>)
    requires |lines| == 24
    ensures var s5 := LoadAll(lines);
      && s5.pages == 5 && s5.items == ItemsOf(lines) && !s5.indicator
      && LoadNextPageIfNeeded(s5) == Transition(s5, None)
  {
    LyricsPageCount(lines);
    var s1 := FirstPageAligned(lines);
    LoadRemainingLoadsEverything(s1, lines);
  }
}
