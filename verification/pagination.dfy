/**
 The pagination controller ("Stapler"): the accumulated items, the number of
 pages loaded and the server's total, three operations that fetch pages
 (initial load, refresh, next page) and the filter that decides whether a
 "load next page" request starts a fetch.

 Every asynchronous step becomes a discrete event: starting an operation, and
 the completion of its fetch with a response or with an error. Each event is a
 pure transition of an immutable state record, so concurrency is modelled as
 the interleaving of such events.
 */
module Pagination {

  datatype Option<T> = None | Some(value: T)

  /** A paginated server response: a batch of items and the total number of
      items the server reports. */
  datatype Response<T> = Response(items: seq<T>, total: nat)

  /** The arguments passed to the page source. */
  datatype Request = Request(offset: nat, size: nat)

  datatype Op = InitialLoad | Refresh | NextPage

  /** How a fetch ends: with a value, or with an error (its payload is not
      interpreted by the controller, only routed). */
  datatype Outcome<T> = Success(response: Response<T>) | Failure

  datatype Event<T> = Start(op: Op) | Finish(op: Op, outcome: Outcome<T>)

  /** The controller's state. `indicator` is the cached value of
      `shouldShowNextPageActivityIndicator`; `initialRunning` and
      `refreshRunning` count the fetches in flight for the two first-page
      operations (the controller's own code puts no guard on them), `nextRunning` is the
      next-page operation's `isExecuting`. `errors` records, in order, the
      operation whose error channel each failure was sent on. */
  datatype State<T> = State(
    pageSize: nat,
    items: seq<T>,
    pages: nat,
    total: nat,
    indicator: bool,
    initialRunning: nat,
    refreshRunning: nat,
    nextRunning: bool,
    errors: seq<Op>)

  /** The state after an event, and the fetch the event started, if any. */
  datatype Transition<T> = Transition(state: State<T>, fetch: Option<Request>)

  /** More items remain on the server beyond the pages loaded. */
  predicate MorePages(pages: nat, pageSize: nat, total: nat) {
    pages * pageSize < total
  }

  /** The cached indicator agrees with the counters it is derived from. */
  predicate Consistent<T>(s: State<T>) {
    s.indicator == MorePages(s.pages, s.pageSize, s.total)
  }

  predicate Idle<T>(s: State<T>) {
    s.initialRunning == 0 && s.refreshRunning == 0 && !s.nextRunning
  }

  predicate Executing<T>(s: State<T>, op: Op) {
    match op
    case InitialLoad => s.initialRunning > 0
    case Refresh => s.refreshRunning > 0
    case NextPage => s.nextRunning
  }

  /** items, pages and total are the same in both states. */
  ghost predicate SameData<T>(a: State<T>, b: State<T>) {
    a.items == b.items && a.pages == b.pages && a.total == b.total
  }

  /** The freshly constructed controller. */
  function Init<T>(pageSize: nat): (s: State<T>)
    ensures s.pageSize == pageSize
    ensures s.items == [] && s.pages == 0 && s.total == 0
    ensures !s.indicator && Consistent(s)
    ensures Idle(s) && s.errors == []
  {
    State(pageSize, [], 0, 0, MorePages(0, pageSize, 0), 0, 0, false, [])
  }

  /** Starting the initial load or a refresh: both request the first page and
      mark their own operation as executing, whatever else is in flight. */
  function StartFirstPage<T>(s: State<T>, op: Op): (t: Transition<T>)
    requires op != NextPage
    ensures t.fetch == Some(Request(0, s.pageSize))
    ensures Executing(t.state, op)
    ensures op == InitialLoad ==> t.state == s.(initialRunning := s.initialRunning + 1)
    ensures op == Refresh ==> t.state == s.(refreshRunning := s.refreshRunning + 1)
  {
    var s' := if op == InitialLoad then s.(initialRunning := s.initialRunning + 1)
              else s.(refreshRunning := s.refreshRunning + 1);
    Transition(s', Some(Request(0, s.pageSize)))
  }

  /** The body of the next-page action, evaluated when it is applied: it
      requests the page that starts right after the pages loaded, or produces
      nothing (no fetch, no error) when no items remain. */
  function NextPageRequest<T>(s: State<T>): (r: Option<Request>)
    ensures r.None? <==> s.total <= s.pages * s.pageSize
    ensures r.Some? ==> r.value.offset == s.pages * s.pageSize && r.value.size == s.pageSize
    ensures r.Some? ==> r.value.offset < s.total
  {
    if MorePages(s.pages, s.pageSize, s.total) then
      Some(Request(s.pages * s.pageSize, s.pageSize))
    else
      None
  }

  /** The filter in front of the next-page action. Whether the initial load is
      executing is deliberately not consulted. */
  predicate TriggerPasses<T>(s: State<T>) {
    s.refreshRunning == 0 && !s.nextRunning && s.total > s.pages * s.pageSize
  }

  /** `loadNextPageIfNeeded()`: the filter and the action's start happen in
      one step, so a second trigger already sees the next page executing. */
  function LoadNextPageIfNeeded<T>(s: State<T>): (t: Transition<T>)
    ensures t.fetch.Some? <==>
      (s.refreshRunning == 0 && !s.nextRunning && s.pages * s.pageSize < s.total)
    ensures t.fetch.Some? ==>
      t.fetch.value == Request(s.pages * s.pageSize, s.pageSize)
      && t.fetch.value.offset < s.total
      && t.state == s.(nextRunning := true)
    ensures t.fetch.None? ==> t.state == s
  {
    if TriggerPasses(s) then
      match NextPageRequest(s)
      case Some(req) => Transition(s.(nextRunning := true), Some(req))
      case None => Transition(s, None)
    else
      Transition(s, None)
  }

  /** The operation `op` is no longer executing one of its fetches. */
  function Done<T>(s: State<T>, op: Op): (r: State<T>)
    requires Executing(s, op)
  {
    match op
    case InitialLoad => s.(initialRunning := s.initialRunning - 1)
    case Refresh => s.(refreshRunning := s.refreshRunning - 1)
    case NextPage => s.(nextRunning := false)
  }

  /** The completion of a fetch started by `op`. Data changes only on a value:
      a first page replaces everything loaded before, a next page is appended.
      The server's total always overrides the previous one, and the indicator
      is recomputed from the new counters. A failure only reaches the
      operation's error channel. A completion for an operation with nothing in
      flight cannot be delivered; it is ignored. */
  function Complete<T>(s: State<T>, op: Op, outcome: Outcome<T>): (r: State<T>)
    ensures r.pageSize == s.pageSize
    ensures !Executing(s, op) ==> r == s
    ensures Executing(s, op) && outcome.Failure? ==>
      SameData(r, s) && r.indicator == s.indicator && r.errors == s.errors + [op]
    ensures Executing(s, op) && outcome.Success? && op != NextPage ==>
      r.pages == 1 && r.items == outcome.response.items
      && r.total == outcome.response.total && r.errors == s.errors
    ensures Executing(s, op) && outcome.Success? && op == NextPage ==>
      s.items <= r.items && r.items[|s.items|..] == outcome.response.items
      && r.pages == s.pages + 1 && r.total == outcome.response.total && r.errors == s.errors
    ensures Executing(s, op) && outcome.Success? ==>
      r.indicator == (r.pages * r.pageSize < r.total)
    ensures Consistent(s) ==> Consistent(r)
    ensures Executing(s, op) ==>
      r.initialRunning == s.initialRunning - (if op == InitialLoad then 1 else 0)
      && r.refreshRunning == s.refreshRunning - (if op == Refresh then 1 else 0)
      && r.nextRunning == (s.nextRunning && op != NextPage)
  {
    if !Executing(s, op) then s
    else
      var s' := Done(s, op);
      match outcome
      case Failure => s'.(errors := s.errors + [op])
      case Success(response) =>
        var items := if op == NextPage then s.items + response.items else response.items;
        var pages := if op == NextPage then s.pages + 1 else 1;
        s'.(items := items, pages := pages, total := response.total,
            indicator := MorePages(pages, s.pageSize, response.total))
  }

  /** One event. */
  function Step<T>(s: State<T>, e: Event<T>): (t: Transition<T>)
    ensures t.state.pageSize == s.pageSize
    ensures Consistent(s) ==> Consistent(t.state)
    ensures t.fetch.Some? ==> e.Start?
    ensures e.Finish? && e.outcome.Failure? ==> SameData(t.state, s)
  {
    match e
    case Start(op) =>
      if op == NextPage then LoadNextPageIfNeeded(s) else StartFirstPage(s, op)
    case Finish(op, outcome) =>
      Transition(Complete(s, op, outcome), None)
  }

  function FetchList(f: Option<Request>): (rs: seq<Request>) {
    match f
    case None => []
    case Some(r) => [r]
  }

  /** A sequence of events, with the fetches they start, in order. */
  function Run<T>(s: State<T>, events: seq<Event<T>>): (r: (State<T>, seq<Request>))
    ensures r.0.pageSize == s.pageSize
    ensures Consistent(s) ==> Consistent(r.0)
    ensures s.errors <= r.0.errors
    ensures |r.1| <= |events|
    decreases |events|
  {
    if events == [] then (s, [])
    else
      var t := Step(s, events[0]);
      var rest := Run(t.state, events[1..]);
      (rest.0, FetchList(t.fetch) + rest.1)
  }

  /** `n` calls of `loadNextPageIfNeeded()` in a row. */
  function Triggers<T>(n: nat): (evs: seq<Event<T>>)
    ensures |evs| == n
    ensures forall i :: 0 <= i < n ==> evs[i] == Start(NextPage)
  {
    seq(n, _ => Start(NextPage))
  }

  /** A trigger the filter rejects leaves the state as it is, so every
      further trigger is rejected too: while a next page is in flight, while a
      refresh is in flight, or once no items remain, any number of triggers
      start no fetch and report no error. */
  lemma {:induction false} RejectedTriggers<T>(s: State<T>, n: nat)
    requires s.nextRunning || s.refreshRunning > 0 || s.total <= s.pages * s.pageSize
    ensures Run(s, Triggers<T>(n)) == (s, [])
  {
    if n > 0 {
      var evs := Triggers<T>(n);
      assert evs[1..] == Triggers<T>(n - 1);
      RejectedTriggers(s, n - 1);
    }
  }

  /** A burst of triggers starts exactly one next-page fetch, for the page
      right after those loaded. */
  lemma {:induction false} BurstStartsOneFetch<T>(s: State<T>, n: nat)
    requires n > 0 && TriggerPasses(s)
    ensures Run(s, Triggers<T>(n)) ==
      (s.(nextRunning := true), [Request(s.pages * s.pageSize, s.pageSize)])
  {
    var evs := Triggers<T>(n);
    var t := Step(s, evs[0]);
    assert t == Transition(s.(nextRunning := true), Some(Request(s.pages * s.pageSize, s.pageSize)));
    assert evs[1..] == Triggers<T>(n - 1);
    RejectedTriggers(t.state, n - 1);
    assert Run(t.state, evs[1..]) == (t.state, []);
    assert FetchList(t.fetch) + [] == [Request(s.pages * s.pageSize, s.pageSize)];
  }

  /** Events that bring no value (starts, failures) never change items,
      pages or total. */
  lemma {:induction false} NoValueNoChange<T>(s: State<T>, events: seq<Event<T>>)
    requires forall i :: 0 <= i < |events| ==> !(events[i].Finish? && events[i].outcome.Success?)
    ensures SameData(Run(s, events).0, s)
    decreases |events|
  {
    if events != [] {
      var t := Step(s, events[0]);
      assert SameData(t.state, s);
      NoValueNoChange(t.state, events[1..]);
    }
  }

  /** The race the controller permits: the next-page filter does not stop a
      refresh, so a refresh that completes while a next page is in flight
      resets the items to the first page, and the late next page, requested
      at the old offset, is then appended right after it. */
  lemma RefreshOvertakesNextPage<T>(s: State<T>, first: Response<T>, late: Response<T>)
    requires TriggerPasses(s)
    ensures
      var a := LoadNextPageIfNeeded(s);
      var b := StartFirstPage(a.state, Refresh);
      var c := Complete(b.state, Refresh, Success(first));
      var d := Complete(c, NextPage, Success(late));
      && a.fetch == Some(Request(s.pages * s.pageSize, s.pageSize))
      && b.fetch == Some(Request(0, s.pageSize))
      && d.pages == 2 && d.items == first.items + late.items && d.total == late.total
  {
  }
}
