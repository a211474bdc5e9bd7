/**
 The controller together with the fetches it has started and that have not
 completed yet, served by the demo page source. Any interleaving of commands
 (start an operation) and deliveries (the page source completes one of the
 fetches in flight, in any order, with a value or an error) is a run of this
 system.
 */
module Interleaving {
  import opened Pagination
  import opened NetworkService

  /** A fetch in flight: the operation that started it and its request. */
  datatype InFlight = InFlight(op: Op, request: Request)

  datatype System = System(ctrl: State<Item>, inFlight: seq<InFlight>)

  datatype SystemEvent = Command(op: Op) | Deliver(index: nat, succeeds: bool)

  /** The number of fetches in flight that `op` started. */
  function CountOp(fs: seq<InFlight>, op: Op): (n: nat)
    decreases |fs|
  {
    if fs == [] then 0 else (if fs[0].op == op then 1 else 0) + CountOp(fs[1..], op)
  }

  lemma {:induction false} CountAppend(fs: seq<InFlight>, f: InFlight, op: Op)
    ensures CountOp(fs + [f], op) == CountOp(fs, op) + (if f.op == op then 1 else 0)
    decreases |fs|
  {
    if fs == [] {
      assert fs + [f] == [f];
      assert [f][1..] == [];
    } else {
      assert (fs + [f])[1..] == fs[1..] + [f];
      CountAppend(fs[1..], f, op);
    }
  }

  lemma {:induction false} CountRemove(fs: seq<InFlight>, i: nat, op: Op)
    requires i < |fs|
    ensures CountOp(fs[..i] + fs[i + 1..], op) + (if fs[i].op == op then 1 else 0)
            == CountOp(fs, op)
    decreases i
  {
    if i == 0 {
      assert fs[..0] + fs[1..] == fs[1..];
    } else {
      var rest := fs[1..];
      CountRemove(rest, i - 1, op);
      var removed := fs[..i] + fs[i + 1..];
      assert removed[0] == fs[0];
      assert removed[1..] == rest[..i - 1] + rest[i..];
    }
  }

  /** The invariant of every reachable system: the total never exceeds the
      number of lines, every request in flight is one the page source can
      answer, and the controller's in-flight counters match the fetches
      actually in flight. */
  predicate Valid(lines: seq<string>, sys: System) {
    && sys.ctrl.total <= |lines|
    && Consistent(sys.ctrl)
    && (forall k :: 0 <= k < |sys.inFlight| ==> sys.inFlight[k].request.offset <= |lines|)
    && CountOp(sys.inFlight, InitialLoad) == sys.ctrl.initialRunning
    && CountOp(sys.inFlight, Refresh) == sys.ctrl.refreshRunning
    && CountOp(sys.inFlight, NextPage) == (if sys.ctrl.nextRunning then 1 else 0)
  }

  /** A freshly constructed controller with nothing in flight. */
  function Initial(lines: seq<string>, pageSize: nat): (sys: System)
    ensures Valid(lines, sys)
    ensures sys.inFlight == [] && sys.ctrl.pageSize == pageSize
  {
    System(Init(pageSize), [])
  }

  /** Starting `op`: the fetch it starts, if any, joins those in flight. */
  function Launch(lines: seq<string>, sys: System, op: Op): (r: System)
    requires Valid(lines, sys)
    ensures Valid(lines, r)
    ensures r.ctrl.pageSize == sys.ctrl.pageSize
    ensures op == NextPage && (sys.ctrl.nextRunning || sys.ctrl.refreshRunning > 0) ==> r == sys
    ensures op == NextPage ==> CountOp(r.inFlight, NextPage) <= 1
    ensures op != NextPage ==>
      r.inFlight == sys.inFlight + [InFlight(op, Request(0, sys.ctrl.pageSize))]
  {
    var t := if op == NextPage then LoadNextPageIfNeeded(sys.ctrl) else StartFirstPage(sys.ctrl, op);
    match t.fetch
    case None => System(t.state, sys.inFlight)
    case Some(req) =>
      var f := InFlight(op, req);
      CountAppend(sys.inFlight, f, InitialLoad);
      CountAppend(sys.inFlight, f, Refresh);
      CountAppend(sys.inFlight, f, NextPage);
      System(t.state, sys.inFlight + [f])
  }

  /** The page source completes the fetch at `index`; the demo source serves
      every request it is given. */
  function Land(lines: seq<string>, sys: System, index: nat, succeeds: bool): (r: System)
    requires Valid(lines, sys)
    ensures Valid(lines, r)
    ensures r.ctrl.pageSize == sys.ctrl.pageSize
    ensures index < |sys.inFlight| ==> |r.inFlight| == |sys.inFlight| - 1
    ensures index < |sys.inFlight| && !succeeds ==> SameData(r.ctrl, sys.ctrl)
  {
    if index >= |sys.inFlight| then sys
    else
      var f := sys.inFlight[index];
      var outcome := if succeeds then Success(FetchItems(lines, f.request.offset, f.request.size))
                     else Failure;
      CountRemove(sys.inFlight, index, InitialLoad);
      CountRemove(sys.inFlight, index, Refresh);
      CountRemove(sys.inFlight, index, NextPage);
      System(Complete(sys.ctrl, f.op, outcome), sys.inFlight[..index] + sys.inFlight[index + 1..])
  }

  function SystemStep(lines: seq<string>, sys: System, e: SystemEvent): (r: System)
    requires Valid(lines, sys)
    ensures Valid(lines, r)
    ensures r.ctrl.pageSize == sys.ctrl.pageSize
  {
    match e
    case Command(op) => Launch(lines, sys, op)
    case Deliver(index, succeeds) => Land(lines, sys, index, succeeds)
  }

  /** Any interleaving keeps the invariant: at most one next-page fetch is
      ever in flight, and no request reaches the page source with an offset
      past the end of its lines. */
  function SystemRun(lines: seq<string>, sys: System, events: seq<SystemEvent>): (r: System)
    requires Valid(lines, sys)
    ensures Valid(lines, r)
    ensures CountOp(r.inFlight, NextPage) <= 1
    ensures forall k :: 0 <= k < |r.inFlight| ==> r.inFlight[k].request.offset <= |lines|
    decreases |events|
  {
    if events == [] then sys
    else SystemRun(lines, SystemStep(lines, sys, events[0]), events[1..])
  }
}
