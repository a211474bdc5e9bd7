# Stapler pagination, modelled in Dafny

Stapler keeps a paginated list that comes from a server. It tracks the items
loaded so far, the number of pages loaded and the total the server reports.
It has three operations:

- the initial load and a refresh, which both fetch page one and replace
  everything;
- a next-page load, which fetches the page after the loaded ones and appends
  it.

A filter guards the next-page operation. It drops a "load next page" request
while a refresh or a next page is executing, and when no items remain. The
derived `shouldShowNextPageActivityIndicator` is true while more items exist
than the loaded pages cover.

The model has four modules, one per file:

- `Pagination` (`pagination.dfy`) models `Sources/Stapler.swift`. The
  controller is an immutable `State` record. Each asynchronous step is a pure
  transition: starting an operation (`StartFirstPage`,
  `LoadNextPageIfNeeded`) or completing its fetch with a value or an error
  (`Complete`). Concurrency is the interleaving of these events. The
  initial-load and refresh in-flight status is a counter, because the
  controller's own code puts no guard on them. The next-page status is a flag,
  because the filter keeps it single-flight. The indicator is a field that is
  recomputed whenever pages or total change. The error channels are a log of
  which operation each failure was reported on.
- `NetworkService` (`network_service.dfy`) models the demo page source,
  `NetworkService.items(offset:size:)`. The lyric lines are a parameter. The
  page source is a Dafny function, so the same arguments always give the same
  response.
- `Demo` (`demo.dfy`) uses the demo's page size of 5 and drives the controller
  sequentially: every fetch completes before the next trigger. It proves the
  "load everything" scenario. The lyric literal (NetworkService.swift:27-50)
  has 24 lines, so the scenario has 24 items in five pages.
- `Interleaving` (`interleaving.dfy`) puts the controller together with its
  fetches in flight. Commands and page-source deliveries interleave in any
  order. The invariant says:
  - the in-flight counters match the fetches actually in flight;
  - at most one next-page fetch is ever in flight;
  - no request passes the page source an offset past the end of its lines,
    which would make the range construction trap.

The race the code permits is kept, not fixed. A refresh is not blocked by a
next page in flight, so a late next page is appended after a fresh first page
(`RefreshOvertakesNextPage`).

## Model

| member | source | states |
|---|---|---|
| Pagination.Init | Sources/Stapler.swift:100-102 | a new controller has no items, zero pages, a zero total, the indicator off, nothing executing and no error |
| Pagination.StartFirstPage | Sources/Stapler.swift:104-122 | initial load and refresh request offset 0 with the page size and mark their own operation executing; nothing else changes, so overlapping runs are allowed |
| Pagination.NextPageRequest | Sources/Stapler.swift:124-128 | the next-page action fetches nothing exactly when pages * pageSize >= total; otherwise it requests offset pages * pageSize (below the total) with the page size |
| Pagination.LoadNextPageIfNeeded | Sources/Stapler.swift:147-155 | a trigger starts a fetch if and only if no refresh is executing, no next page is executing and total > pages * pageSize (the initial load is not consulted); the fetch is for offset pages * pageSize; a rejected trigger changes nothing and reports no error |
| Pagination.Complete | Sources/Stapler.swift:104-135 | a first-page value sets pages to 1 and replaces items and total; a next-page value keeps the old items as a prefix, appends the response items, overwrites total and adds exactly one page; a failure keeps items, pages, total and indicator and reports one error on that operation's channel; the indicator is recomputed from the new counters |
| Pagination.Step | Sources/Stapler.swift:104-157 | every event keeps the page size and the indicator consistent; only start events start fetches; a failed completion leaves items, pages and total unchanged |
| Pagination.Run | Sources/Stapler.swift:137-138 | after any sequence of events the indicator still equals pages * pageSize < total; the error log only grows; each event starts at most one fetch |
| Pagination.RejectedTriggers | Sources/Stapler.swift:73-82 | while a next page or refresh is in flight, or once no items remain, any number of triggers start no fetch and leave the state unchanged |
| Pagination.BurstStartsOneFetch | Sources/Stapler.swift:147-155 | a burst of n >= 1 triggers on an eligible state starts exactly one fetch, for offset pages * pageSize |
| Pagination.NoValueNoChange | Sources/Stapler.swift:104-135 | any sequence of starts and failed completions leaves items, pages and total as they were |
| Pagination.RefreshOvertakesNextPage | Sources/Stapler.swift:114-133 | a refresh can start while a next page is in flight; if it completes first, the late next page (requested at the old offset) is appended right after the first page and pages becomes 2 |
| NetworkService.FetchItems | StaplerDemo/NetworkService.swift:53-56 | for offset <= number of lines: the response total is the number of lines; the items are the slice of lines from offset to min(offset + size, total); there are at most size of them, exactly size when offset + size <= total, and they reach the end of the lines otherwise |
| Demo.Serve | StaplerDemo/ViewModel.swift:6-9 | the demo controller's request closure answers with the demo source's slice for the requested offset and size |
| Demo.InitialLoadDone | Sources/Stapler.swift:104-110 | a successful initial load leaves one page, the source's total and the first min(pageSize, total) lines as items |
| Demo.LoadRemaining | Sources/Stapler.swift:147-155 | triggering and completing next pages until a trigger is ignored ends in a state where the next trigger starts no fetch |
| Demo.AppendPage | StaplerDemo/NetworkService.swift:55 | the items before offset followed by the page served at offset are the items up to the end of that page |
| Demo.NextPageKeepsAlignment | Sources/Stapler.swift:124-133 | on a state whose items are exactly the lines of its pages, one sequential next-page load adds one page and keeps items equal to the lines of the pages loaded |
| Demo.LoadRemainingLoadsEverything | Sources/Stapler.swift:124-138 | from an aligned state, loading the remaining pages yields every line in order, no more pages, the indicator off and no new error; when items remained, it stops at the first page that reaches the end |
| Demo.FirstPageAligned | StaplerDemo/ViewModel.swift:6-9 | the demo's initial load with page size 5 leaves one page aligned with the lines, nothing executing and no error |
| Demo.LoadEverything | StaplerDemo/ViewModel.swift:6-9 | with page size 5, the initial load then next pages until a trigger is a no-op gives items equal to the lines, pages * 5 >= total, the indicator off, nothing executing and no error |
| Demo.PageCount | Sources/Stapler.swift:124-138 | with page size 5 and more lines than one page, the demo run ends at the first page count whose pages reach the end of the lines: one page fewer would still leave items |
| Demo.LyricsFirstPage | StaplerDemo/NetworkService.swift:26-56 | for the 24 lyric lines, the first page holds 5 items, total 24, with the indicator on |
| Demo.LyricsPageCount | StaplerDemo/NetworkService.swift:26-56 | loading all 24 lyric lines in pages of 5 takes exactly five pages |
| Demo.LyricsAllPages | StaplerDemo/NetworkService.swift:26-56 | after the sequential loads the 24 lines are all loaded in five pages, the indicator is off, and a further trigger is a no-op |
| Interleaving.Initial | Sources/Stapler.swift:100-102 | the new controller with nothing in flight satisfies the system invariant |
| Interleaving.Launch | Sources/Stapler.swift:147-155 | starting an operation keeps the invariant; a next-page start while a next page or refresh is in flight changes nothing; at most one next-page fetch is in flight afterwards; a first-page start adds a fetch for offset 0 |
| Interleaving.Land | StaplerDemo/NetworkService.swift:55 | delivering any fetch in flight, in any order, keeps the invariant: every requested offset is within the lines, so the page source never traps; a failed delivery keeps items, pages and total |
| Interleaving.SystemStep | Sources/Stapler.swift:104-157 | every command or delivery preserves the system invariant |
| Interleaving.SystemRun | Sources/Stapler.swift:147-154 | in every interleaving at most one next-page fetch is in flight and every fetch in flight has an offset within the lines |

## Left out

- ReactiveSwift and ReactiveCocoa plumbing is not modelled: `Signal.pipe`, `MutableProperty` observer notification, `combineLatest`, `take(duringLifetimeOf:)` and the wiring of the `errors` streams. Error channels are one log of operation names.
- The error value of a failure is not modelled. The controller only routes it and never reads it.
- Each completion is one atomic transition. The observable intermediate states between the three property writes in a completion handler are not modelled.
- A request producer is assumed to send exactly one value or one error. A producer that sends several values, each applied in turn, is not modelled.
- The `Action` behaviour when `apply()` is called while the action is already executing is defined in ReactiveSwift, outside this repository. Letting a first-page action overlap itself over-approximates it; an initial load and a refresh, being separate actions, can genuinely overlap.
- A completion for an operation with nothing in flight cannot happen. The controller model ignores it, and `Interleaving` never produces one.
- Threads, schedulers and the demo's 0.5 s delay are not modelled. Interleaving of discrete events stands in for them.
- `UInt` arithmetic is modelled with unbounded naturals. The overflow trap in `pages * pageSize` and in `offset + size` is not modelled.
- The parsing of the multiline lyric literal is not modelled. The lines are an abstract `seq<string>`, and the scenario lemmas only use their count, 24.
- `StaplerDemo/ViewController.swift` (UIKit bindings and table-view callbacks) is not part of this model.
- The page size may be 0, as the source allows. Only the sequential "load everything" driver needs a positive page size, because it must terminate.
