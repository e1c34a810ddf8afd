/**
 The sliding window over one resource's page chain: pages are fetched in order, processed by
 concurrent children that end in any order, and a run ends by returning or by continuing as new.
 */
module ResourcePages {
  import opened Collections

  // ---- the provider's page chain ----

  /** Page 0 is fetched without a cursor, page i + 1 with `marks[i]`; the last page has no next cursor. */
  datatype Provider = Provider(marks: seq<Key>)

  type Cursor = Option<Key>

  function PageCount(p: Provider): nat {
    |p.marks| + 1
  }

  function CursorAt(p: Provider, i: nat): Cursor
    requires i < PageCount(p)
  {
    if i == 0 then None else Some(p.marks[i - 1])
  }

  function NextCursor(p: Provider, i: nat): Cursor
    requires i < PageCount(p)
  {
    if i < |p.marks| then Some(p.marks[i]) else None
  }

  predicate KnownCursor(p: Provider, c: Cursor) {
    c.None? || c.value in p.marks
  }

  function PositionOf(p: Provider, c: Cursor): (i: nat)
    requires KnownCursor(p, c)
    ensures i < PageCount(p) && CursorAt(p, i) == c
  {
    if c.None? then 0 else IndexOf(p.marks, c.value) + 1
  }

  lemma PositionIsUnique(p: Provider, i: nat)
    requires i < PageCount(p) && Distinct(p.marks)
    ensures KnownCursor(p, CursorAt(p, i)) && PositionOf(p, CursorAt(p, i)) == i
  {
    DistinctIndices(p.marks);
  }

  // ---- commands, results and what a run did ----

  datatype PagesCommand = PagesCommand(
    cursor: Cursor, attempt: nat, maxPages: Option<int>, completed: nat, priorErrors: nat, window: int)

  datatype SyncResult = SyncResult(cursor: Cursor, finished: bool, completed: int, errorCount: nat, partial: bool)

  /** A page whose child has ended failed exactly when the child raised or reported errors. */
  datatype PageStatus = InFlight | Ended(errors: nat)

  /** The permit request for one fetch of the page at `position`. */
  datatype Request = Request(position: nat, attempt: nat)

  /** `pages[i]` is the page at the run's start position plus i. */
  datatype Trace = Trace(pages: seq<PageStatus>, requests: seq<Request>)

  datatype Fault = FetchFailed | ChildStartFailed

  /** Raised: the workflow fails without draining. */
  datatype Outcome = Return(result: SyncResult) | ContinueAsNew(command: PagesCommand) | Raised(fault: Fault)

  function FailedPages(pages: seq<PageStatus>): set<nat> {
    set i: nat | i < |pages| && pages[i].Ended? && pages[i].errors > 0
  }

  /** All errors of the pages' children. */
  function ErrorsOfPages(pages: seq<PageStatus>): nat {
    if pages == [] then 0
    else
      var last := pages[|pages| - 1];
      ErrorsOfPages(pages[..|pages| - 1]) + (if last.Ended? then last.errors else 0)
  }

  lemma {:induction false} EndingAddsErrors(pages: seq<PageStatus>, i: nat, errors: nat)
    requires i < |pages| && pages[i].InFlight?
    ensures ErrorsOfPages(pages[i := Ended(errors)]) == ErrorsOfPages(pages) + errors
  {
    var n := |pages| - 1;
    if i < n {
      EndingAddsErrors(pages[..n], i, errors);
      assert pages[i := Ended(errors)][..n] == pages[..n][i := Ended(errors)];
    } else {
      assert pages[i := Ended(errors)][..n] == pages[..n];
    }
  }

  lemma {:induction false} ErrorsJoin(a: seq<PageStatus>, b: seq<PageStatus>)
    ensures ErrorsOfPages(a + b) == ErrorsOfPages(a) + ErrorsOfPages(b)
  {
    if b == [] {
      assert a + b == a;
    } else {
      var n := |b| - 1;
      assert (a + b)[..|a + b| - 1] == a + b[..n];
      ErrorsJoin(a, b[..n]);
    }
  }

  lemma {:induction false} ErrorsMeanFailure(pages: seq<PageStatus>)
    ensures ErrorsOfPages(pages) > 0 <==> FailedPages(pages) != {}
  {
    if pages != [] {
      var n := |pages| - 1;
      ErrorsMeanFailure(pages[..n]);
      if FailedPages(pages[..n]) != {} {
        var i :| i in FailedPages(pages[..n]);
        assert i in FailedPages(pages);
      } else if pages[n].Ended? && pages[n].errors > 0 {
        assert n in FailedPages(pages);
      } else {
        forall i | i in FailedPages(pages) ensures i in FailedPages(pages[..n]) {
        }
      }
    }
  }

  predicate Before(a: Request, b: Request) {
    a.position < b.position || (a.position == b.position && a.attempt < b.attempt)
  }

  /** Requests in strictly increasing order, from `lo` on and before `hi`. */
  ghost predicate Ascending(rs: seq<Request>, lo: Request, hi: Request) {
    && (forall i, j :: 0 <= i < j < |rs| ==> Before(rs[i], rs[j]))
    && (forall i :: 0 <= i < |rs| ==> !Before(rs[i], lo) && Before(rs[i], hi))
  }

  lemma AscendingAppend(rs: seq<Request>, more: seq<Request>, lo: Request, mid: Request, hi: Request)
    requires Ascending(rs, lo, mid) && Ascending(more, mid, hi) && !Before(mid, lo) && !Before(hi, mid)
    ensures Ascending(rs + more, lo, hi)
  {
  }

  predicate BudgetSpent(command: PagesCommand, started: nat) {
    command.maxPages.Some? && command.completed + started >= command.maxPages.value
  }

  // ---- the specification of a run ----

  predicate ValidCommand(p: Provider, command: PagesCommand) {
    KnownCursor(p, command.cursor)
  }

  ghost predicate RequestsWithin(p: Provider, rs: seq<Request>) {
    forall r :: r in rs ==> r.position < PageCount(p)
  }

  /** What holds of every run that ends without raising. */
  ghost predicate TraceOk(p: Provider, command: PagesCommand, t: Trace, limit: Request)
    requires ValidCommand(p, command)
  {
    var start := PositionOf(p, command.cursor);
    && start + |t.pages| <= PageCount(p)
    && (forall i :: 0 <= i < |t.pages| ==> t.pages[i] != InFlight)
    && (command.maxPages.Some? ==> t.pages == [] || command.completed + |t.pages| <= command.maxPages.value)
    && Ascending(t.requests, Request(start, command.attempt), limit)
    && !Before(limit, Request(start, command.attempt))
    && RequestsWithin(p, t.requests)
  }

  /** The cursor and the flag of a returned result. */
  ghost predicate CheckpointOk(p: Provider, command: PagesCommand, t: Trace, r: SyncResult)
    requires ValidCommand(p, command) && PositionOf(p, command.cursor) + |t.pages| <= PageCount(p)
  {
    var start := PositionOf(p, command.cursor);
    if FailedPages(t.pages) == {} then
      && r.cursor == (if start + |t.pages| < PageCount(p) then CursorAt(p, start + |t.pages|) else None)
      && (r.finished <==> r.cursor.None?)
      && ((t.pages != [] && start + |t.pages| == PageCount(p)) || BudgetSpent(command, |t.pages|))
    else
      && !r.finished
      && exists f :: IsLeast(f, FailedPages(t.pages)) && r.cursor == CursorAt(p, start + f)
  }

  ghost predicate RunOk(p: Provider, command: PagesCommand, outcome: Outcome, t: Trace) {
    ValidCommand(p, command) &&
    match outcome
    case Raised(_) =>
      // Only fetching raises, and only before any page has failed.
      && t.requests != [] && FailedPages(t.pages) == {}
      && Ascending(t.requests, Request(PositionOf(p, command.cursor), command.attempt), Request(PageCount(p), 0))
      && RequestsWithin(p, t.requests)
    case Return(r) =>
      && TraceOk(p, command, t, Request(PositionOf(p, command.cursor) + |t.pages| + 1, 0))
      && CheckpointOk(p, command, t, r)
      && r.completed == command.completed + |t.pages| - |FailedPages(t.pages)|
      && r.errorCount == command.priorErrors + ErrorsOfPages(t.pages)
      && (r.partial <==> r.errorCount > 0)
    case ContinueAsNew(c) =>
      && TraceOk(p, command, t, Request(PositionOf(p, command.cursor) + |t.pages|, c.attempt))
      && FailedPages(t.pages) == {}
      && PositionOf(p, command.cursor) + |t.pages| < PageCount(p)
      && c == command.(cursor := CursorAt(p, PositionOf(p, command.cursor) + |t.pages|),
                       attempt := c.attempt, completed := command.completed + |t.pages|)
  }

  // ---- the loop ----

  /** The local variables of the run loop. */
  datatype PageLoop = PageLoop(
    cursor: Cursor, attempt: nat, mayFetch: bool, stop: bool,
    pending: map<nat, Cursor>, failures: map<nat, Cursor>, errors: nat, trace: Trace)

  /** Pending children and failures are the started pages in that status, each with its own cursor. */
  ghost predicate ChildrenOk(p: Provider, start: nat, v: PageLoop) {
    && start + |v.trace.pages| <= PageCount(p)
    && (forall i: nat :: i in v.pending <==> i < |v.trace.pages| && v.trace.pages[i] == InFlight)
    && (forall i: nat :: i in v.failures <==> i in FailedPages(v.trace.pages))
    && (forall i: nat :: i in v.pending ==> v.pending[i] == CursorAt(p, start + i))
    && (forall i: nat :: i in v.failures ==> v.failures[i] == CursorAt(p, start + i))
    && RequestsWithin(p, v.trace.requests)
  }

  /** The cursor is that of the next page, and the flags say why fetching stopped. */
  ghost predicate ProgressOk(p: Provider, command: PagesCommand, start: nat, v: PageLoop) {
    var started := |v.trace.pages|;
    && v.cursor == (if start + started < PageCount(p) then CursorAt(p, start + started) else None)
    && (v.mayFetch ==> v.failures.Keys == {} && !v.stop)
    && (v.mayFetch || v.stop ==> start + started < PageCount(p))
    && (v.stop ==> v.failures.Keys == {})
    && (!v.mayFetch && !v.stop && v.failures.Keys == {} ==>
          (started > 0 && start + started == PageCount(p)) || BudgetSpent(command, started))
    && (command.maxPages.Some? ==> started == 0 || command.completed + started <= command.maxPages.value)
    && (!v.mayFetch || started == 0 || v.attempt == 0)
  }

  ghost predicate RequestsOk(command: PagesCommand, start: nat, v: PageLoop) {
    var next := Request(start + |v.trace.pages|, v.attempt);
    Ascending(v.trace.requests, Request(start, command.attempt), next)
    && !Before(next, Request(start, command.attempt))
  }

  predicate ErrorsOk(v: PageLoop) {
    v.errors == ErrorsOfPages(v.trace.pages)
  }

  lemma StartKeepsErrors(v: PageLoop, next: Cursor, requests: seq<Request>)
    requires ErrorsOk(v)
    ensures ErrorsOk(StartPage(v, next, requests))
  {
    ErrorsJoin(v.trace.pages, [InFlight]);
    assert [InFlight][..0] == [];
    assert ErrorsOfPages([InFlight]) == 0;
    hide ErrorsOfPages;
  }

  lemma FinishKeepsErrors(p: Provider, start: nat, v: PageLoop, i: nat, errors: nat)
    requires ChildrenOk(p, start, v) && ErrorsOk(v) && i in v.pending
    ensures ErrorsOk(FinishPage(v, i, errors))
  {
    EndingAddsErrors(v.trace.pages, i, errors);
    hide ErrorsOfPages, FailedPages;
  }

  ghost predicate LoopOk(p: Provider, command: PagesCommand, start: nat, v: PageLoop) {
    ChildrenOk(p, start, v) && ProgressOk(p, command, start, v) && RequestsOk(command, start, v) && ErrorsOk(v)
  }

  function StartPage(v: PageLoop, next: Cursor, requests: seq<Request>): PageLoop {
    v.(cursor := next, attempt := 0, mayFetch := next.Some?,
       pending := v.pending[|v.trace.pages| := v.cursor],
       trace := Trace(v.trace.pages + [InFlight], v.trace.requests + requests))
  }

  function FinishPage(v: PageLoop, i: nat, errors: nat): PageLoop
    requires i in v.pending && i < |v.trace.pages|
  {
    var w := v.(pending := v.pending - {i},
                trace := v.trace.(pages := v.trace.pages[i := Ended(errors)]));
    if errors == 0 then w
    else w.(failures := v.failures[i := v.pending[i]], errors := v.errors + errors, mayFetch := false, stop := false)
  }

  /** The requests of one fetch: the same page, attempt after attempt. */
  function Attempts(position: nat, attempt: nat, n: nat): seq<Request> {
    seq(n, i requires 0 <= i < n => Request(position, attempt + i))
  }

  lemma FetchRequests(command: PagesCommand, start: nat, v: PageLoop, n: nat)
    requires RequestsOk(command, start, v) && n > 0
    ensures var position := start + |v.trace.pages|;
            var all := v.trace.requests + Attempts(position, v.attempt, n);
            && Ascending(all, Request(start, command.attempt), Request(position + 1, 0))
            && Ascending(all, Request(start, command.attempt), Request(position, v.attempt + n))
  {
    var position := start + |v.trace.pages|;
    var mid, lo := Request(position, v.attempt), Request(start, command.attempt);
    AscendingAppend(v.trace.requests, Attempts(position, v.attempt, n), lo, mid, Request(position + 1, 0));
    AscendingAppend(v.trace.requests, Attempts(position, v.attempt, n), lo, mid, Request(position, v.attempt + n));
  }

  lemma StartedPages(p: Provider, start: nat, v: PageLoop, requests: seq<Request>)
    requires ChildrenOk(p, start, v) && start + |v.trace.pages| < PageCount(p)
    requires v.cursor == CursorAt(p, start + |v.trace.pages|) && RequestsWithin(p, requests)
    ensures ChildrenOk(p, start, StartPage(v, NextCursor(p, start + |v.trace.pages|), requests))
  {
  }

  lemma StartProgress(p: Provider, command: PagesCommand, start: nat, v: PageLoop, requests: seq<Request>)
    requires ProgressOk(p, command, start, v) && v.mayFetch && !BudgetSpent(command, |v.trace.pages|)
    ensures start + |v.trace.pages| < PageCount(p) && v.cursor == CursorAt(p, start + |v.trace.pages|)
    ensures ProgressOk(p, command, start, StartPage(v, NextCursor(p, start + |v.trace.pages|), requests))
  {
  }

  lemma StartRequests(command: PagesCommand, start: nat, v: PageLoop, next: Cursor, n: nat)
    requires RequestsOk(command, start, v) && n > 0
    ensures RequestsOk(command, start, StartPage(v, next, Attempts(start + |v.trace.pages|, v.attempt, n)))
  {
    FetchRequests(command, start, v, n);
    hide Ascending, Attempts;
  }

  lemma AttemptsWithin(p: Provider, position: nat, attempt: nat, n: nat)
    requires position < PageCount(p)
    ensures RequestsWithin(p, Attempts(position, attempt, n))
  {
  }

  lemma StartPageOk(p: Provider, command: PagesCommand, start: nat, v: PageLoop, n: nat)
    requires LoopOk(p, command, start, v) && v.mayFetch && n > 0 && !BudgetSpent(command, |v.trace.pages|)
    ensures var position := start + |v.trace.pages|;
            position < PageCount(p)
            && LoopOk(p, command, start, StartPage(v, NextCursor(p, position), Attempts(position, v.attempt, n)))
  {
    hide ChildrenOk, ProgressOk, RequestsOk, ErrorsOk, Attempts, NextCursor, StartPage, BudgetSpent, RequestsWithin;
    var position := start + |v.trace.pages|;
    var requests := Attempts(position, v.attempt, n);
    StartProgress(p, command, start, v, requests);
    var next := NextCursor(p, position);
    AttemptsWithin(p, position, v.attempt, n);
    StartedPages(p, start, v, requests);
    StartKeepsErrors(v, next, requests);
    StartRequests(command, start, v, next, n);
  }

  lemma RolloverOk(p: Provider, command: PagesCommand, start: nat, v: PageLoop, n: nat)
    requires LoopOk(p, command, start, v) && v.mayFetch && n > 0
    ensures var position := start + |v.trace.pages|;
            LoopOk(p, command, start,
                   v.(attempt := v.attempt + n, mayFetch := false, stop := true,
                      trace := v.trace.(requests := v.trace.requests + Attempts(position, v.attempt, n))))
  {
    FetchRequests(command, start, v, n);
    hide Ascending, Attempts;
  }

  lemma FinishedChildren(p: Provider, start: nat, v: PageLoop, i: nat, errors: nat)
    requires ChildrenOk(p, start, v) && i in v.pending
    ensures ChildrenOk(p, start, FinishPage(v, i, errors))
  {
    if errors > 0 {
      assert i in FinishPage(v, i, errors).failures.Keys;
    }
  }

  lemma FinishPageOk(p: Provider, command: PagesCommand, start: nat, v: PageLoop, i: nat, errors: nat)
    requires LoopOk(p, command, start, v) && i in v.pending
    ensures LoopOk(p, command, start, FinishPage(v, i, errors))
  {
    assert i < |v.trace.pages|;
    FinishedChildren(p, start, v, i, errors);
    FinishKeepsErrors(p, start, v, i, errors);
    if errors > 0 {
      assert i in FinishPage(v, i, errors).failures.Keys;
    }
    hide ChildrenOk, Ascending, ErrorsOk;
  }

  lemma BudgetStops(p: Provider, command: PagesCommand, start: nat, v: PageLoop)
    requires LoopOk(p, command, start, v) && v.mayFetch && BudgetSpent(command, |v.trace.pages|)
    ensures LoopOk(p, command, start, v.(mayFetch := false))
  {
    hide Ascending;
  }

  lemma SuggestionOk(p: Provider, command: PagesCommand, start: nat, v: PageLoop)
    requires LoopOk(p, command, start, v) && v.trace.pages != [] && v.failures.Keys == {}
    requires v.mayFetch <==> v.cursor.Some?
    ensures LoopOk(p, command, start, v.(mayFetch := false, stop := v.cursor.Some?))
  {
    assert start + |v.trace.pages| <= PageCount(p);
    hide Ascending;
  }

  lemma NextPage(p: Provider, command: PagesCommand, start: nat, v: PageLoop)
    requires LoopOk(p, command, start, v) && v.mayFetch && Distinct(p.marks)
    ensures start + |v.trace.pages| < PageCount(p)
    ensures KnownCursor(p, v.cursor) && PositionOf(p, v.cursor) == start + |v.trace.pages|
    ensures v.failures.Keys == {}
  {
    PositionIsUnique(p, start + |v.trace.pages|);
    hide ChildrenOk, Ascending;
  }

  lemma StartSize(p: Provider, command: PagesCommand, start: nat, v: PageLoop)
    requires LoopOk(p, command, start, v)
    ensures |v.pending[|v.trace.pages| := v.cursor]| == |v.pending| + 1
  {
    var k := |v.trace.pages|;
    var more := v.pending[k := v.cursor];
    assert k !in v.pending;
    assert more.Keys == v.pending.Keys + {k};
  }

  lemma PendingPage(p: Provider, command: PagesCommand, start: nat, v: PageLoop, i: nat)
    requires LoopOk(p, command, start, v) && i in v.pending
    ensures i < |v.trace.pages| && i !in v.failures
  {
  }

  lemma FinishSizes(p: Provider, command: PagesCommand, start: nat, v: PageLoop, i: nat, errors: nat)
    requires i in v.pending && i < |v.trace.pages| && i !in v.failures
    ensures var w := FinishPage(v, i, errors);
            && |w.pending| + 1 == |v.pending| && w.pending.Keys == v.pending.Keys - {i}
            && |w.failures| == |v.failures| + (if errors == 0 then 0 else 1)
            && |w.trace.pages| == |v.trace.pages|
  {
    var w := FinishPage(v, i, errors);
    assert w.pending.Keys == v.pending.Keys - {i};
    assert errors > 0 ==> w.failures.Keys == v.failures.Keys + {i};
  }

  lemma InitialOk(p: Provider, command: PagesCommand)
    requires ValidCommand(p, command)
    ensures LoopOk(p, command, PositionOf(p, command.cursor),
                   PageLoop(command.cursor, command.attempt, true, false, map[], map[], 0, Trace([], [])))
  {
  }

  lemma PagesWithin(p: Provider, command: PagesCommand, start: nat, v: PageLoop)
    requires LoopOk(p, command, start, v)
    ensures start + |v.trace.pages| <= PageCount(p)
  {
  }

  lemma RaisedOk(p: Provider, command: PagesCommand, start: nat, v: PageLoop, fault: Fault)
    requires ValidCommand(p, command) && start == PositionOf(p, command.cursor)
    requires LoopOk(p, command, start, v) && v.stop && v.trace.requests != []
    ensures RunOk(p, command, Raised(fault), v.trace)
  {
    assert Before(Request(start + |v.trace.pages|, v.attempt), Request(PageCount(p), 0));
  }

  lemma FailedKeys(p: Provider, start: nat, v: PageLoop)
    requires ChildrenOk(p, start, v)
    ensures FailedPages(v.trace.pages) == v.failures.Keys
  {
  }

  lemma AllDrained(p: Provider, start: nat, v: PageLoop)
    requires ChildrenOk(p, start, v) && |v.pending| == 0
    ensures forall i :: 0 <= i < |v.trace.pages| ==> v.trace.pages[i] != InFlight
  {
    forall i | 0 <= i < |v.trace.pages| ensures v.trace.pages[i] != InFlight {
      assert i !in v.pending;
    }
  }

  lemma DrainedTrace(p: Provider, command: PagesCommand, v: PageLoop, limit: Request)
    requires ValidCommand(p, command)
    requires LoopOk(p, command, PositionOf(p, command.cursor), v) && |v.pending| == 0
    requires !Before(limit, Request(PositionOf(p, command.cursor) + |v.trace.pages|, v.attempt))
    ensures TraceOk(p, command, v.trace, limit)
  {
    AllDrained(p, PositionOf(p, command.cursor), v);
  }

  lemma ContinueOk(p: Provider, command: PagesCommand, start: nat, v: PageLoop)
    requires ValidCommand(p, command) && start == PositionOf(p, command.cursor)
    requires LoopOk(p, command, start, v) && |v.pending| == 0 && v.stop && v.failures.Keys == {}
    ensures RunOk(p, command,
                  ContinueAsNew(command.(cursor := v.cursor, attempt := v.attempt,
                                         completed := command.completed + |v.trace.pages|,
                                         priorErrors := command.priorErrors + v.errors)), v.trace)
  {
    DrainedTrace(p, command, v, Request(start + |v.trace.pages|, v.attempt));
    FailedKeys(p, start, v);
    ErrorsMeanFailure(v.trace.pages);
    hide TraceOk, RequestsOk, ErrorsOfPages;
  }

  lemma FailedCheckpoint(p: Provider, command: PagesCommand, start: nat, v: PageLoop, f: nat)
    requires LoopOk(p, command, start, v) && IsLeast(f, v.failures.Keys)
    ensures start + f < PageCount(p) && f in v.failures && v.failures[f] == CursorAt(p, start + f)
  {
  }

  /** The result a run returns once everything drained. */
  function ResultOf(command: PagesCommand, v: PageLoop, checkpoint: Cursor): SyncResult {
    SyncResult(checkpoint, v.failures.Keys == {} && v.cursor.None?,
               command.completed + |v.trace.pages| - |v.failures|,
               command.priorErrors + v.errors, command.priorErrors + v.errors > 0)
  }

  lemma CleanCheckpoint(p: Provider, command: PagesCommand, start: nat, v: PageLoop)
    requires ValidCommand(p, command) && start == PositionOf(p, command.cursor)
    requires ProgressOk(p, command, start, v) && start + |v.trace.pages| <= PageCount(p)
    requires !v.mayFetch && !v.stop && v.failures.Keys == {} && FailedPages(v.trace.pages) == {}
    ensures CheckpointOk(p, command, v.trace, ResultOf(command, v, v.cursor))
  {
    hide FailedPages;
  }

  lemma CheckpointAfterFailure(p: Provider, command: PagesCommand, start: nat, v: PageLoop, f: nat)
    requires ValidCommand(p, command) && start == PositionOf(p, command.cursor)
    requires start + |v.trace.pages| <= PageCount(p) && start + f < PageCount(p)
    requires FailedPages(v.trace.pages) == v.failures.Keys && IsLeast(f, v.failures.Keys)
    ensures CheckpointOk(p, command, v.trace, ResultOf(command, v, CursorAt(p, start + f)))
  {
    hide FailedPages;
  }

  ghost predicate Checkpoint(p: Provider, start: nat, v: PageLoop, c: Cursor) {
    if v.failures.Keys == {} then c == v.cursor
    else exists f :: IsLeast(f, v.failures.Keys) && start + f < PageCount(p) && c == CursorAt(p, start + f)
  }

  lemma LoopFacts(p: Provider, command: PagesCommand, start: nat, v: PageLoop)
    requires LoopOk(p, command, start, v)
    ensures start + |v.trace.pages| <= PageCount(p) && ProgressOk(p, command, start, v)
    ensures v.errors == ErrorsOfPages(v.trace.pages) && (v.errors > 0 <==> v.failures.Keys != {})
    ensures FailedPages(v.trace.pages) == v.failures.Keys
  {
    FailedKeys(p, start, v);
    ErrorsMeanFailure(v.trace.pages);
    hide ProgressOk, RequestsOk, ErrorsOfPages;
  }

  lemma AssembleReturn(p: Provider, command: PagesCommand, t: Trace, r: SyncResult, start: nat, v: PageLoop)
    requires ValidCommand(p, command) && start == PositionOf(p, command.cursor) && t == v.trace
    requires TraceOk(p, command, t, Request(start + |t.pages| + 1, 0)) && r == ResultOf(command, v, r.cursor)
    requires FailedPages(t.pages) == v.failures.Keys && v.errors == ErrorsOfPages(t.pages)
    ensures CheckpointOk(p, command, t, r) ==> RunOk(p, command, Return(r), t)
  {
    hide TraceOk, FailedPages, CheckpointOk, PositionOf, ErrorsOfPages;
  }

  lemma CheckpointHolds(p: Provider, command: PagesCommand, start: nat, v: PageLoop, checkpoint: Cursor)
    requires ValidCommand(p, command) && start == PositionOf(p, command.cursor)
    requires start + |v.trace.pages| <= PageCount(p) && ProgressOk(p, command, start, v)
    requires FailedPages(v.trace.pages) == v.failures.Keys && !v.mayFetch && (v.stop ==> v.failures.Keys != {})
    requires Checkpoint(p, start, v, checkpoint)
    ensures CheckpointOk(p, command, v.trace, ResultOf(command, v, checkpoint))
  {
    hide FailedPages, ProgressOk, CheckpointOk, PositionOf;
    if v.failures.Keys == {} {
      CleanCheckpoint(p, command, start, v);
    } else {
      var f :| IsLeast(f, v.failures.Keys) && start + f < PageCount(p) && checkpoint == CursorAt(p, start + f);
      CheckpointAfterFailure(p, command, start, v, f);
    }
  }

  lemma ReturnOk(p: Provider, command: PagesCommand, start: nat, v: PageLoop, checkpoint: Cursor)
    requires ValidCommand(p, command) && start == PositionOf(p, command.cursor)
    requires LoopOk(p, command, start, v) && |v.pending| == 0 && !v.mayFetch && (v.stop ==> v.failures.Keys != {})
    requires Checkpoint(p, start, v, checkpoint)
    ensures RunOk(p, command, Return(ResultOf(command, v, checkpoint)), v.trace)
  {
    assert !Before(Request(start + |v.trace.pages| + 1, 0), Request(start + |v.trace.pages|, v.attempt));
    assert ResultOf(command, v, checkpoint).cursor == checkpoint;
    hide *;
    LoopFacts(p, command, start, v);
    DrainedTrace(p, command, v, Request(start + |v.trace.pages| + 1, 0));
    CheckpointHolds(p, command, start, v, checkpoint);
    AssembleReturn(p, command, v.trace, ResultOf(command, v, checkpoint), start, v);
  }

  // ---- the workflow object ----

  datatype Fetch = Fetched(next: Cursor) | Rollover(attempt: nat) | FetchRaised

  class ResourcePagesWorkflow {
    var cursor: Cursor
    var pendingChildren: nat
    var pagesCompleted: nat

    constructor ()
      ensures cursor == None && pendingChildren == 0 && pagesCompleted == 0
    {
      cursor, pendingChildren, pagesCompleted := None, 0, 0;
    }

    /**
     Fetches one page, a new permit request for each attempt.  The provider answers "quota exhausted"
     any finite number of times, and continuing as new may be suggested after any of those answers.
     */
    method FetchManifest(p: Provider, at: Cursor, first: nat) returns (r: Fetch, requests: seq<Request>)
      requires KnownCursor(p, at)
      ensures requests != [] && requests == Attempts(PositionOf(p, at), first, |requests|)
      ensures r.Fetched? ==> r.next == NextCursor(p, PositionOf(p, at))
      ensures r.Rollover? ==> r.attempt == first + |requests|
    {
      var position := PositionOf(p, at);
      var attempt := first;
      var exhausted: nat := *;
      requests := [];
      while true
        invariant attempt == first + |requests|
        invariant requests == Attempts(position, first, |requests|)
        decreases exhausted
      {
        requests := requests + [Request(position, attempt)];
        if * {
          return FetchRaised, requests;
        }
        if exhausted == 0 {
          return Fetched(NextCursor(p, position)), requests;
        }
        exhausted := exhausted - 1;
        attempt := attempt + 1;
        if * {
          return Rollover(attempt), requests;
        }
      }
    }

    /** Fills the window: one page after another until it is full or fetching stops. */
    method FillWindow(p: Provider, command: PagesCommand, before: PageLoop, window: nat)
      returns (v: PageLoop, fault: Option<Fault>)
      requires ValidCommand(p, command) && Distinct(p.marks)
      requires LoopOk(p, command, PositionOf(p, command.cursor), before) && pendingChildren == |before.pending|
      modifies this`cursor, this`pendingChildren
      ensures LoopOk(p, command, PositionOf(p, command.cursor), v)
      ensures |v.pending| <= Max(|before.pending|, window) && pendingChildren == |v.pending|
      ensures fault.None? && v.mayFetch ==> |v.pending| >= window
      ensures fault.Some? ==> v.stop && v.trace.requests != []
      ensures |v.trace.pages| >= |before.trace.pages|
      ensures |v.pending| + |before.trace.pages| == |before.pending| + |v.trace.pages|
      ensures v.failures == before.failures && v.errors == before.errors
    {
      hide LoopOk, Attempts, NextCursor, KnownCursor, Distinct;
      ghost var start := PositionOf(p, command.cursor);
      v, fault := before, None;
      PagesWithin(p, command, start, v);
      while v.mayFetch && |v.pending| < window
        invariant LoopOk(p, command, start, v) && fault.None?
        invariant |v.pending| <= Max(|before.pending|, window) && pendingChildren == |v.pending|
        invariant |v.trace.pages| >= |before.trace.pages|
        invariant |v.pending| + |before.trace.pages| == |before.pending| + |v.trace.pages|
        invariant v.failures == before.failures && v.errors == before.errors
        invariant start + |v.trace.pages| <= PageCount(p)
        decreases v.mayFetch, PageCount(p) - start - |v.trace.pages|
      {
        if command.maxPages.Some? && command.completed + |v.trace.pages| >= command.maxPages.value {
          BudgetStops(p, command, start, v);
          v := v.(mayFetch := false);
          break;
        }
        NextPage(p, command, start, v);
        var r, requests := FetchManifest(p, v.cursor, v.attempt);
        var canStart: bool := *;
        if r.FetchRaised? || r.Rollover? || !canStart {
          RolloverOk(p, command, start, v, |requests|);
          v := v.(attempt := v.attempt + |requests|, mayFetch := false, stop := true,
                  trace := v.trace.(requests := v.trace.requests + requests));
          // Of a run that raises only its requests matter any more.
          fault := if r.FetchRaised? then Some(FetchFailed) else if r.Rollover? then None else Some(ChildStartFailed);
          break;
        }
        StartPageOk(p, command, start, v, |requests|);
        StartSize(p, command, start, v);
        v := StartPage(v, r.next, requests);
        pendingChildren := |v.pending|;
        cursor := v.cursor;
        var suggested: bool := *;
        if suggested {
          SuggestionOk(p, command, start, v);
          v := v.(mayFetch := false, stop := v.cursor.Some?);
          break;
        }
      }
    }

    /** Takes the result of every child that is done, in any order, and of at least one. */
    method TakeFinished(p: Provider, command: PagesCommand, before: PageLoop) returns (v: PageLoop)
      requires ValidCommand(p, command) && before.pending.Keys != {}
      requires LoopOk(p, command, PositionOf(p, command.cursor), before)
      requires pagesCompleted + |before.pending| + |before.failures| == |before.trace.pages|
      modifies this`pagesCompleted
      ensures LoopOk(p, command, PositionOf(p, command.cursor), v)
      ensures pagesCompleted + |v.pending| + |v.failures| == |v.trace.pages|
      ensures |v.trace.pages| == |before.trace.pages| && |v.pending| < |before.pending|
    {
      hide LoopOk, FinishPage;
      ghost var start := PositionOf(p, command.cursor);
      v := before;
      var some :| some in before.pending.Keys;
      var done: set<nat> :| some in done && done <= before.pending.Keys;
      var left := done;
      while left != {}
        invariant LoopOk(p, command, start, v) && left <= v.pending.Keys
        invariant pagesCompleted + |v.pending| + |v.failures| == |v.trace.pages| == |before.trace.pages|
        invariant |v.pending| + |done| == |before.pending| + |left|
        decreases |left|
      {
        var i :| i in left;
        left := left - {i};
        var errors: nat := *;
        PendingPage(p, command, start, v, i);
        FinishPageOk(p, command, start, v, i, errors);
        FinishSizes(p, command, start, v, i, errors);
        v := FinishPage(v, i, errors);
        if errors == 0 {
          pagesCompleted := pagesCompleted + 1;
        }
      }
    }

    method Run(p: Provider, command: PagesCommand) returns (outcome: Outcome, trace: Trace)
      requires ValidCommand(p, command) && Distinct(p.marks)
      requires pagesCompleted == 0 && pendingChildren == 0
      modifies this
      ensures RunOk(p, command, outcome, trace)
      ensures !outcome.Raised? ==>
                pendingChildren == 0 && pagesCompleted + |FailedPages(trace.pages)| == |trace.pages|
    {
      hide LoopOk, RunOk, ProgressOk, FailedPages, Distinct, KnownCursor, Ascending;
      ghost var start := PositionOf(p, command.cursor);
      cursor := command.cursor;
      var v := PageLoop(command.cursor, command.attempt, true, false, map[], map[], 0, Trace([], []));
      InitialOk(p, command);
      var window := Max(1, command.window);
      while v.mayFetch || v.pending.Keys != {}
        invariant LoopOk(p, command, start, v) && |v.pending| <= window && pendingChildren == |v.pending|
        invariant pagesCompleted + |v.pending| + |v.failures| == |v.trace.pages|
        decreases 2 * (PageCount(p) - start - |v.trace.pages|) + |v.pending|
      {
        var w, fault := FillWindow(p, command, v, window);
        PagesWithin(p, command, start, w);
        if fault.Some? {
          RaisedOk(p, command, start, w, fault.value);
          return Raised(fault.value), w.trace;
        }
        if w.pending.Keys == {} {
          v := w;
          break;
        }
        assert pagesCompleted + |w.pending| + |w.failures| == |w.trace.pages|;
        v := TakeFinished(p, command, w);
        pendingChildren := |v.pending|;
      }
      assert |v.pending| == 0;
      LoopFacts(p, command, start, v);
      if v.stop && v.failures.Keys == {} {
        var next := command.(cursor := v.cursor, attempt := v.attempt, completed := command.completed + pagesCompleted,
                             priorErrors := command.priorErrors + v.errors);
        ContinueOk(p, command, start, v);
        return ContinueAsNew(next), v.trace;
      }
      var checkpoint := v.cursor;
      if v.failures.Keys != {} {
        LeastExists(v.failures.Keys);
        var f :| IsLeast(f, v.failures.Keys);
        checkpoint := v.failures[f];
        FailedCheckpoint(p, command, start, v, f);
      }
      var errorCount := command.priorErrors + v.errors;
      var result := SyncResult(checkpoint, v.failures.Keys == {} && v.cursor.None?,
                               command.completed + pagesCompleted, errorCount, errorCount > 0);
      assert result == ResultOf(command, v, checkpoint);
      ReturnOk(p, command, start, v, checkpoint);
      return Return(result), v.trace;
    }
  }
}
