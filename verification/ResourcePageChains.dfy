/** Continue-As-New chains of page runs, and what a caller may rely on when one returns. */
module ResourcePageChains {
  import opened Collections
  import opened ResourcePages

  datatype Segment = Segment(command: PagesCommand, outcome: Outcome, trace: Trace)

  function Joined(a: Trace, b: Trace): Trace {
    Trace(a.pages + b.pages, a.requests + b.requests)
  }

  /** Each run starts from the command its predecessor continued with; only the last one ends the chain. */
  ghost predicate Chain(p: Provider, command: PagesCommand, segments: seq<Segment>)
    decreases |segments|
  {
    && segments != [] && segments[0].command == command
    && RunOk(p, command, segments[0].outcome, segments[0].trace)
    && if |segments| == 1 then segments[0].outcome.Return?
       else segments[0].outcome.ContinueAsNew? && Chain(p, segments[0].outcome.command, segments[1..])
  }

  function WholeTrace(segments: seq<Segment>): Trace {
    if segments == [] then Trace([], []) else Joined(segments[0].trace, WholeTrace(segments[1..]))
  }

  function Shift(s: set<nat>, k: nat): set<nat> {
    set i | i in s :: k + i
  }

  lemma ShiftMember(s: set<nat>, k: nat, i: nat)
    ensures k + i in Shift(s, k) <==> i in s
  {
    if k + i in Shift(s, k) {
      var j :| j in s && k + j == k + i;
    }
  }

  lemma {:induction false} ShiftSize(s: set<nat>, k: nat)
    ensures |Shift(s, k)| == |s|
  {
    if s != {} {
      var x :| x in s;
      ShiftSize(s - {x}, k);
      ShiftMember(s - {x}, k, x);
      forall y | y in Shift(s, k) ensures y in Shift(s - {x}, k) + {k + x} {
        ShiftMember(s - {x}, k, y - k);
      }
      forall y | y in Shift(s - {x}, k) + {k + x} ensures y in Shift(s, k) {
        ShiftMember(s, k, y - k);
      }
      assert Shift(s, k) == Shift(s - {x}, k) + {k + x};
    }
  }

  lemma FailedJoined(a: seq<PageStatus>, b: seq<PageStatus>)
    requires FailedPages(a) == {}
    ensures FailedPages(a + b) == Shift(FailedPages(b), |a|)
    ensures |FailedPages(a + b)| == |FailedPages(b)|
    ensures FailedPages(a + b) == {} <==> FailedPages(b) == {}
  {
    forall i: nat ensures i in FailedPages(a + b) <==> i in Shift(FailedPages(b), |a|) {
      if i < |a| {
        assert i !in FailedPages(a);
      } else {
        ShiftMember(FailedPages(b), |a|, i - |a|);
      }
    }
    ShiftSize(FailedPages(b), |a|);
  }

  lemma LeastShifted(b: set<nat>, k: nat, f: nat)
    requires IsLeast(f, b)
    ensures IsLeast(k + f, Shift(b, k))
  {
  }

  lemma ContinuedCommand(p: Provider, command: PagesCommand, c: PagesCommand, t: Trace)
    requires RunOk(p, command, ContinueAsNew(c), t) && Distinct(p.marks)
    ensures ValidCommand(p, c) && PositionOf(p, c.cursor) == PositionOf(p, command.cursor) + |t.pages|
    ensures c.completed == command.completed + |t.pages| && c.maxPages == command.maxPages
    ensures c.priorErrors == command.priorErrors && FailedPages(t.pages) == {}
    ensures TraceOk(p, command, t, Request(PositionOf(p, c.cursor), c.attempt))
  {
    PositionIsUnique(p, PositionOf(p, command.cursor) + |t.pages|);
    hide TraceOk, FailedPages, Distinct;
  }

  lemma JoinedTrace(p: Provider, command: PagesCommand, c: PagesCommand, a: Trace, b: Trace, limit: Request)
    requires ValidCommand(p, command) && ValidCommand(p, c) && command.maxPages == c.maxPages
    requires PositionOf(p, c.cursor) == PositionOf(p, command.cursor) + |a.pages|
    requires c.completed == command.completed + |a.pages|
    requires TraceOk(p, command, a, Request(PositionOf(p, c.cursor), c.attempt)) && TraceOk(p, c, b, limit)
    ensures TraceOk(p, command, Joined(a, b), limit)
  {
    var lo := Request(PositionOf(p, command.cursor), command.attempt);
    var mid := Request(PositionOf(p, c.cursor), c.attempt);
    AscendingAppend(a.requests, b.requests, lo, mid, limit);
    hide Ascending, PositionOf;
  }

  lemma JoinedCheckpoint(p: Provider, command: PagesCommand, c: PagesCommand, a: Trace, b: Trace, r: SyncResult)
    requires ValidCommand(p, command) && ValidCommand(p, c) && command.maxPages == c.maxPages
    requires PositionOf(p, c.cursor) == PositionOf(p, command.cursor) + |a.pages|
    requires c.completed == command.completed + |a.pages| && FailedPages(a.pages) == {}
    requires PositionOf(p, c.cursor) + |b.pages| <= PageCount(p) && CheckpointOk(p, c, b, r)
    ensures CheckpointOk(p, command, Joined(a, b), r)
  {
    FailedJoined(a.pages, b.pages);
    if FailedPages(b.pages) != {} {
      var f :| IsLeast(f, FailedPages(b.pages)) && r.cursor == CursorAt(p, PositionOf(p, c.cursor) + f);
      LeastShifted(FailedPages(b.pages), |a.pages|, f);
    }
    hide FailedPages, PositionOf;
  }

  lemma JoinedReturn(p: Provider, command: PagesCommand, c: PagesCommand, a: Trace, b: Trace, r: SyncResult)
    requires Distinct(p.marks) && RunOk(p, command, ContinueAsNew(c), a) && RunOk(p, c, Return(r), b)
    ensures RunOk(p, command, Return(r), Joined(a, b))
  {
    ContinuedCommand(p, command, c, a);
    FailedJoined(a.pages, b.pages);
    ErrorsJoin(a.pages, b.pages);
    ErrorsMeanFailure(a.pages);
    hide Distinct, FailedPages, ErrorsOfPages, TraceOk, CheckpointOk, PositionOf;
    assert TraceOk(p, c, b, Request(PositionOf(p, c.cursor) + |b.pages| + 1, 0));
    JoinedTrace(p, command, c, a, b, Request(PositionOf(p, c.cursor) + |b.pages| + 1, 0));
    TraceFits(p, c, b, Request(PositionOf(p, c.cursor) + |b.pages| + 1, 0));
    JoinedCheckpoint(p, command, c, a, b, r);
  }

  lemma TraceFits(p: Provider, c: PagesCommand, b: Trace, limit: Request)
    requires ValidCommand(p, c) && TraceOk(p, c, b, limit)
    ensures PositionOf(p, c.cursor) + |b.pages| <= PageCount(p)
  {
  }

  /**
   Continue-As-New is invisible: whatever points a chain was cut at, all of its runs together satisfy
   the specification of one uncut run of the first command with the last run's result.
   */
  lemma {:induction false} ChainIsOneRun(p: Provider, command: PagesCommand, segments: seq<Segment>)
    requires Distinct(p.marks) && Chain(p, command, segments)
    ensures segments[|segments| - 1].outcome.Return?
    ensures RunOk(p, command, segments[|segments| - 1].outcome, WholeTrace(segments))
    decreases |segments|
  {
    var first := segments[0];
    hide RunOk, Distinct;
    if |segments| == 1 {
      assert segments[1..] == [];
      assert Joined(first.trace, Trace([], [])) == first.trace;
    } else {
      var c := first.outcome.command;
      ChainIsOneRun(p, c, segments[1..]);
      assert segments[1..][|segments[1..]| - 1] == segments[|segments| - 1];
      JoinedReturn(p, command, c, first.trace, WholeTrace(segments[1..]), segments[|segments| - 1].outcome.result);
    }
  }

  // ---- what a returned result means ----

  /** A result counts the pages whose child ended cleanly and every error of the others, over all runs. */
  lemma ResultCountsChildren(p: Provider, command: PagesCommand, segments: seq<Segment>)
    requires Distinct(p.marks) && Chain(p, command, segments)
    ensures var pages := WholeTrace(segments).pages; var last := segments[|segments| - 1].outcome;
            && last.Return? && (forall i :: 0 <= i < |pages| ==> pages[i].Ended?)
            && last.result.errorCount == command.priorErrors + ErrorsOfPages(pages)
            && (last.result.partial <==>
                  command.priorErrors > 0 || exists i :: 0 <= i < |pages| && pages[i] != Ended(0))
            && last.result.completed
               == command.completed + |pages| - |set i | 0 <= i < |pages| && pages[i] != Ended(0)|
  {
    hide Chain, WholeTrace;
    ChainIsOneRun(p, command, segments);
    var pages := WholeTrace(segments).pages;
    ErrorsMeanFailure(pages);
    assert forall i :: 0 <= i < |pages| ==> pages[i].Ended?;
    assert FailedPages(pages) == set i | 0 <= i < |pages| && pages[i] != Ended(0);
    if FailedPages(pages) != {} {
      var i :| i in FailedPages(pages);
      assert pages[i] != Ended(0);
    } else {
      forall i | 0 <= i < |pages| ensures pages[i] == Ended(0) {
        assert i !in FailedPages(pages);
      }
    }
    hide CheckpointOk, Ascending, Distinct, FailedPages, ErrorsOfPages;
  }

  /** Pages a failure-free run of the command processes: to the end of the chain or of the budget. */
  function ExpectedPages(p: Provider, command: PagesCommand): nat
    requires ValidCommand(p, command)
  {
    var rest := PageCount(p) - PositionOf(p, command.cursor);
    if command.maxPages.None? then rest else Min(rest, Max(0, command.maxPages.value - command.completed))
  }

  /** A failure-free run processes exactly the pages its command asks for, in chain order, each once. */
  lemma CleanRunIsExact(p: Provider, command: PagesCommand, r: SyncResult, t: Trace)
    requires RunOk(p, command, Return(r), t) && FailedPages(t.pages) == {}
    ensures |t.pages| == ExpectedPages(p, command) && forall i :: 0 <= i < |t.pages| ==> t.pages[i] == Ended(0)
    ensures r.completed == command.completed + |t.pages| && r.errorCount == command.priorErrors
    ensures var end := PositionOf(p, command.cursor) + |t.pages|;
            r.cursor == if end < PageCount(p) then CursorAt(p, end) else None
  {
    ErrorsMeanFailure(t.pages);
    forall i | 0 <= i < |t.pages| ensures t.pages[i] == Ended(0) {
      assert i !in FailedPages(t.pages);
    }
    hide Ascending, PositionOf;
  }

  /** Two failure-free chains of the same command agree on the pages and on the result, however each was cut. */
  lemma CutsDoNotMatter(p: Provider, command: PagesCommand, xs: seq<Segment>, ys: seq<Segment>)
    requires Distinct(p.marks) && Chain(p, command, xs) && Chain(p, command, ys)
    requires FailedPages(WholeTrace(xs).pages) == {} && FailedPages(WholeTrace(ys).pages) == {}
    ensures WholeTrace(xs).pages == WholeTrace(ys).pages
    ensures xs[|xs| - 1].outcome == ys[|ys| - 1].outcome
  {
    assert xs != [] && ys != [];
    hide Chain, RunOk, WholeTrace, FailedPages, Distinct, ExpectedPages;
    ChainIsOneRun(p, command, xs);
    ChainIsOneRun(p, command, ys);
    CleanRunIsExact(p, command, xs[|xs| - 1].outcome.result, WholeTrace(xs));
    CleanRunIsExact(p, command, ys[|ys| - 1].outcome.result, WholeTrace(ys));
    ResultFlags(p, command, xs[|xs| - 1].outcome.result, WholeTrace(xs));
    ResultFlags(p, command, ys[|ys| - 1].outcome.result, WholeTrace(ys));
    assert WholeTrace(xs).pages == WholeTrace(ys).pages;
  }

  lemma ResultFlags(p: Provider, command: PagesCommand, r: SyncResult, t: Trace)
    requires RunOk(p, command, Return(r), t) && FailedPages(t.pages) == {}
    ensures r.finished <==> r.cursor.None?
    ensures r.partial <==> r.errorCount > 0
  {
    hide TraceOk;
  }

  /** The position just past the last page a checkpoint vouches for. */
  function CheckpointPosition(p: Provider, r: SyncResult): nat
    requires KnownCursor(p, r.cursor)
  {
    if r.finished then PageCount(p) else PositionOf(p, r.cursor)
  }

  ghost predicate AllProcessed(pages: seq<PageStatus>, k: int) {
    forall i :: 0 <= i < |pages| && i < k ==> pages[i] == Ended(0)
  }

  lemma CleanCheckpointIsSafe(p: Provider, command: PagesCommand, r: SyncResult, t: Trace)
    requires Distinct(p.marks) && RunOk(p, command, Return(r), t) && FailedPages(t.pages) == {}
    ensures KnownCursor(p, r.cursor)
    ensures AllProcessed(t.pages, CheckpointPosition(p, r) - PositionOf(p, command.cursor))
  {
    hide RunOk, Distinct, FailedPages;
    CleanRunIsExact(p, command, r, t);
    var end := PositionOf(p, command.cursor) + |t.pages|;
    if end < PageCount(p) {
      PositionIsUnique(p, end);
    }
  }

  lemma LeastFailure(p: Provider, command: PagesCommand, r: SyncResult, t: Trace) returns (f: nat)
    requires RunOk(p, command, Return(r), t) && FailedPages(t.pages) != {}
    ensures IsLeast(f, FailedPages(t.pages)) && !r.finished && f < |t.pages|
    ensures PositionOf(p, command.cursor) + f < PageCount(p)
    ensures r.cursor == CursorAt(p, PositionOf(p, command.cursor) + f)
    ensures forall i :: 0 <= i < |t.pages| ==> t.pages[i] != InFlight
  {
    hide Ascending, PositionOf;
    f :| IsLeast(f, FailedPages(t.pages)) && r.cursor == CursorAt(p, PositionOf(p, command.cursor) + f);
  }

  lemma FailedCheckpointIsSafe(p: Provider, command: PagesCommand, r: SyncResult, t: Trace)
    requires Distinct(p.marks) && RunOk(p, command, Return(r), t) && FailedPages(t.pages) != {}
    ensures KnownCursor(p, r.cursor)
    ensures AllProcessed(t.pages, CheckpointPosition(p, r) - PositionOf(p, command.cursor))
    ensures CheckpointPosition(p, r) - PositionOf(p, command.cursor) in FailedPages(t.pages)
  {
    var start := PositionOf(p, command.cursor);
    var f: nat := LeastFailure(p, command, r, t);
    FirstFailure(t.pages, f);
    hide RunOk, Distinct, FailedPages, AllProcessed;
    PositionIsUnique(p, start + f);
  }

  /** No page was asked for, from the very start of the chain. */
  predicate AskedForNothing(command: PagesCommand) {
    command.cursor.None? && BudgetSpent(command, 0)
  }

  /** A clean run that was asked for pages vouches for exactly the pages it started. */
  lemma CleanCheckpointPosition(p: Provider, command: PagesCommand, r: SyncResult, t: Trace)
    requires Distinct(p.marks) && RunOk(p, command, Return(r), t) && FailedPages(t.pages) == {}
    requires KnownCursor(p, r.cursor) && !AskedForNothing(command)
    ensures CheckpointPosition(p, r) == PositionOf(p, command.cursor) + |t.pages|
  {
    FinishedExactly(p, command, r, t);
    ResultFlags(p, command, r, t);
    hide RunOk, Distinct, FailedPages, PositionOf, BudgetSpent;
    CleanRunIsExact(p, command, r, t);
    var end := PositionOf(p, command.cursor) + |t.pages|;
    if end < PageCount(p) {
      PositionIsUnique(p, end);
    }
  }

  lemma FailedPageIsStarted(pages: seq<PageStatus>, f: int)
    requires f >= 0 && f in FailedPages(pages)
    ensures f < |pages|
  {
  }

  /**
   For every completion order and failure pattern: everything started has drained, every page from the
   run's start up to the returned cursor was started and processed, and the first failed page, if any,
   is the one at that cursor.  Only a run asked for no page at all vouches for pages it did not start.
   */
  lemma CheckpointIsSafe(p: Provider, command: PagesCommand, r: SyncResult, t: Trace)
    requires Distinct(p.marks) && RunOk(p, command, Return(r), t)
    ensures forall i :: 0 <= i < |t.pages| ==> t.pages[i] != InFlight
    ensures KnownCursor(p, r.cursor)
    ensures AllProcessed(t.pages, CheckpointPosition(p, r) - PositionOf(p, command.cursor))
    ensures FailedPages(t.pages) != {} ==>
              CheckpointPosition(p, r) - PositionOf(p, command.cursor) in FailedPages(t.pages)
    ensures !AskedForNothing(command) ==>
              CheckpointPosition(p, r) <= PositionOf(p, command.cursor) + |t.pages|
    ensures FailedPages(t.pages) == {} && !AskedForNothing(command) ==>
              CheckpointPosition(p, r) == PositionOf(p, command.cursor) + |t.pages|
  {
    assert forall i :: 0 <= i < |t.pages| ==> t.pages[i] != InFlight;
    hide RunOk, AllProcessed, Distinct, FailedPages, PositionOf, CursorAt, AskedForNothing, CheckpointPosition;
    if FailedPages(t.pages) == {} {
      CleanCheckpointIsSafe(p, command, r, t);
      if !AskedForNothing(command) {
        CleanCheckpointPosition(p, command, r, t);
      }
    } else {
      FailedCheckpointIsSafe(p, command, r, t);
      FailedPageIsStarted(t.pages, CheckpointPosition(p, r) - PositionOf(p, command.cursor));
    }
  }

  lemma FirstFailure(pages: seq<PageStatus>, f: nat)
    requires IsLeast(f, FailedPages(pages)) && forall i :: 0 <= i < |pages| ==> pages[i] != InFlight
    ensures AllProcessed(pages, f)
  {
    forall i | 0 <= i < |pages| && i < f ensures pages[i] == Ended(0) {
      assert i !in FailedPages(pages);
    }
  }

  /**
   Exactly when a run says it is finished: no page failed, and it processed the chain to its end, or
   it was asked for no page at all from the very start, which it cannot tell from having finished.
   */
  lemma FinishedExactly(p: Provider, command: PagesCommand, r: SyncResult, t: Trace)
    requires RunOk(p, command, Return(r), t)
    ensures r.finished <==>
              FailedPages(t.pages) == {}
              && ((t.pages != [] && PositionOf(p, command.cursor) + |t.pages| == PageCount(p))
                  || AskedForNothing(command))
  {
    var start := PositionOf(p, command.cursor);
    hide Ascending;
    if FailedPages(t.pages) == {} {
      if t.pages == [] {
        assert CursorAt(p, start) == command.cursor;
      }
    }
  }

  /** The pages started over a whole chain stay within the page budget. */
  lemma BudgetIsKept(p: Provider, command: PagesCommand, segments: seq<Segment>)
    requires Distinct(p.marks) && Chain(p, command, segments) && command.maxPages.Some?
    ensures |WholeTrace(segments).pages| <= Max(0, command.maxPages.value - command.completed)
  {
    hide Chain, WholeTrace, Distinct;
    ChainIsOneRun(p, command, segments);
  }

  /** The runs of a chain so far: the last one may have returned, continued as new, or raised. */
  ghost predicate RunsSoFar(p: Provider, command: PagesCommand, segments: seq<Segment>)
    decreases |segments|
  {
    && segments != [] && segments[0].command == command
    && RunOk(p, command, segments[0].outcome, segments[0].trace)
    && (|segments| > 1 ==>
          segments[0].outcome.ContinueAsNew? && RunsSoFar(p, segments[0].outcome.command, segments[1..]))
  }

  lemma {:induction false} ChainIsRunsSoFar(p: Provider, command: PagesCommand, segments: seq<Segment>)
    requires Chain(p, command, segments)
    ensures RunsSoFar(p, command, segments)
    decreases |segments|
  {
    if |segments| > 1 {
      ChainIsRunsSoFar(p, segments[0].outcome.command, segments[1..]);
    }
    hide RunOk;
  }

  lemma RunRequests(p: Provider, command: PagesCommand, outcome: Outcome, t: Trace)
    requires RunOk(p, command, outcome, t)
    ensures Ascending(t.requests, Request(PositionOf(p, command.cursor), command.attempt), Request(PageCount(p) + 1, 0))
    ensures RequestsWithin(p, t.requests)
  {
  }

  lemma {:induction false} RequestsAscend(p: Provider, command: PagesCommand, segments: seq<Segment>)
    requires Distinct(p.marks) && RunsSoFar(p, command, segments)
    ensures ValidCommand(p, command)
    ensures Ascending(WholeTrace(segments).requests, Request(PositionOf(p, command.cursor), command.attempt),
                      Request(PageCount(p) + 1, 0))
    ensures RequestsWithin(p, WholeTrace(segments).requests)
    decreases |segments|
  {
    var first := segments[0];
    assert ValidCommand(p, command);
    hide RunOk, Distinct, ValidCommand, RequestsWithin, TraceOk;
    RunRequests(p, command, first.outcome, first.trace);
    if |segments| == 1 {
      assert segments[1..] == [];
      assert Joined(first.trace, Trace([], [])) == first.trace;
    } else {
      var c, rest := first.outcome.command, WholeTrace(segments[1..]);
      ContinuedCommand(p, command, c, first.trace);
      RequestsAscend(p, c, segments[1..]);
      JoinedRequests(p, command, c, first.trace, rest);
    }
  }

  lemma JoinedRequests(p: Provider, command: PagesCommand, c: PagesCommand, a: Trace, b: Trace)
    requires ValidCommand(p, command) && ValidCommand(p, c)
    requires TraceOk(p, command, a, Request(PositionOf(p, c.cursor), c.attempt))
    requires Ascending(b.requests, Request(PositionOf(p, c.cursor), c.attempt), Request(PageCount(p) + 1, 0))
    requires RequestsWithin(p, b.requests)
    ensures Ascending(Joined(a, b).requests, Request(PositionOf(p, command.cursor), command.attempt),
                      Request(PageCount(p) + 1, 0))
    ensures RequestsWithin(p, Joined(a, b).requests)
  {
    AscendingAppend(a.requests, b.requests, Request(PositionOf(p, command.cursor), command.attempt),
                    Request(PositionOf(p, c.cursor), c.attempt), Request(PageCount(p) + 1, 0));
    hide Ascending, PositionOf;
  }

  /** No (cursor, attempt) pair is asked a permit for twice in a whole chain, even if it ends by raising. */
  lemma RequestsNeverRepeat(p: Provider, command: PagesCommand, segments: seq<Segment>, i: nat, j: nat)
    requires Distinct(p.marks) && RunsSoFar(p, command, segments)
    requires i < j < |WholeTrace(segments).requests|
    ensures var a, b := WholeTrace(segments).requests[i], WholeTrace(segments).requests[j];
            && a.position < PageCount(p) && b.position < PageCount(p)
            && (CursorAt(p, a.position), a.attempt) != (CursorAt(p, b.position), b.attempt)
  {
    RequestsAscend(p, command, segments);
    var rs := WholeTrace(segments).requests;
    hide WholeTrace, RunsSoFar;
    assert Before(rs[i], rs[j]) && rs[i] in rs && rs[j] in rs;
    DifferentCursors(p, rs[i], rs[j]);
  }

  lemma DifferentCursors(p: Provider, a: Request, b: Request)
    requires Distinct(p.marks) && a.position < PageCount(p) && b.position < PageCount(p) && a != b
    ensures (CursorAt(p, a.position), a.attempt) != (CursorAt(p, b.position), b.attempt)
  {
    PositionIsUnique(p, a.position);
    PositionIsUnique(p, b.position);
  }
}
