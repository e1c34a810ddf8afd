/** A whole sync: the Continue-As-New chain of root sync runs, from a fresh command to its end. */
module RootSyncChains {
  import opened Collections
  import opened ResourcePages
  import opened RootSyncModel
  import opened RootSync

  function JoinedLogs(a: Log, b: Log): Log {
    Log(a.completed + b.completed, a.failed + b.failed, a.legacy + b.legacy, a.remediations + b.remediations)
  }

  lemma {:induction false} HandedOverJoins(a: seq<Remediation>, b: seq<Remediation>)
    ensures HandedOver(a + b) == HandedOver(a) + HandedOver(b)
  {
    if b == [] {
      assert a + b == a;
    } else {
      var n := |b| - 1;
      assert (a + b)[..|a + b| - 1] == a + b[..n];
      HandedOverJoins(a, b[..n]);
    }
  }

  /** Nothing carried needs handing over: there is none, or an earlier run did it. */
  predicate NothingOwed(c: SyncCommand) {
    c.failedRemediated || Carried(c) == []
  }

  // ---- round mode ----

  datatype RoundRun = RoundRun(
    command: SyncCommand, outcome: SyncOutcome, end: RoundState, log: Log, done: Activity)

  /** Runs linked by Continue-As-New; the last one has returned, or is observed before it ends. */
  ghost predicate RoundChain(d: Directory, c: SyncCommand, runs: seq<RoundRun>)
    requires DirectoryOk(d)
    decreases |runs|
  {
    && runs != [] && runs[0].command == c && RoundOk(d, c, runs[0].outcome, runs[0].end, runs[0].log)
    && ActivityOk(d, c, runs[0].outcome, runs[0].end, runs[0].done)
    && OutcomesOk(c, runs[0].outcome, runs[0].log, runs[0].done.batches)
    && if |runs| == 1 then runs[0].outcome.SyncReturned? || runs[0].outcome.SyncOngoing?
       else runs[0].outcome.SyncContinued? && RoundChain(d, runs[0].outcome.command, runs[1..])
  }

  function WholeLog(runs: seq<RoundRun>): Log {
    if runs == [] then Log([], [], [], []) else JoinedLogs(runs[0].log, WholeLog(runs[1..]))
  }

  /** The reported errors are the prior ones and at least one for each failed user. */
  predicate ReportsErrors(c: SyncCommand, outcome: SyncOutcome, log: Log)
    requires outcome.SyncReturned?
  {
    ErrorsMatch(c.priorErrors, outcome.errorCount, log.failed) && (outcome.partial <==> outcome.errorCount != 0)
  }

  lemma ErrorsJoin(c: SyncCommand, next: SyncCommand, outcome: SyncOutcome, a: Log, b: Log)
    requires outcome.SyncReturned? && ReportsErrors(next, outcome, b)
    requires ErrorsMatch(c.priorErrors, next.priorErrors, a.failed)
    ensures ReportsErrors(c, outcome, JoinedLogs(a, b))
  {
    ErrorsAdd(c.priorErrors, next.priorErrors, outcome.errorCount - next.priorErrors, a.failed, b.failed);
  }

  /** What a chain as a whole guarantees about users. */
  ghost predicate UsersOk(d: Directory, c: SyncCommand, outcome: SyncOutcome, t: RoundState, log: Log)
    requires DirectoryOk(d)
  {
    && Conserved(d, StartOf(c), t, log)
    && |t.active| <= Max(|StartOf(c).active|, Window(c))
    && (outcome.SyncReturned? ==>
          && t.active == [] && t.buffered == [] && t.exhausted
          && outcome.completed == Max(0, c.priorCompleted) + |log.completed|
          && outcome.failed == Max(0, c.priorFailed) + |log.failed|
          && ReportsErrors(c, outcome, log))
  }

  lemma ConservedJoins(d: Directory, s: RoundState, t: RoundState, u: RoundState, a: Log, b: Log)
    requires DirectoryOk(d) && Conserved(d, s, t, a) && Conserved(d, t, u, b)
    ensures Conserved(d, s, u, JoinedLogs(a, b))
  {
    var i, j, k := Pages(d, s), Pages(d, t), Pages(d, u);
    hide DirectoryOk, Listed, KeysOf, StateOk, Pages;
    ListedJoins(d, i, j, k);
    assert s.active + s.buffered + Listed(d, i, k) == (s.active + s.buffered + Listed(d, i, j)) + Listed(d, j, k);
    KeysJoin(s.active + s.buffered + Listed(d, i, j), Listed(d, j, k));
    KeysJoin(t.active + t.buffered, Listed(d, j, k));
    BagsJoin(multiset(KeysOf(s.active + s.buffered + Listed(d, i, j))), multiset(KeysOf(t.active + t.buffered)),
             multiset(KeysOf(u.active + u.buffered)), multiset(KeysOf(Listed(d, j, k))), a, b);
  }

  /** Conservation adds up: `x` became `y` with log `a`, and `y` with `l` more became `z` with log `b`. */
  lemma BagsJoin(x: multiset<Key>, y: multiset<Key>, z: multiset<Key>, l: multiset<Key>, a: Log, b: Log)
    requires x == y + multiset(a.completed) + multiset(a.failed)
    requires y + l == z + multiset(b.completed) + multiset(b.failed)
    ensures x + l == z + multiset(JoinedLogs(a, b).completed) + multiset(JoinedLogs(a, b).failed)
  {
    assert x + l == (y + l) + multiset(a.completed) + multiset(a.failed);
  }

  /** The next run starts from the very state the last one ended in. */
  lemma ContinuedStart(d: Directory, c: SyncCommand, next: SyncCommand, t: RoundState, log: Log)
    requires DirectoryOk(d) && RoundOk(d, c, SyncContinued(next), t, log)
    ensures StartOf(next) == t.(failedKeys := StartOf(next).failedKeys)
    ensures Window(next) == Window(c) && |t.active| <= Max(|StartOf(c).active|, Window(c))
    ensures next.priorCompleted == Max(0, c.priorCompleted) + |log.completed|
    ensures next.priorFailed == Max(0, c.priorFailed) + |log.failed|
    ensures next.failedRemediated == RemediatedAfter(c, log)
    ensures ErrorsMatch(c.priorErrors, next.priorErrors, log.failed)
    ensures Conserved(d, StartOf(c), t, log) && HandedOverOk(c, t, log)
  {
    hide Conserved, HandedOverOk, DirectoryOk, RemediatedAfter;
  }

  lemma SampleChanges(d: Directory, s: RoundState, t: RoundState, log: Log, sample: seq<Key>)
    requires DirectoryOk(d)
    ensures Conserved(d, s.(failedKeys := sample), t, log) <==> Conserved(d, s, t, log)
  {
    hide DirectoryOk, Listed;
    assert s.(failedKeys := sample).active + s.(failedKeys := sample).buffered == s.active + s.buffered;
  }

  lemma UsersJoin(d: Directory, c: SyncCommand, next: SyncCommand, t: RoundState, a: Log, outcome: SyncOutcome,
                  u: RoundState, b: Log)
    requires DirectoryOk(d) && RoundOk(d, c, SyncContinued(next), t, a) && UsersOk(d, next, outcome, u, b)
    ensures UsersOk(d, c, outcome, u, JoinedLogs(a, b))
  {
    ContinuedStart(d, c, next, t, a);
    SampleChanges(d, t, u, b, StartOf(next).failedKeys);
    hide RoundOk, Conserved, DirectoryOk, StartOf, Window, HandedOverOk, ReportsErrors, ErrorsMatch;
    ConservedJoins(d, StartOf(c), t, u, a, b);
    if outcome.SyncReturned? {
      ErrorsJoin(c, next, outcome, a, b);
    }
  }

  lemma RunUsers(d: Directory, c: SyncCommand, outcome: SyncOutcome, t: RoundState, log: Log)
    requires DirectoryOk(d) && RoundOk(d, c, outcome, t, log) && !outcome.SyncRaised?
    ensures UsersOk(d, c, outcome, t, log)
  {
    hide Conserved, HandedOverOk, DirectoryOk;
  }

  lemma {:induction false} ChainUsers(d: Directory, c: SyncCommand, runs: seq<RoundRun>)
    requires DirectoryOk(d) && RoundChain(d, c, runs)
    ensures var last := runs[|runs| - 1]; UsersOk(d, c, last.outcome, last.end, WholeLog(runs))
    decreases |runs|
  {
    hide RoundOk, UsersOk, DirectoryOk, ActivityOk, OutcomesOk;
    if |runs| == 1 {
      assert runs[1..] == [];
      EmptyLogJoins(runs[0].log);
      RunUsers(d, c, runs[0].outcome, runs[0].end, runs[0].log);
    } else {
      ChainUsers(d, runs[0].outcome.command, runs[1..]);
      assert runs[1..][|runs[1..]| - 1] == runs[|runs| - 1];
      UsersJoin(d, c, runs[0].outcome.command, runs[0].end, runs[0].log, runs[|runs| - 1].outcome,
                runs[|runs| - 1].end, WholeLog(runs[1..]));
    }
  }

  lemma EmptyLogJoins(a: Log)
    ensures JoinedLogs(a, Log([], [], [], [])) == a
  {
  }

  /** A sync that no run has worked on yet. */
  predicate FreshSync(c: SyncCommand) {
    c.roundState.None? && c.userCursor.None? && c.failedKeys == [] && c.priorCompleted == 0 && c.priorFailed == 0
    && c.userPagesCompleted == 0
  }

  /**
   Across any number of Continue-As-New and quota rollovers, each valid user listed so far is active,
   buffered, completed or failed, exactly once, with at most a window of active users; and when the
   sync returns, every valid user of the whole directory is completed or failed, and counted.
   */
  lemma EveryListedUserIsAccounted(d: Directory, c: SyncCommand, runs: seq<RoundRun>)
    requires DirectoryOk(d) && FreshSync(c) && RoundChain(d, c, runs)
    ensures var last := runs[|runs| - 1]; var log := WholeLog(runs);
            && StateOk(d, last.end) && |last.end.active| <= (if c.window < 1 then 1 else c.window)
            && multiset(KeysOf(Listed(d, 0, Pages(d, last.end))))
               == multiset(KeysOf(last.end.active)) + multiset(KeysOf(last.end.buffered))
                  + multiset(log.completed) + multiset(log.failed)
            && (last.outcome.SyncReturned? ==>
                  && multiset(KeysOf(Listed(d, 0, PageCount(d.chain))))
                     == multiset(log.completed) + multiset(log.failed)
                  && last.outcome.completed == |log.completed| && last.outcome.failed == |log.failed|
                  && last.outcome.errorCount >= c.priorErrors + |log.failed|
                  && (c.priorErrors == 0 ==> (last.outcome.partial <==> log.failed != [])))
  {
    var last, log := runs[|runs| - 1], WholeLog(runs);
    assert Window(c) == if c.window < 1 then 1 else c.window;
    hide *;
    ChainUsers(d, c, runs);
    UsersFromTheStart(d, c, last.outcome, last.end, log);
  }

  lemma UsersFromTheStart(d: Directory, c: SyncCommand, outcome: SyncOutcome, t: RoundState, log: Log)
    requires DirectoryOk(d) && FreshSync(c) && UsersOk(d, c, outcome, t, log)
    ensures StateOk(d, t) && |t.active| <= Window(c)
    ensures multiset(KeysOf(Listed(d, 0, Pages(d, t))))
            == multiset(KeysOf(t.active)) + multiset(KeysOf(t.buffered))
               + multiset(log.completed) + multiset(log.failed)
    ensures outcome.SyncReturned? ==>
              && multiset(KeysOf(Listed(d, 0, PageCount(d.chain)))) == multiset(log.completed) + multiset(log.failed)
              && outcome.completed == |log.completed| && outcome.failed == |log.failed|
              && outcome.errorCount >= c.priorErrors + |log.failed|
              && (c.priorErrors == 0 ==> (outcome.partial <==> log.failed != []))
  {
    FromTheStart(d, c, t, log);
    KeysJoin(t.active, t.buffered);
    hide DirectoryOk, KeysOf, Listed, Conserved;
    assert outcome.SyncReturned? ==> KeysOf(t.active) == [] && KeysOf(t.buffered) == [];
  }

  lemma FromTheStart(d: Directory, c: SyncCommand, t: RoundState, log: Log)
    requires DirectoryOk(d) && FreshSync(c) && Conserved(d, StartOf(c), t, log)
    ensures StateOk(d, t)
    ensures multiset(KeysOf(Listed(d, 0, Pages(d, t))))
            == multiset(KeysOf(t.active + t.buffered)) + multiset(log.completed) + multiset(log.failed)
  {
    var s := StartOf(c);
    assert Pages(d, s) == 0;
    assert s.active + s.buffered + Listed(d, 0, Pages(d, t)) == Listed(d, 0, Pages(d, t));
    hide DirectoryOk, Listed, KeysOf;
  }

  // ---- remediation in round mode ----

  /** Nothing old was handed over, and each new failure was, exactly once and in order. */
  ghost predicate OnceEach(s: RoundState, t: RoundState, log: Log) {
    && log.legacy == [] && s.roundNumber <= t.roundNumber
    && OfRounds(log.remediations, s.roundNumber, t.roundNumber) && HandedOver(log.remediations) == log.failed
  }

  lemma RunHandsOver(d: Directory, c: SyncCommand, outcome: SyncOutcome, t: RoundState, log: Log)
    requires DirectoryOk(d) && RoundOk(d, c, outcome, t, log) && !outcome.SyncRaised? && NothingOwed(c)
    ensures OnceEach(StartOf(c), t, log)
    ensures outcome.SyncContinued? ==> NothingOwed(outcome.command)
  {
    hide Conserved, DirectoryOk, OfRounds, ExtendSample, HandedOver;
  }

  lemma OnceEachJoins(s: RoundState, t: RoundState, u: RoundState, a: Log, b: Log)
    requires OnceEach(s, t, a) && OnceEach(t, u, b)
    ensures OnceEach(s, u, JoinedLogs(a, b))
  {
    HandedOverJoins(a.remediations, b.remediations);
    hide HandedOver;
  }

  lemma {:induction false} ChainHandsOver(d: Directory, c: SyncCommand, runs: seq<RoundRun>)
    requires DirectoryOk(d) && RoundChain(d, c, runs) && NothingOwed(c)
    ensures OnceEach(StartOf(c), runs[|runs| - 1].end, WholeLog(runs))
    decreases |runs|
  {
    hide RoundOk, OnceEach, DirectoryOk, NothingOwed, StartOf, ActivityOk, OutcomesOk;
    RunHandsOver(d, c, runs[0].outcome, runs[0].end, runs[0].log);
    if |runs| == 1 {
      assert runs[1..] == [];
      EmptyLogJoins(runs[0].log);
    } else {
      var next := runs[0].outcome.command;
      ChainHandsOver(d, next, runs[1..]);
      assert runs[1..][|runs[1..]| - 1] == runs[|runs| - 1];
      ContinuedStart(d, c, next, runs[0].end, runs[0].log);
      StartIgnoresSample(StartOf(next), runs[0].end, runs[|runs| - 1].end, WholeLog(runs[1..]));
      OnceEachJoins(StartOf(c), runs[0].end, runs[|runs| - 1].end, runs[0].log, WholeLog(runs[1..]));
    }
  }

  lemma StartIgnoresSample(s: RoundState, t: RoundState, u: RoundState, log: Log)
    requires s == t.(failedKeys := s.failedKeys) && OnceEach(s, u, log)
    ensures OnceEach(t, u, log)
  {
    hide OfRounds, HandedOver;
  }

  /** No two remediations share a partition, and so none shares a workflow ID. */
  ghost predicate PartitionsDiffer(rs: seq<Remediation>) {
    forall i, j :: 0 <= i < j < |rs| ==> rs[i].partition != rs[j].partition
  }

  /**
   Over the whole chain of a fresh round-mode sync every failed-user occurrence is handed to exactly
   one remediation, in order, with pairwise different partitions, and no carried failure again.
   */
  lemma EveryFailureIsRemediatedOnce(d: Directory, c: SyncCommand, runs: seq<RoundRun>)
    requires DirectoryOk(d) && FreshSync(c) && RoundChain(d, c, runs)
    ensures var log := WholeLog(runs);
            HandedOver(log.remediations) == log.failed && PartitionsDiffer(log.remediations) && log.legacy == []
  {
    assert Carried(c) == [];
    hide RoundChain, DirectoryOk, WholeLog, HandedOver;
    ChainHandsOver(d, c, runs);
  }

  // ---- ordinary mode ----

  datatype OrdinaryRun = OrdinaryRun(
    command: SyncCommand, outcome: SyncOutcome, pages: nat, log: Log, requests: seq<Request>,
    batches: seq<Batch>)

  ghost predicate OrdinaryChain(d: Directory, c: SyncCommand, runs: seq<OrdinaryRun>)
    requires DirectoryOk(d)
    decreases |runs|
  {
    && runs != [] && runs[0].command == c && KnownCursor(d.chain, c.userCursor)
    && OrdinaryOk(d, c, runs[0].outcome, runs[0].pages, runs[0].log)
    && OrdinaryAsked(d, c, runs[0].outcome, runs[0].pages, runs[0].requests)
    && PagesOutcomesOk(d, c, runs[0].outcome, runs[0].pages, runs[0].log, runs[0].batches)
    && if |runs| == 1 then runs[0].outcome.SyncReturned?
       else runs[0].outcome.SyncContinued? && OrdinaryChain(d, runs[0].outcome.command, runs[1..])
  }

  function OrdinaryLog(runs: seq<OrdinaryRun>): Log {
    if runs == [] then Log([], [], [], []) else JoinedLogs(runs[0].log, OrdinaryLog(runs[1..]))
  }

  /** What an ordinary run or chain guarantees, from page `from` of its command to page `to`. */
  ghost predicate OrdinaryDone(d: Directory, c: SyncCommand, from: nat, to: nat, log: Log) {
    && from <= to <= |d.pages| && UsersDone(d, from, to, log) && log.legacy == []
    && OfPages(log.remediations, c.userPagesCompleted, c.userPagesCompleted + (to - from))
    && HandedOver(log.remediations) == log.failed
  }

  lemma UsersDoneJoins(d: Directory, i: nat, j: nat, k: nat, a: Log, b: Log)
    requires i <= j <= k <= |d.pages| && UsersDone(d, i, j, a) && UsersDone(d, j, k, b)
    ensures UsersDone(d, i, k, JoinedLogs(a, b))
  {
    ListedJoins(d, i, j, k);
    KeysJoin(Listed(d, i, j), Listed(d, j, k));
    BagsJoin(multiset(KeysOf(Listed(d, i, j))), multiset{}, multiset{}, multiset(KeysOf(Listed(d, j, k))), a, b);
    hide KeysOf, Listed;
  }

  lemma OfPagesJoin(a: seq<Remediation>, b: seq<Remediation>, lo: nat, mid: nat, hi: nat)
    requires OfPages(a, lo, mid) && OfPages(b, mid, hi) && lo <= mid <= hi
    ensures OfPages(a + b, lo, hi)
  {
  }

  lemma OrdinaryDoneJoins(d: Directory, c: SyncCommand, next: SyncCommand, i: nat, j: nat, k: nat, a: Log, b: Log)
    requires OrdinaryDone(d, c, i, j, a) && OrdinaryDone(d, next, j, k, b)
    requires next.userPagesCompleted == c.userPagesCompleted + (j - i)
    ensures OrdinaryDone(d, c, i, k, JoinedLogs(a, b))
  {
    hide UsersDone, HandedOver, OfPages;
    UsersDoneJoins(d, i, j, k, a, b);
    HandedOverJoins(a.remediations, b.remediations);
    var pages := c.userPagesCompleted;
    OfPagesJoin(a.remediations, b.remediations, pages, pages + (j - i), pages + (k - i));
  }

  predicate OrdinaryOwesNothing(c: SyncCommand) {
    c.failedRemediated || c.failedKeys == []
  }

  lemma OrdinaryRunDone(d: Directory, c: SyncCommand, run: OrdinaryRun)
    requires DirectoryOk(d) && KnownCursor(d.chain, c.userCursor) && OrdinaryOwesNothing(c)
    requires OrdinaryOk(d, c, run.outcome, run.pages, run.log) && !run.outcome.SyncRaised?
    ensures var from := PositionOf(d.chain, c.userCursor); OrdinaryDone(d, c, from, from + run.pages, run.log)
  {
    hide Distinct, UsersDone, OfPages, HandedOver, PositionOf;
  }

  lemma OrdinaryNext(d: Directory, c: SyncCommand, run: OrdinaryRun)
    requires DirectoryOk(d) && KnownCursor(d.chain, c.userCursor) && OrdinaryOwesNothing(c)
    requires OrdinaryOk(d, c, run.outcome, run.pages, run.log) && run.outcome.SyncContinued?
    ensures var next := run.outcome.command;
            && KnownCursor(d.chain, next.userCursor) && OrdinaryOwesNothing(next)
            && PositionOf(d.chain, next.userCursor) == PositionOf(d.chain, c.userCursor) + run.pages
            && next.userPagesCompleted == c.userPagesCompleted + run.pages
            && next.priorCompleted == Max(0, c.priorCompleted) + |run.log.completed|
            && next.priorFailed == Max(0, c.priorFailed) + |run.log.failed|
            && ErrorsMatch(c.priorErrors, next.priorErrors, run.log.failed)
  {
    var end, next := PositionOf(d.chain, c.userCursor) + run.pages, run.outcome.command;
    assert Distinct(d.chain.marks);
    OrdinaryNextFields(d, c, run);
    hide *;
    PositionIsUnique(d.chain, end);
  }

  lemma OrdinaryNextFields(d: Directory, c: SyncCommand, run: OrdinaryRun)
    requires DirectoryOk(d) && KnownCursor(d.chain, c.userCursor) && OrdinaryOwesNothing(c)
    requires OrdinaryOk(d, c, run.outcome, run.pages, run.log) && run.outcome.SyncContinued?
    ensures var next := run.outcome.command; var end := PositionOf(d.chain, c.userCursor) + run.pages;
            && end < PageCount(d.chain) && next.userCursor == CursorAt(d.chain, end) && OrdinaryOwesNothing(next)
            && next.userPagesCompleted == c.userPagesCompleted + run.pages
            && next.priorCompleted == Max(0, c.priorCompleted) + |run.log.completed|
            && next.priorFailed == Max(0, c.priorFailed) + |run.log.failed|
            && ErrorsMatch(c.priorErrors, next.priorErrors, run.log.failed)
  {
    hide PagesDone, PositionOf, KnownCursor, DirectoryOk, CursorAt, ErrorsMatch;
  }

  lemma {:induction false} OrdinaryChainDone(d: Directory, c: SyncCommand, runs: seq<OrdinaryRun>)
    requires DirectoryOk(d) && OrdinaryChain(d, c, runs) && OrdinaryOwesNothing(c)
    ensures OrdinaryDone(d, c, PositionOf(d.chain, c.userCursor), |d.pages|, OrdinaryLog(runs))
    ensures var last := runs[|runs| - 1].outcome;
            && last.SyncReturned?
            && last.completed == Max(0, c.priorCompleted) + |OrdinaryLog(runs).completed|
            && last.failed == Max(0, c.priorFailed) + |OrdinaryLog(runs).failed|
            && ReportsErrors(c, last, OrdinaryLog(runs))
    decreases |runs|
  {
    hide OrdinaryOk, OrdinaryAsked, OrdinaryDone, OrdinaryOwesNothing, DirectoryOk, KnownCursor;
    hide ReportsErrors, ErrorsMatch, PagesOutcomesOk;
    var from := PositionOf(d.chain, c.userCursor);
    OrdinaryRunDone(d, c, runs[0]);
    if |runs| == 1 {
      assert runs[1..] == [];
      EmptyLogJoins(runs[0].log);
      OrdinaryEnd(d, c, runs[0]);
    } else {
      var next := runs[0].outcome.command;
      OrdinaryNext(d, c, runs[0]);
      OrdinaryChainDone(d, next, runs[1..]);
      assert runs[1..][|runs[1..]| - 1] == runs[|runs| - 1];
      OrdinaryDoneJoins(d, c, next, from, from + runs[0].pages, |d.pages|, runs[0].log, OrdinaryLog(runs[1..]));
      ErrorsJoin(c, next, runs[|runs| - 1].outcome, runs[0].log, OrdinaryLog(runs[1..]));
    }
  }

  lemma OrdinaryEnd(d: Directory, c: SyncCommand, run: OrdinaryRun)
    requires DirectoryOk(d) && KnownCursor(d.chain, c.userCursor)
    requires OrdinaryOk(d, c, run.outcome, run.pages, run.log) && run.outcome.SyncReturned?
    ensures PositionOf(d.chain, c.userCursor) + run.pages == |d.pages|
    ensures run.outcome.completed == Max(0, c.priorCompleted) + |run.log.completed|
    ensures run.outcome.failed == Max(0, c.priorFailed) + |run.log.failed|
    ensures ReportsErrors(c, run.outcome, run.log)
  {
    hide PagesDone, PositionOf;
  }

  /**
   An ordinary sync that returns has completed or failed every valid user of the directory, counted
   them, and handed every failed occurrence to exactly one remediation with its own partition.
   */
  lemma OrdinarySyncIsComplete(d: Directory, c: SyncCommand, runs: seq<OrdinaryRun>)
    requires DirectoryOk(d) && FreshSync(c) && OrdinaryChain(d, c, runs)
    ensures var log := OrdinaryLog(runs); var last := runs[|runs| - 1].outcome;
            && multiset(KeysOf(Listed(d, 0, PageCount(d.chain)))) == multiset(log.completed) + multiset(log.failed)
            && last.SyncReturned? && last.completed == |log.completed| && last.failed == |log.failed|
            && last.errorCount >= c.priorErrors + |log.failed|
            && (c.priorErrors == 0 ==> (last.partial <==> log.failed != []))
            && HandedOver(log.remediations) == log.failed && PartitionsDiffer(log.remediations) && log.legacy == []
  {
    hide OrdinaryChain, OrdinaryLog, KeysOf, Listed, HandedOver;
    OrdinaryChainDone(d, c, runs);
    var log := OrdinaryLog(runs);
    assert UsersDone(d, 0, |d.pages|, log) && OfPages(log.remediations, 0, |d.pages|);
  }
}
