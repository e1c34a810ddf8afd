/**
 What a whole sync asked for and whom it ran: its requests for user pages, and the users of each of
 its rounds, over any number of runs.
 */
module RootSyncActivity {
  import opened Collections
  import opened ResourcePages
  import opened ResourcePageChains
  import opened RootSyncModel
  import opened RootSync
  import opened RootSyncChains

  /** Past every request for a page of the directory. */
  function Top(d: Directory): Request {
    Request(PageCount(d.chain) + 1, 0)
  }

  /** Each request of a list is for another cursor, or another attempt at it, than all later ones. */
  ghost predicate RequestsDiffer(p: Provider, requests: seq<Request>) {
    && RequestsWithin(p, requests)
    && forall i, j :: 0 <= i < j < |requests| ==>
         requests[i].position < PageCount(p) && requests[j].position < PageCount(p)
         && (CursorAt(p, requests[i].position), requests[i].attempt)
            != (CursorAt(p, requests[j].position), requests[j].attempt)
  }

  lemma AskedDiffer(p: Provider, lo: Request, hi: Request, requests: seq<Request>)
    requires Distinct(p.marks) && Asked(p, lo, hi, requests)
    ensures RequestsDiffer(p, requests)
  {
    forall i, j | 0 <= i < j < |requests|
      ensures requests[i].position < PageCount(p) && requests[j].position < PageCount(p)
              && (CursorAt(p, requests[i].position), requests[i].attempt)
                 != (CursorAt(p, requests[j].position), requests[j].attempt)
    {
      assert Before(requests[i], requests[j]) && requests[i] in requests && requests[j] in requests;
      DifferentCursors(p, requests[i], requests[j]);
    }
  }

  lemma AskedHigher(d: Directory, lo: Request, hi: Request, requests: seq<Request>)
    requires Asked(d.chain, lo, hi, requests) && hi.position <= PageCount(d.chain)
    ensures Asked(d.chain, lo, Top(d), requests)
  {
  }

  // ---- round mode ----

  function WholeActivity(runs: seq<RoundRun>): Activity {
    if runs == [] then Activity([], [])
    else
      var rest := WholeActivity(runs[1..]);
      Activity(runs[0].done.requests + rest.requests, runs[0].done.batches + rest.batches)
  }

  /** The first run of a chain, and what follows it. */
  lemma RoundHead(d: Directory, c: SyncCommand, runs: seq<RoundRun>)
    requires DirectoryOk(d) && RoundChain(d, c, runs)
    ensures runs != []
    ensures var run := runs[0];
            && RoundOk(d, c, run.outcome, run.end, run.log) && ActivityOk(d, c, run.outcome, run.end, run.done)
            && OutcomesOk(c, run.outcome, run.log, run.done.batches) && !run.outcome.SyncRaised?
            && (|runs| == 1 ==> run.outcome.SyncReturned? || run.outcome.SyncOngoing?)
            && (|runs| > 1 ==> run.outcome.SyncContinued? && RoundChain(d, run.outcome.command, runs[1..]))
  {
    hide RoundOk, ActivityOk, OutcomesOk, DirectoryOk;
  }

  lemma RoundParts(runs: seq<RoundRun>)
    requires runs != []
    ensures |runs| == 1 ==> WholeActivity(runs) == runs[0].done && WholeLog(runs) == runs[0].log
    ensures |runs| > 1 ==> |runs[1..]| < |runs| && runs[1..][|runs[1..]| - 1] == runs[|runs| - 1]
    ensures WholeActivity(runs).requests == runs[0].done.requests + WholeActivity(runs[1..]).requests
    ensures WholeActivity(runs).batches == runs[0].done.batches + WholeActivity(runs[1..]).batches
    ensures WholeLog(runs) == JoinedLogs(runs[0].log, WholeLog(runs[1..]))
  {
    if |runs| == 1 {
      assert runs[1..] == [];
      EmptyLogJoins(runs[0].log);
    }
  }

  lemma NextStart(d: Directory, c: SyncCommand, run: RoundRun)
    requires DirectoryOk(d) && RoundOk(d, c, run.outcome, run.end, run.log) && run.outcome.SyncContinued?
    requires ActivityOk(d, c, run.outcome, run.end, run.done)
    ensures var s := StartOf(run.outcome.command);
            && StateOk(d, s) && StateOk(d, StartOf(c)) && StateOk(d, run.end)
            && s.roundNumber == run.end.roundNumber && Pages(d, s) == Pages(d, run.end)
            && multiset(Everyone(d, s)) <= multiset(Everyone(d, StartOf(c)))
  {
    var next := run.outcome.command;
    ContinuedStart(d, c, next, run.end, run.log);
    ActiveAmongEveryone(d, StartOf(c), run.end, run.log);
    assert StateOk(d, StartOf(c)) && StateOk(d, run.end);
    assert StartOf(next).active + StartOf(next).buffered == run.end.active + run.end.buffered;
    hide RoundOk, ActivityOk, DirectoryOk, Listed, KeysOf, StartOf;
  }

  lemma PagesBound(d: Directory, s: RoundState)
    requires DirectoryOk(d) && StateOk(d, s)
    ensures Pages(d, s) <= PageCount(d.chain)
  {
  }

  lemma {:induction false} ChainRequests(d: Directory, c: SyncCommand, runs: seq<RoundRun>)
    requires DirectoryOk(d) && RoundChain(d, c, runs) && CarriesAttempt(c)
    ensures StateOk(d, StartOf(c))
    ensures Asked(d.chain, Request(Pages(d, StartOf(c)), c.userPageAttempt), Top(d), WholeActivity(runs).requests)
    decreases |runs|
  {
    hide *;
    RoundHead(d, c, runs);
    RoundParts(runs);
    var run := runs[0];
    RunRequested(d, c, run);
    if |runs| > 1 {
      NextStart(d, c, run);
      ChainRequests(d, run.outcome.command, runs[1..]);
      AskedJoins(d.chain, Request(Pages(d, StartOf(c)), c.userPageAttempt), RunEnd(d, run), Top(d), run.done.requests,
                 WholeActivity(runs[1..]).requests);
    }
  }

  /** Where the requests of a run end and those of the next one start. */
  function RunEnd(d: Directory, run: RoundRun): Request
    requires DirectoryOk(d) && StateOk(d, run.end)
  {
    Request(Pages(d, run.end), if run.outcome.SyncContinued? then run.outcome.command.userPageAttempt else 0)
  }

  lemma RunRequested(d: Directory, c: SyncCommand, run: RoundRun)
    requires DirectoryOk(d) && ActivityOk(d, c, run.outcome, run.end, run.done) && !run.outcome.SyncRaised?
    requires CarriesAttempt(c)
    ensures StateOk(d, StartOf(c)) && StateOk(d, run.end)
    ensures Asked(d.chain, Request(Pages(d, StartOf(c)), c.userPageAttempt), RunEnd(d, run), run.done.requests)
    ensures Asked(d.chain, Request(Pages(d, StartOf(c)), c.userPageAttempt), Top(d), run.done.requests)
    ensures run.outcome.SyncContinued? ==>
              CarriesAttempt(run.outcome.command)
              && RunEnd(d, run) == Request(Pages(d, run.end), run.outcome.command.userPageAttempt)
  {
    PagesBound(d, run.end);
    hide DirectoryOk, StateOk, Pages, Asked, CarriesAttempt, StartOf, BatchesOk;
    AskedHigher(d, Request(Pages(d, StartOf(c)), c.userPageAttempt), RunEnd(d, run), run.done.requests);
  }

  /** Over any number of runs no page of users is asked for twice with the same cursor and attempt. */
  lemma ListingsNeverRepeat(d: Directory, c: SyncCommand, runs: seq<RoundRun>)
    requires DirectoryOk(d) && RoundChain(d, c, runs) && CarriesAttempt(c)
    ensures RequestsDiffer(d.chain, WholeActivity(runs).requests)
  {
    hide RoundChain, WholeActivity;
    ChainRequests(d, c, runs);
    AskedDiffer(d.chain, Request(Pages(d, StartOf(c)), c.userPageAttempt), Top(d), WholeActivity(runs).requests);
  }

  lemma BatchesJoin(d: Directory, s: RoundState, t: RoundState, mid: nat, end: nat, a: seq<Batch>, b: seq<Batch>)
    requires DirectoryOk(d) && StateOk(d, s) && StateOk(d, t) && t.roundNumber == mid
    requires multiset(Everyone(d, t)) <= multiset(Everyone(d, s))
    requires BatchesOk(d, s, mid, a) && BatchesOk(d, t, end, b)
    ensures BatchesOk(d, s, end, a + b)
  {
    hide DirectoryOk, StateOk, Everyone;
  }

  lemma RunBatches(d: Directory, c: SyncCommand, run: RoundRun)
    requires DirectoryOk(d) && ActivityOk(d, c, run.outcome, run.end, run.done) && !run.outcome.SyncRaised?
    ensures StateOk(d, StartOf(c)) && BatchesOk(d, StartOf(c), run.end.roundNumber, run.done.batches)
  {
    hide DirectoryOk, StateOk, Pages, Asked, CarriesAttempt, StartOf, BatchesOk;
  }

  lemma {:induction false} ChainBatches(d: Directory, c: SyncCommand, runs: seq<RoundRun>)
    requires DirectoryOk(d) && RoundChain(d, c, runs)
    ensures StateOk(d, StartOf(c))
    ensures BatchesOk(d, StartOf(c), runs[|runs| - 1].end.roundNumber, WholeActivity(runs).batches)
    decreases |runs|
  {
    hide *;
    RoundHead(d, c, runs);
    RoundParts(runs);
    var run := runs[0];
    RunBatches(d, c, run);
    if |runs| > 1 {
      var next := run.outcome.command;
      NextStart(d, c, run);
      ChainBatches(d, next, runs[1..]);
      BatchesJoin(d, StartOf(c), StartOf(next), run.end.roundNumber, runs[|runs| - 1].end.roundNumber,
                  run.done.batches, WholeActivity(runs[1..]).batches);
    }
  }

  // ---- who failed and who completed ----

  lemma {:induction false} FatedJoins(a: seq<Batch>, b: seq<Batch>, fate: Fate)
    ensures Fated(a + b, fate) == Fated(a, fate) + Fated(b, fate)
    ensures BatchErrors(a + b) == BatchErrors(a) + BatchErrors(b)
  {
    if b == [] {
      assert a + b == a;
    } else {
      var n := |b| - 1;
      assert (a + b)[..|a + b| - 1] == a + b[..n];
      FatedJoins(a, b[..n], fate);
      hide Among, ErrorSum;
      var last := Among(b[n].users, b[n].outcomes, fate);
      assert (Fated(a, fate) + Fated(b[..n], fate)) + last == Fated(a, fate) + (Fated(b[..n], fate) + last);
    }
  }

  lemma FollowedJoins(c: SyncCommand, next: SyncCommand, errors: int, a: Log, b: Log, x: seq<Batch>, y: seq<Batch>)
    requires Followed(c, a, next.priorErrors, x) && Followed(next, b, errors, y)
    ensures Followed(c, JoinedLogs(a, b), errors, x + y)
  {
    FatedJoins(x, y, Fails);
    FatedJoins(x, y, Completes);
    hide Fated, BatchErrors;
  }

  /** The errors a chain has counted when it is observed. */
  ghost predicate ChainFollowed(c: SyncCommand, outcome: SyncOutcome, log: Log, batches: seq<Batch>) {
    && (outcome.SyncReturned? ==> Followed(c, log, outcome.errorCount, batches))
    && exists errors :: Followed(c, log, errors, batches)
  }

  lemma RunFollowed(c: SyncCommand, outcome: SyncOutcome, log: Log, batches: seq<Batch>)
    requires OutcomesOk(c, outcome, log, batches) && (outcome.SyncReturned? || outcome.SyncOngoing?)
    ensures ChainFollowed(c, outcome, log, batches)
  {
    hide Followed;
  }

  lemma ChainFollowedJoins(c: SyncCommand, next: SyncCommand, outcome: SyncOutcome, a: Log, b: Log, x: seq<Batch>,
                           y: seq<Batch>)
    requires OutcomesOk(c, SyncContinued(next), a, x) && ChainFollowed(next, outcome, b, y)
    ensures ChainFollowed(c, outcome, JoinedLogs(a, b), x + y)
  {
    var errors :| Followed(next, b, errors, y);
    FollowedJoins(c, next, errors, a, b, x, y);
    if outcome.SyncReturned? {
      FollowedJoins(c, next, outcome.errorCount, a, b, x, y);
    }
    hide Followed;
  }

  lemma {:induction false} ChainFollows(d: Directory, c: SyncCommand, runs: seq<RoundRun>)
    requires DirectoryOk(d) && RoundChain(d, c, runs)
    ensures ChainFollowed(c, runs[|runs| - 1].outcome, WholeLog(runs), WholeActivity(runs).batches)
    decreases |runs|
  {
    hide *;
    RoundHead(d, c, runs);
    RoundParts(runs);
    var run := runs[0];
    if |runs| == 1 {
      RunFollowed(c, run.outcome, run.log, run.done.batches);
    } else {
      var rest := runs[1..];
      ChainFollows(d, run.outcome.command, rest);
      ChainFollowedJoins(c, run.outcome.command, runs[|runs| - 1].outcome, run.log, WholeLog(rest), run.done.batches,
                         WholeActivity(rest).batches);
    }
  }

  lemma CarriedIsGood(c: SyncCommand)
    ensures Distinct(Carried(c)) && |Carried(c)| <= 100
  {
    SampleFromNothing(c.failedKeys + StartOf(c).failedKeys);
    hide ExtendSample, Distinct;
  }

  /** The next run starts from the sample that the last one ended with. */
  lemma SampleGoesOn(c: SyncCommand, run: RoundRun)
    requires OutcomesOk(c, run.outcome, run.log, run.done.batches) && run.outcome.SyncContinued?
    ensures Carried(run.outcome.command) == Sampled(Carried(c), run.log.failed)
  {
    var sample := Sampled(Carried(c), run.log.failed);
    CarriedIsGood(c);
    SampledStaysGood(Carried(c), run.log.failed);
    SampleCarries(sample);
    assert run.outcome.command.failedKeys + StartOf(run.outcome.command).failedKeys == sample + sample;
    hide Sampled, Followed, Distinct, StartOf;
  }

  lemma {:induction false} ChainSample(d: Directory, c: SyncCommand, runs: seq<RoundRun>)
    requires DirectoryOk(d) && RoundChain(d, c, runs)
    ensures runs[|runs| - 1].outcome.SyncReturned? ==>
              runs[|runs| - 1].outcome.failedSample == Sampled(Carried(c), WholeLog(runs).failed)
    decreases |runs|
  {
    var run := runs[0];
    RoundHead(d, c, runs);
    RoundParts(runs);
    if |runs| > 1 {
      assert WholeLog(runs).failed == run.log.failed + WholeLog(runs[1..]).failed;
      hide *;
      ChainSample(d, run.outcome.command, runs[1..]);
      SampleGoesOn(c, run);
      SampledJoins(Carried(c), run.log.failed, WholeLog(runs[1..]).failed);
    } else {
      hide RoundChain, RoundOk, ActivityOk, Sampled, Followed;
    }
  }

  /** What carried failures are owed: the first hundred different ones, unless they were handed over before. */
  function Owed(c: SyncCommand): seq<Key> {
    var values := c.failedKeys + (if c.roundState.Some? then c.roundState.value.failedKeys else []);
    var taken := if |values| <= 100 then values else values[..100];
    if c.failedRemediated || !c.hasController then [] else FirstOccurrences(taken, Elements(taken))
  }

  lemma LegacyIsOwed(c: SyncCommand)
    ensures LegacyStart(c) == if Owed(c) == [] then []
                              else [Remediation(LegacyRound(StartOf(c).roundNumber), Owed(c))]
  {
    SampleOfNothing(c.failedKeys + StartOf(c).failedKeys);
    assert StartOf(c).failedKeys == if c.roundState.Some? then c.roundState.value.failedKeys else [];
    hide ExtendSample, FirstOccurrences, Elements, StartOf;
  }

  /** Nothing is owed any more once a run has ended. */
  predicate Settled(c: SyncCommand) {
    NothingOwed(c) || !c.hasController
  }

  lemma RunSettles(d: Directory, c: SyncCommand, run: RoundRun)
    requires DirectoryOk(d) && RoundOk(d, c, run.outcome, run.end, run.log) && !run.outcome.SyncRaised?
    requires OutcomesOk(c, run.outcome, run.log, run.done.batches)
    ensures run.log.legacy == LegacyStart(c) && (Settled(c) ==> run.log.legacy == [])
    ensures run.outcome.SyncContinued? ==> Settled(run.outcome.command)
  {
    hide Conserved, DirectoryOk, OfRounds, ExtendSample, HandedOver, Followed, Sampled;
  }

  lemma {:induction false} SettledChain(d: Directory, c: SyncCommand, runs: seq<RoundRun>)
    requires DirectoryOk(d) && RoundChain(d, c, runs) && Settled(c)
    ensures WholeLog(runs).legacy == []
    decreases |runs|
  {
    RoundHead(d, c, runs);
    RoundParts(runs);
    var run := runs[0];
    RunSettles(d, c, run);
    if |runs| > 1 {
      SettledChain(d, run.outcome.command, runs[1..]);
    }
    hide RoundChain, RoundOk, ActivityOk, OutcomesOk, Settled, LegacyStart;
  }

  /**
   Failures carried into a sync that nobody remediated yet are handed over exactly once, by its first run,
   over any number of runs; and never when they were remediated before.
   */
  lemma CarriedFailuresAreRemediatedOnce(d: Directory, c: SyncCommand, runs: seq<RoundRun>)
    requires DirectoryOk(d) && RoundChain(d, c, runs)
    ensures WholeLog(runs).legacy == if Owed(c) == [] then []
                                     else [Remediation(LegacyRound(StartOf(c).roundNumber), Owed(c))]
  {
    hide *;
    LegacyIsOwed(c);
    RoundHead(d, c, runs);
    RoundParts(runs);
    var run := runs[0];
    RunSettles(d, c, run);
    FirstLegacy(runs);
    if |runs| > 1 {
      SettledChain(d, run.outcome.command, runs[1..]);
    }
  }

  lemma FirstLegacy(runs: seq<RoundRun>)
    requires runs != []
    ensures |runs| == 1 ==> WholeLog(runs).legacy == runs[0].log.legacy
    ensures WholeLog(runs[1..]).legacy == [] ==> WholeLog(runs).legacy == runs[0].log.legacy
  {
    RoundParts(runs);
    hide WholeLog;
  }

  /** In ordinary mode a run hands over all carried failures that are owed, before it lists anybody. */
  lemma OrdinaryLegacyIsOwed(c: SyncCommand)
    ensures var rs := OrdinaryLegacy(c);
            if c.failedKeys == [] || c.failedRemediated || !c.hasController then rs == []
            else rs == [Remediation(LegacyCarried(c.userPagesCompleted), c.failedKeys)]
  {
  }

  /**
   A whole round-mode sync follows the outcomes of its user children, in the order in which their rounds
   ran: it fails and hands to remediation exactly the users whose child raised, was partial or reported
   errors, completes exactly those whose child finished cleanly, and reports exactly their errors.
   */
  lemma RoundSyncFollowsOutcomes(d: Directory, c: SyncCommand, runs: seq<RoundRun>)
    requires DirectoryOk(d) && FreshSync(c) && RoundChain(d, c, runs)
    ensures var log, last := WholeLog(runs), runs[|runs| - 1].outcome; var batches := WholeActivity(runs).batches;
            && log.failed == HandedOver(log.remediations) == Fated(batches, Fails)
            && log.completed == Fated(batches, Completes)
            && (last.SyncReturned? ==>
                  && last.failed == |Fated(batches, Fails)| && last.completed == |Fated(batches, Completes)|
                  && last.errorCount == c.priorErrors + BatchErrors(batches)
                  && var different := FirstOccurrences(log.failed, Elements(log.failed));
                     last.failedSample == if |different| <= 100 then different else different[..100])
  {
    assert Carried(c) == [];
    SampledIsFirstHundred(WholeLog(runs).failed, Elements(WholeLog(runs).failed));
    ChainSample(d, c, runs);
    hide Sampled, FirstOccurrences, Elements, Carried;
    hide RoundChain, WholeLog, WholeActivity, DirectoryOk, FreshSync, Fated, BatchErrors, HandedOver;
    ChainFollows(d, c, runs);
    EveryFailureIsRemediatedOnce(d, c, runs);
    EveryListedUserIsAccounted(d, c, runs);
  }

  // ---- ordinary mode ----

  function OrdinaryRequests(runs: seq<OrdinaryRun>): seq<Request> {
    if runs == [] then [] else runs[0].requests + OrdinaryRequests(runs[1..])
  }

  function OrdinaryBatches(runs: seq<OrdinaryRun>): seq<Batch> {
    if runs == [] then [] else runs[0].batches + OrdinaryBatches(runs[1..])
  }

  lemma OrdinaryHead(d: Directory, c: SyncCommand, runs: seq<OrdinaryRun>)
    requires DirectoryOk(d) && OrdinaryChain(d, c, runs)
    ensures runs != [] && KnownCursor(d.chain, c.userCursor)
    ensures var run := runs[0];
            && OrdinaryOk(d, c, run.outcome, run.pages, run.log) && !run.outcome.SyncRaised?
            && OrdinaryAsked(d, c, run.outcome, run.pages, run.requests)
            && PagesOutcomesOk(d, c, run.outcome, run.pages, run.log, run.batches)
            && (|runs| == 1 ==> run.outcome.SyncReturned?)
            && (|runs| > 1 ==> run.outcome.SyncContinued? && OrdinaryChain(d, run.outcome.command, runs[1..]))
  {
    hide OrdinaryOk, OrdinaryAsked, PagesOutcomesOk, DirectoryOk, KnownCursor;
  }

  lemma OrdinaryParts(runs: seq<OrdinaryRun>)
    requires runs != []
    ensures |runs| == 1 ==>
              && OrdinaryRequests(runs) == runs[0].requests && OrdinaryBatches(runs) == runs[0].batches
              && OrdinaryLog(runs) == runs[0].log
    ensures |runs| > 1 ==> |runs[1..]| < |runs| && runs[1..][|runs[1..]| - 1] == runs[|runs| - 1]
    ensures OrdinaryRequests(runs) == runs[0].requests + OrdinaryRequests(runs[1..])
    ensures OrdinaryBatches(runs) == runs[0].batches + OrdinaryBatches(runs[1..])
    ensures OrdinaryLog(runs) == JoinedLogs(runs[0].log, OrdinaryLog(runs[1..]))
  {
    if |runs| == 1 {
      assert runs[1..] == [];
      EmptyLogJoins(runs[0].log);
    }
  }

  lemma {:induction false} OrdinaryChainRequests(d: Directory, c: SyncCommand, runs: seq<OrdinaryRun>)
    requires DirectoryOk(d) && OrdinaryChain(d, c, runs) && OrdinaryOwesNothing(c)
    ensures KnownCursor(d.chain, c.userCursor)
    ensures Asked(d.chain, Request(PositionOf(d.chain, c.userCursor), c.userPageAttempt), Top(d),
                  OrdinaryRequests(runs))
    decreases |runs|
  {
    hide *;
    OrdinaryHead(d, c, runs);
    OrdinaryParts(runs);
    var run, start := runs[0], PositionOf(d.chain, c.userCursor);
    OrdinaryRequested(d, c, run);
    if |runs| == 1 {
      OrdinaryEnd(d, c, run);
      PageLists(d);
      AskedHigher(d, Request(start, c.userPageAttempt), Request(start + run.pages, 0), run.requests);
    } else {
      var next := run.outcome.command;
      OrdinaryNext(d, c, run);
      OrdinaryChainRequests(d, next, runs[1..]);
      AskedJoins(d.chain, Request(start, c.userPageAttempt), Request(start + run.pages, next.userPageAttempt), Top(d),
                 run.requests, OrdinaryRequests(runs[1..]));
    }
  }

  lemma OrdinaryRequested(d: Directory, c: SyncCommand, run: OrdinaryRun)
    requires DirectoryOk(d) && KnownCursor(d.chain, c.userCursor) && !run.outcome.SyncRaised?
    requires OrdinaryAsked(d, c, run.outcome, run.pages, run.requests)
    ensures var start := PositionOf(d.chain, c.userCursor); var lo := Request(start, c.userPageAttempt);
            && (!run.outcome.SyncContinued? ==> Asked(d.chain, lo, Request(start + run.pages, 0), run.requests))
            && (run.outcome.SyncContinued? ==>
                  Asked(d.chain, lo, Request(start + run.pages, run.outcome.command.userPageAttempt), run.requests))
  {
    hide Asked, DirectoryOk, PositionOf, KnownCursor;
  }

  lemma PageLists(d: Directory)
    requires DirectoryOk(d)
    ensures |d.pages| == PageCount(d.chain)
  {
  }

  /** The same in ordinary mode. */
  lemma OrdinaryListingsNeverRepeat(d: Directory, c: SyncCommand, runs: seq<OrdinaryRun>)
    requires DirectoryOk(d) && OrdinaryChain(d, c, runs) && OrdinaryOwesNothing(c)
    ensures RequestsDiffer(d.chain, OrdinaryRequests(runs))
  {
    hide OrdinaryChain, OrdinaryRequests;
    OrdinaryChainRequests(d, c, runs);
    AskedDiffer(d.chain, Request(PositionOf(d.chain, c.userCursor), c.userPageAttempt), Top(d), OrdinaryRequests(runs));
  }

  lemma {:induction false} PagesJoin(a: seq<Batch>, b: seq<Batch>)
    ensures PagesFailed(a + b) == PagesFailed(a) + PagesFailed(b)
    ensures PagesErrors(a + b) == PagesErrors(a) + PagesErrors(b)
  {
    if b == [] {
      assert a + b == a;
    } else {
      var n := |b| - 1;
      assert (a + b)[..|a + b| - 1] == a + b[..n];
      PagesJoin(a, b[..n]);
      hide NotCompleted, PageErrors;
      var last := NotCompleted(b[n].users, b[n].outcomes);
      assert (PagesFailed(a) + PagesFailed(b[..n])) + last == PagesFailed(a) + (PagesFailed(b[..n]) + last);
    }
  }

  lemma PagesFollowedJoins(c: SyncCommand, next: SyncCommand, errors: int, a: Log, b: Log, x: seq<Batch>, y: seq<Batch>)
    requires PagesFollowed(c, a, next.priorErrors, x) && PagesFollowed(next, b, errors, y)
    ensures PagesFollowed(c, JoinedLogs(a, b), errors, x + y)
  {
    PagesJoin(x, y);
    FatedJoins(x, y, Completes);
    hide Fated, PagesFailed, PagesErrors;
  }

  lemma PageBatchesJoin(d: Directory, c: SyncCommand, next: SyncCommand, start: nat, a: seq<Batch>, b: seq<Batch>)
    requires PageBatches(d, c, start, a) && PageBatches(d, next, start + |a|, b)
    requires next.userPagesCompleted == c.userPagesCompleted + |a|
    ensures PageBatches(d, c, start, a + b)
  {
    hide KeysOf, ValidUsers;
  }

  lemma RunPages(d: Directory, c: SyncCommand, run: OrdinaryRun)
    requires DirectoryOk(d) && KnownCursor(d.chain, c.userCursor) && !run.outcome.SyncRaised?
    requires PagesOutcomesOk(d, c, run.outcome, run.pages, run.log, run.batches)
    ensures |run.batches| == run.pages && PageBatches(d, c, PositionOf(d.chain, c.userCursor), run.batches)
    ensures run.outcome.SyncReturned? ==> PagesFollowed(c, run.log, run.outcome.errorCount, run.batches)
    ensures run.outcome.SyncContinued? ==> PagesFollowed(c, run.log, run.outcome.command.priorErrors, run.batches)
  {
    hide PagesFollowed, PageBatches, DirectoryOk;
  }

  lemma {:induction false} OrdinaryChainFollows(d: Directory, c: SyncCommand, runs: seq<OrdinaryRun>)
    requires DirectoryOk(d) && OrdinaryChain(d, c, runs) && OrdinaryOwesNothing(c)
    ensures KnownCursor(d.chain, c.userCursor) && runs[|runs| - 1].outcome.SyncReturned?
    ensures PageBatches(d, c, PositionOf(d.chain, c.userCursor), OrdinaryBatches(runs))
    ensures PagesFollowed(c, OrdinaryLog(runs), runs[|runs| - 1].outcome.errorCount, OrdinaryBatches(runs))
    decreases |runs|
  {
    hide *;
    OrdinaryHead(d, c, runs);
    OrdinaryParts(runs);
    var run := runs[0];
    RunPages(d, c, run);
    if |runs| > 1 {
      var next, rest := run.outcome.command, runs[1..];
      OrdinaryNext(d, c, run);
      OrdinaryChainFollows(d, next, rest);
      PagesFollowedJoins(c, next, runs[|runs| - 1].outcome.errorCount, run.log, OrdinaryLog(rest), run.batches,
                         OrdinaryBatches(rest));
      PageBatchesJoin(d, c, next, PositionOf(d.chain, c.userCursor), run.batches, OrdinaryBatches(rest));
    }
  }

  /**
   The same for an ordinary sync, page by page over the whole directory, where whoever did not finish
   cleanly fails.
   */
  lemma OrdinarySyncFollowsOutcomes(d: Directory, c: SyncCommand, runs: seq<OrdinaryRun>)
    requires DirectoryOk(d) && FreshSync(c) && OrdinaryChain(d, c, runs)
    ensures var log, last := OrdinaryLog(runs), runs[|runs| - 1].outcome; var batches := OrdinaryBatches(runs);
            && PageBatches(d, c, 0, batches)
            && log.failed == HandedOver(log.remediations) == PagesFailed(batches)
            && log.completed == Fated(batches, Completes)
            && last.SyncReturned? && last.failed == |PagesFailed(batches)|
            && last.completed == |Fated(batches, Completes)|
            && last.errorCount == c.priorErrors + PagesErrors(batches)
  {
    assert OrdinaryOwesNothing(c) && PositionOf(d.chain, c.userCursor) == 0;
    hide OrdinaryChain, OrdinaryLog, OrdinaryBatches, DirectoryOk, FreshSync, Fated, PagesFailed, PagesErrors;
    hide HandedOver, PageBatches;
    OrdinaryChainFollows(d, c, runs);
    OrdinarySyncIsComplete(d, c, runs);
  }
}
