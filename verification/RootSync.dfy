/** The root sync workflow: round scheduling, ordinary page barriers and remediation starts. */
module RootSync {
  import opened Collections
  import opened ResourcePages
  import opened RootSyncModel

  // ---- specifications ----

  predicate StateOk(d: Directory, s: RoundState) {
    KnownCursor(d.chain, s.nextUserCursor)
  }

  function Pages(d: Directory, s: RoundState): nat
    requires StateOk(d, s)
  {
    ListedPages(d, s.nextUserCursor, s.exhausted)
  }

  function StartOf(c: SyncCommand): RoundState {
    if c.roundState.Some? then c.roundState.value else RoundState([], [], c.userCursor, 0, false, [])
  }

  function Window(c: SyncCommand): nat {
    Max(1, c.window)
  }

  /** Refilling only appends listed users at the back of the queue `active + buffered`. */
  ghost predicate Refilled(d: Directory, s: RoundState, t: RoundState)
    requires DirectoryOk(d)
  {
    && StateOk(d, s) && StateOk(d, t) && Pages(d, s) <= Pages(d, t)
    && t.active + t.buffered == s.active + s.buffered + Listed(d, Pages(d, s), Pages(d, t))
    && t.roundNumber == s.roundNumber && t.failedKeys == s.failedKeys
  }

  /** The window is full, or there is nobody left to schedule. */
  predicate Filled(s: RoundState, window: nat) {
    |s.active| >= window || (s.buffered == [] && s.exhausted)
  }

  /** Everyone scheduled or listed is active, buffered, completed or failed, each exactly once. */
  ghost predicate Conserved(d: Directory, s: RoundState, t: RoundState, log: Log)
    requires DirectoryOk(d)
  {
    && StateOk(d, s) && StateOk(d, t) && Pages(d, s) <= Pages(d, t)
    && multiset(KeysOf(s.active + s.buffered + Listed(d, Pages(d, s), Pages(d, t))))
       == multiset(KeysOf(t.active + t.buffered)) + multiset(log.completed) + multiset(log.failed)
  }

  function HandedOver(rs: seq<Remediation>): seq<Key> {
    if rs == [] then [] else HandedOver(rs[..|rs| - 1]) + rs[|rs| - 1].failedKeys
  }

  /** Remediations of rounds lo up to hi, at most one each, in round order. */
  ghost predicate OfRounds(rs: seq<Remediation>, lo: nat, hi: nat) {
    && (forall i :: 0 <= i < |rs| ==> rs[i].partition.RoundPartition? && lo <= rs[i].partition.round < hi)
    && (forall i, j :: 0 <= i < j < |rs| ==> rs[i].partition.round < rs[j].partition.round)
  }

  /** Failed users a command carries; they are handed over once more only when no earlier run did. */
  function Carried(c: SyncCommand): seq<Key> {
    ExtendSample([], c.failedKeys + StartOf(c).failedKeys, FAILED_USER_SAMPLE_LIMIT)
  }

  function LegacyStart(c: SyncCommand): seq<Remediation> {
    if Carried(c) != [] && !c.failedRemediated && c.hasController
    then [Remediation(LegacyRound(StartOf(c).roundNumber), Carried(c))] else []
  }

  /** Each failure of the run was handed over exactly once, in order, by the remediation of its round. */
  ghost predicate HandedOverOk(c: SyncCommand, t: RoundState, log: Log) {
    && log.legacy == LegacyStart(c)
    && OfRounds(log.remediations, StartOf(c).roundNumber, t.roundNumber) && StartOf(c).roundNumber <= t.roundNumber
    && HandedOver(log.remediations) == log.failed
  }

  /** The command for the next run; `attempt` and the samples are what the run ended with. */
  function Continuation(c: SyncCommand, t: RoundState, log: Log, attempt: nat, sample: seq<Key>, errors: int,
                        remediated: bool): SyncCommand {
    c.(roundState := Some(t.(failedKeys := sample)), failedKeys := sample, failedRemediated := remediated,
       priorErrors := errors, userPageAttempt := attempt,
       priorCompleted := Max(0, c.priorCompleted) + |log.completed|,
       priorFailed := Max(0, c.priorFailed) + |log.failed|,
       remediations := c.remediations + |log.legacy| + |log.remediations|)
  }

  function RemediatedAfter(c: SyncCommand, log: Log): bool {
    c.failedRemediated || Carried(c) == [] || log.legacy != [] || log.remediations != []
  }

  ghost predicate RoundOk(d: Directory, c: SyncCommand, outcome: SyncOutcome, t: RoundState, log: Log)
    requires DirectoryOk(d)
  {
    !outcome.SyncRaised? ==>
      && Conserved(d, StartOf(c), t, log) && HandedOverOk(c, t, log)
      && |t.active| <= Max(|StartOf(c).active|, Window(c))
      && (outcome.SyncReturned? ==>
            && t.active == [] && t.buffered == [] && t.exhausted
            && outcome.completed == Max(0, c.priorCompleted) + |log.completed|
            && outcome.failed == Max(0, c.priorFailed) + |log.failed|
            && ErrorsMatch(c.priorErrors, outcome.errorCount, log.failed)
            && (outcome.partial <==> outcome.errorCount != 0)
            && |outcome.failedSample| <= 100)
      && (outcome.SyncContinued? ==>
            var next := outcome.command;
            && next == Continuation(c, t, log, next.userPageAttempt, next.failedKeys, next.priorErrors,
                                    RemediatedAfter(c, log))
            && |next.failedKeys| <= 100 && ErrorsMatch(c.priorErrors, next.priorErrors, log.failed))
  }

  // ---- what a run asked for and whom it ran ----

  /** The users of one round, or of one page, and what became of the child of each. */
  datatype Batch = Batch(round: nat, users: seq<Key>, outcomes: seq<UserOutcome>)

  /** The permit requests for listing users, and the rounds run, in order. */
  datatype Activity = Activity(requests: seq<Request>, batches: seq<Batch>)

  /** The users of some batches with one fate, in order. */
  function Fated(batches: seq<Batch>, fate: Fate): seq<Key> {
    if batches == [] then []
    else
      var last := batches[|batches| - 1];
      Fated(batches[..|batches| - 1], fate) + Among(last.users, last.outcomes, fate)
  }

  function BatchErrors(batches: seq<Batch>): int {
    if batches == [] then 0
    else BatchErrors(batches[..|batches| - 1]) + ErrorSum(batches[|batches| - 1].outcomes)
  }

  /** What was logged and counted so far follows the outcomes of the children. */
  ghost predicate Followed(c: SyncCommand, log: Log, errors: int, batches: seq<Batch>) {
    && log.failed == Fated(batches, Fails) && log.completed == Fated(batches, Completes)
    && errors == c.priorErrors + BatchErrors(batches)
  }

  ghost predicate OutcomesOk(c: SyncCommand, outcome: SyncOutcome, log: Log, batches: seq<Batch>) {
    && (outcome.SyncReturned? ==>
          Followed(c, log, outcome.errorCount, batches) && outcome.failedSample == Sampled(Carried(c), log.failed))
    && (outcome.SyncContinued? ==>
          && Followed(c, log, outcome.command.priorErrors, batches)
          && outcome.command.failedKeys == StartOf(outcome.command).failedKeys == Sampled(Carried(c), log.failed)
          && outcome.command.remediations == c.remediations + |log.legacy| + |log.remediations|
          && outcome.command.hasController == c.hasController)
    && (outcome.SyncOngoing? ==> exists errors :: Followed(c, log, errors, batches))
  }

  lemma FollowsOneMore(c: SyncCommand, before: Log, log: Log, errors: int, more: int, batches: seq<Batch>, b: Batch)
    requires Followed(c, before, errors, batches)
    requires log.failed == before.failed + Among(b.users, b.outcomes, Fails)
    requires log.completed == before.completed + Among(b.users, b.outcomes, Completes)
    requires more == errors + ErrorSum(b.outcomes)
    ensures Followed(c, log, more, batches + [b])
  {
    assert (batches + [b])[..|batches|] == batches;
    hide Among, ErrorSum;
  }

  lemma ContinuedErrors(c: SyncCommand, t: RoundState, log: Log, attempt: nat, sample: seq<Key>, errors: int,
                        remediated: bool, batches: seq<Batch>)
    requires Followed(c, log, errors, batches) && sample == Sampled(Carried(c), log.failed)
    ensures OutcomesOk(c, SyncContinued(Continuation(c, t, log, attempt, sample, errors, remediated)), log, batches)
  {
    hide Fated, BatchErrors, Sampled, Carried;
  }

  lemma MoreSampled(start: seq<Key>, before: Log, log: Log, failed: seq<Key>, sample: seq<Key>, more: seq<Key>)
    requires sample == Sampled(start, before.failed) && more == Sampled(sample, failed)
    requires log.failed == before.failed + failed
    ensures more == Sampled(start, log.failed)
  {
    SampledJoins(start, before.failed, failed);
  }

  /** The first run of a sync starts at the cursor of its command, in round 0, with nobody scheduled. */
  lemma RunStartsAt(c: SyncCommand)
    ensures var s := StartOf(c);
            if c.roundState.Some? then s == c.roundState.value
            else
              && s.active == [] && s.buffered == [] && s.nextUserCursor == c.userCursor && s.roundNumber == 0
              && !s.exhausted && s.failedKeys == []
    ensures Window(c) == if c.window < 1 then 1 else c.window
  {
  }

  /** Listing requests in strictly increasing order, from `lo` on and before `hi`. */
  ghost predicate Asked(p: Provider, lo: Request, hi: Request, requests: seq<Request>) {
    Ascending(requests, lo, hi) && !Before(hi, lo) && RequestsWithin(p, requests)
  }

  lemma AskedJoins(p: Provider, lo: Request, mid: Request, hi: Request, a: seq<Request>, b: seq<Request>)
    requires Asked(p, lo, mid, a) && Asked(p, mid, hi, b)
    ensures Asked(p, lo, hi, a + b)
  {
    AscendingAppend(a, b, lo, mid, hi);
    hide Ascending;
  }

  /** Asking for one page again and again ends with the page, or with a later attempt at it. */
  lemma AskedMore(p: Provider, lo: Request, position: nat, attempt: nat, requests: seq<Request>, n: nat)
    requires Asked(p, lo, Request(position, attempt), requests) && position < PageCount(p) && n > 0
    ensures var all := requests + Attempts(position, attempt, n);
            Asked(p, lo, Request(position + 1, 0), all) && Asked(p, lo, Request(position, attempt + n), all)
  {
    var more := Attempts(position, attempt, n);
    assert Asked(p, Request(position, attempt), Request(position + 1, 0), more);
    assert Asked(p, Request(position, attempt), Request(position, attempt + n), more);
    hide *;
    AskedJoins(p, lo, Request(position, attempt), Request(position + 1, 0), requests, more);
    AskedJoins(p, lo, Request(position, attempt), Request(position, attempt + n), requests, more);
  }

  /** The next thing a run does with this state is to list a page. */
  predicate MustList(s: RoundState, window: nat) {
    |s.active| < window && s.buffered == [] && !s.exhausted
  }

  /** A carried attempt belongs to a page that the run lists at once. */
  predicate CarriesAttempt(c: SyncCommand) {
    c.userPageAttempt == 0 || MustList(StartOf(c), Window(c))
  }

  /** Everyone who is scheduled or still to be listed. */
  function Everyone(d: Directory, s: RoundState): seq<Key>
    requires DirectoryOk(d) && StateOk(d, s)
  {
    KeysOf(s.active + s.buffered + Listed(d, Pages(d, s), |d.pages|))
  }

  /** One batch for each round from that of `s` on, each of users that `s` has to account for. */
  ghost predicate BatchesOk(d: Directory, s: RoundState, round: nat, batches: seq<Batch>)
    requires DirectoryOk(d) && StateOk(d, s)
  {
    && round == s.roundNumber + |batches|
    && forall i :: 0 <= i < |batches| ==>
         batches[i].round == s.roundNumber + i && multiset(batches[i].users) <= multiset(Everyone(d, s))
  }

  ghost predicate ActivityOk(d: Directory, c: SyncCommand, outcome: SyncOutcome, t: RoundState, done: Activity)
    requires DirectoryOk(d)
  {
    !outcome.SyncRaised? ==>
      && StateOk(d, StartOf(c)) && StateOk(d, t) && BatchesOk(d, StartOf(c), t.roundNumber, done.batches)
      && (CarriesAttempt(c) ==>
            var attempt := if outcome.SyncContinued? then outcome.command.userPageAttempt else 0;
            && Asked(d.chain, Request(Pages(d, StartOf(c)), c.userPageAttempt), Request(Pages(d, t), attempt),
                     done.requests)
            && (outcome.SyncContinued? ==> CarriesAttempt(outcome.command)))
  }

  /** Conservation seen from the users: nobody is scheduled who was not to be accounted for. */
  lemma ActiveAmongEveryone(d: Directory, s: RoundState, t: RoundState, log: Log)
    requires DirectoryOk(d) && Conserved(d, s, t, log)
    ensures multiset(KeysOf(t.active)) <= multiset(Everyone(d, s))
    ensures multiset(log.failed) <= multiset(Everyone(d, s)) && multiset(Everyone(d, t)) <= multiset(Everyone(d, s))
  {
    var i, j, n := Pages(d, s), Pages(d, t), |d.pages|;
    hide Listed, KeysOf, StateOk, Pages, Distinct;
    ListedJoins(d, i, j, n);
    assert s.active + s.buffered + Listed(d, i, n) == (s.active + s.buffered + Listed(d, i, j)) + Listed(d, j, n);
    KeysJoin(s.active + s.buffered + Listed(d, i, j), Listed(d, j, n));
    KeysJoin(t.active + t.buffered, Listed(d, j, n));
    KeysJoin(t.active, t.buffered);
  }

  lemma BatchAppended(d: Directory, s: RoundState, batches: seq<Batch>, t: RoundState, log: Log, os: seq<UserOutcome>)
    requires DirectoryOk(d) && Conserved(d, s, t, log) && BatchesOk(d, s, t.roundNumber, batches)
    ensures BatchesOk(d, s, t.roundNumber + 1, batches + [Batch(t.roundNumber, KeysOf(t.active), os)])
  {
    ActiveAmongEveryone(d, s, t, log);
    hide DirectoryOk, Conserved, Everyone, KeysOf, StateOk;
  }

  /** The attempt carried into the run, if any, has been used up. */
  predicate AttemptSpent(c: SyncCommand, attempt: nat) {
    CarriesAttempt(c) ==> attempt == 0
  }

  /** Where a run is between two rounds. */
  ghost predicate Reached(d: Directory, c: SyncCommand, t: RoundState, log: Log, attempt: nat, done: Activity)
    requires DirectoryOk(d)
  {
    && StateOk(d, StartOf(c)) && StateOk(d, t)
    && Conserved(d, StartOf(c), t, log) && HandedOverOk(c, t, log)
    && |t.active| <= Max(|StartOf(c).active|, Window(c))
    && BatchesOk(d, StartOf(c), t.roundNumber, done.batches)
    && Asked(d.chain, Request(Pages(d, StartOf(c)), c.userPageAttempt), Request(Pages(d, t), attempt), done.requests)
  }

  lemma RunStarts(d: Directory, c: SyncCommand, t: RoundState, log: Log, attempt: nat, requests: seq<Request>)
    requires DirectoryOk(d) && StateOk(d, StartOf(c)) && Refilled(d, StartOf(c), t) && StateOk(d, t)
    requires |t.active| <= Max(|StartOf(c).active|, Window(c)) && log == Log([], [], LegacyStart(c), [])
    requires Asked(d.chain, Request(Pages(d, StartOf(c)), c.userPageAttempt), Request(Pages(d, t), attempt), requests)
    ensures Reached(d, c, t, log, attempt, Activity(requests, [])) && HandedOverOk(c, t, log)
    ensures ErrorsMatch(c.priorErrors, c.priorErrors, log.failed)
    ensures RemediatedAfter(c, log) == (c.failedRemediated || Carried(c) == [] || log.legacy != [])
    ensures (c.userPageAttempt == 0 || MustList(StartOf(c), Window(c)) ==> attempt == 0) ==> AttemptSpent(c, attempt)
  {
    StartsConserved(d, c, t, log);
    NoBatches(d, StartOf(c), t);
    hide DirectoryOk, Conserved, HandedOverOk, Refilled, Asked, StateOk, Pages, BatchesOk, LegacyStart, StartOf, Window;
    hide MustList, Carried, ErrorsMatch;
  }

  /** A round and the refill after it. */
  lemma RoundReached(d: Directory, c: SyncCommand, s: RoundState, before: Log, attempt: nat, done: Activity,
                     u: RoundState, log: Log, t: RoundState, next: nat, more: seq<Request>, os: seq<UserOutcome>)
    requires DirectoryOk(d) && Reached(d, c, s, before, attempt, done)
    requires Sorted(s, u, before, log) && HandedOverOk(c, u, log) && StateOk(d, u)
    requires Refilled(d, u, t) && StateOk(d, t) && |t.active| <= Max(|u.active|, Window(c))
    requires Asked(d.chain, Request(Pages(d, u), attempt), Request(Pages(d, t), next), more)
    ensures Reached(d, c, t, log, next, Activity(done.requests + more,
                                                 done.batches + [Batch(s.roundNumber, KeysOf(s.active), os)]))
    ensures HandedOverOk(c, t, log)
  {
    var start, lo := StartOf(c), Request(Pages(d, StartOf(c)), c.userPageAttempt);
    assert Reached(d, c, s, before, attempt, done) && |s.active| <= Max(|start.active|, Window(c));
    hide DirectoryOk, Conserved, HandedOverOk, Refilled, Asked, StateOk, Pages, BatchesOk;
    hide StartOf, Window, Sorted, KeysOf;
    BatchAppended(d, start, done.batches, s, before, os);
    SortedKeeps(d, start, s, u, before, log);
    RefillKeeps(d, start, u, t, log);
    RefillFrame(d, c, u, t, log);
    AskedJoins(d.chain, lo, Request(Pages(d, u), attempt), Request(Pages(d, t), next), done.requests, more);
  }

  lemma ActivityHolds(d: Directory, c: SyncCommand, outcome: SyncOutcome, t: RoundState, log: Log, attempt: nat,
                      done: Activity)
    requires DirectoryOk(d) && Reached(d, c, t, log, attempt, done)
    requires CarriesAttempt(c) ==> attempt == if outcome.SyncContinued? then outcome.command.userPageAttempt else 0
    requires outcome.SyncContinued? && CarriesAttempt(c) ==> CarriesAttempt(outcome.command)
    ensures ActivityOk(d, c, outcome, t, done)
  {
    hide DirectoryOk, StateOk, BatchesOk, Asked, CarriesAttempt, Pages, Conserved, HandedOverOk, StartOf;
  }

  lemma ContinuationCarries(c: SyncCommand, t: RoundState, log: Log, attempt: nat, sample: seq<Key>, errors: int,
                            remediated: bool)
    requires attempt == 0 || MustList(t, Window(c))
    ensures var next := Continuation(c, t, log, attempt, sample, errors, remediated);
            next.userPageAttempt == attempt && CarriesAttempt(next)
  {
  }

  lemma NoBatches(d: Directory, s: RoundState, t: RoundState)
    requires DirectoryOk(d) && Refilled(d, s, t)
    ensures BatchesOk(d, s, t.roundNumber, [])
  {
    hide DirectoryOk, Listed;
  }

  lemma NothingFollows(c: SyncCommand, log: Log)
    requires log.failed == [] && log.completed == []
    ensures Followed(c, log, c.priorErrors, []) && PagesFollowed(c, log, c.priorErrors, [])
  {
  }

  /** In ordinary mode every user that did not complete has failed. */
  function PagesFailed(batches: seq<Batch>): seq<Key> {
    if batches == [] then []
    else
      var last := batches[|batches| - 1];
      PagesFailed(batches[..|batches| - 1]) + NotCompleted(last.users, last.outcomes)
  }

  function PagesErrors(batches: seq<Batch>): int {
    if batches == [] then 0
    else PagesErrors(batches[..|batches| - 1]) + PageErrors(batches[|batches| - 1].outcomes)
  }

  ghost predicate PagesFollowed(c: SyncCommand, log: Log, errors: int, batches: seq<Batch>) {
    && log.failed == PagesFailed(batches) && log.completed == Fated(batches, Completes)
    && errors == c.priorErrors + PagesErrors(batches)
  }

  function FirstHundred(s: seq<Key>): seq<Key> {
    if |s| <= 100 then s else s[..100]
  }

  /** One batch for each page, of its valid users. */
  ghost predicate PageBatches(d: Directory, c: SyncCommand, start: nat, batches: seq<Batch>) {
    start + |batches| <= |d.pages| &&
    forall i :: 0 <= i < |batches| ==>
      && batches[i].round == c.userPagesCompleted + i && |batches[i].outcomes| == |batches[i].users|
      && batches[i].users == KeysOf(ValidUsers(d.pages[start + i]))
  }

  ghost predicate PagesOutcomesOk(
    d: Directory, c: SyncCommand, outcome: SyncOutcome, pages: nat, log: Log, batches: seq<Batch>)
    requires DirectoryOk(d) && KnownCursor(d.chain, c.userCursor)
  {
    !outcome.SyncRaised? ==>
      && |batches| == pages && PageBatches(d, c, PositionOf(d.chain, c.userCursor), batches)
      && (outcome.SyncReturned? ==>
            && PagesFollowed(c, log, outcome.errorCount, batches)
            && outcome.failedSample == Sampled(FirstHundred(c.failedKeys), log.failed))
      && (outcome.SyncContinued? ==>
            && PagesFollowed(c, log, outcome.command.priorErrors, batches)
            && outcome.command.failedKeys == Sampled(FirstHundred(c.failedKeys), log.failed)
            && outcome.command.remediations == c.remediations + |log.legacy| + |log.remediations|
            && outcome.command.hasController == c.hasController)
  }

  lemma PageFollowed(c: SyncCommand, before: Log, log: Log, errors: int, more: int, batches: seq<Batch>, b: Batch)
    requires PagesFollowed(c, before, errors, batches)
    requires log.failed == before.failed + NotCompleted(b.users, b.outcomes)
    requires log.completed == before.completed + Among(b.users, b.outcomes, Completes)
    requires more == errors + PageErrors(b.outcomes)
    ensures PagesFollowed(c, log, more, batches + [b])
  {
    assert (batches + [b])[..|batches|] == batches;
    hide Among, NotCompleted, PageErrors;
  }

  lemma PageBatchAppended(d: Directory, c: SyncCommand, start: nat, batches: seq<Batch>, b: Batch)
    requires PageBatches(d, c, start, batches) && start + |batches| < |d.pages|
    requires b.round == c.userPagesCompleted + |batches| && |b.outcomes| == |b.users|
    requires b.users == KeysOf(ValidUsers(d.pages[start + |batches|]))
    ensures PageBatches(d, c, start, batches + [b])
  {
    hide KeysOf, ValidUsers;
  }

  lemma PagesContinued(d: Directory, c: SyncCommand, cursor: Cursor, pages: nat, log: Log, attempt: nat,
                       sample: seq<Key>, errors: int, remediated: bool, batches: seq<Batch>)
    requires DirectoryOk(d) && KnownCursor(d.chain, c.userCursor) && |batches| == pages
    requires PageBatches(d, c, PositionOf(d.chain, c.userCursor), batches) && PagesFollowed(c, log, errors, batches)
    requires sample == Sampled(FirstHundred(c.failedKeys), log.failed)
    ensures var next := OrdinaryContinuation(c, cursor, pages, log, attempt, sample, errors, remediated);
            PagesOutcomesOk(d, c, SyncContinued(next), pages, log, batches)
  {
    hide PagesFailed, PagesErrors, Fated, PageBatches, DirectoryOk, Sampled, FirstHundred;
  }

  lemma PagesReturned(d: Directory, c: SyncCommand, outcome: SyncOutcome, pages: nat, log: Log, batches: seq<Batch>)
    requires DirectoryOk(d) && KnownCursor(d.chain, c.userCursor) && |batches| == pages && outcome.SyncReturned?
    requires PageBatches(d, c, PositionOf(d.chain, c.userCursor), batches)
    requires PagesFollowed(c, log, outcome.errorCount, batches)
    requires outcome.failedSample == Sampled(FirstHundred(c.failedKeys), log.failed)
    ensures PagesOutcomesOk(d, c, outcome, pages, log, batches)
  {
    hide PagesFollowed, PageBatches, DirectoryOk;
  }

  /** The permit requests an ordinary run makes for its user pages. */
  ghost predicate OrdinaryAsked(d: Directory, c: SyncCommand, outcome: SyncOutcome, pages: nat, requests: seq<Request>)
    requires DirectoryOk(d) && KnownCursor(d.chain, c.userCursor)
  {
    var start := PositionOf(d.chain, c.userCursor);
    var attempt := if outcome.SyncContinued? then outcome.command.userPageAttempt else 0;
    !outcome.SyncRaised? ==>
      Asked(d.chain, Request(start, c.userPageAttempt), Request(start + pages, attempt), requests)
  }

  // ---- ordinary mode ----

  function OrdinaryLegacy(c: SyncCommand): seq<Remediation> {
    if c.failedKeys != [] && !c.failedRemediated && c.hasController
    then [Remediation(LegacyCarried(c.userPagesCompleted), c.failedKeys)] else []
  }

  ghost predicate OfPages(rs: seq<Remediation>, lo: nat, hi: nat) {
    && (forall i :: 0 <= i < |rs| ==> rs[i].partition.OrdinaryPartition? && lo <= rs[i].partition.page < hi)
    && (forall i, j :: 0 <= i < j < |rs| ==> rs[i].partition.page < rs[j].partition.page)
  }

  /** Every user listed on pages a up to b completed or failed, each exactly once. */
  ghost predicate UsersDone(d: Directory, a: nat, b: nat, log: Log)
    requires a <= b <= |d.pages|
  {
    multiset(KeysOf(Listed(d, a, b))) == multiset(log.completed) + multiset(log.failed)
  }

  /** Each failure was handed over exactly once, in order, by the remediation of its page. */
  ghost predicate PagesHandedOver(c: SyncCommand, pages: nat, log: Log) {
    && log.legacy == OrdinaryLegacy(c)
    && OfPages(log.remediations, c.userPagesCompleted, c.userPagesCompleted + pages)
    && HandedOver(log.remediations) == log.failed
  }

  ghost predicate PagesDone(d: Directory, c: SyncCommand, pages: nat, log: Log)
    requires DirectoryOk(d) && KnownCursor(d.chain, c.userCursor)
  {
    var start := PositionOf(d.chain, c.userCursor);
    start + pages <= PageCount(d.chain) && UsersDone(d, start, start + pages, log) && PagesHandedOver(c, pages, log)
  }

  function OrdinaryContinuation(c: SyncCommand, cursor: Cursor, pages: nat, log: Log, attempt: nat, sample: seq<Key>,
                                errors: int, remediated: bool): SyncCommand {
    c.(userCursor := cursor, failedKeys := sample, failedRemediated := remediated, priorErrors := errors,
       userPageAttempt := attempt, userPagesCompleted := c.userPagesCompleted + pages,
       priorCompleted := Max(0, c.priorCompleted) + |log.completed|,
       priorFailed := Max(0, c.priorFailed) + |log.failed|,
       remediations := c.remediations + |log.legacy| + |log.remediations|)
  }

  function OrdinaryRemediated(c: SyncCommand, log: Log): bool {
    c.failedRemediated || c.failedKeys == [] || log.legacy != [] || log.remediations != []
  }

  ghost predicate OrdinaryOk(d: Directory, c: SyncCommand, outcome: SyncOutcome, pages: nat, log: Log)
    requires DirectoryOk(d) && KnownCursor(d.chain, c.userCursor)
  {
    var end := PositionOf(d.chain, c.userCursor) + pages;
    !outcome.SyncRaised? ==>
      && PagesDone(d, c, pages, log) && !outcome.SyncOngoing?
      && (outcome.SyncReturned? ==>
            && end == PageCount(d.chain)
            && outcome.completed == Max(0, c.priorCompleted) + |log.completed|
            && outcome.failed == Max(0, c.priorFailed) + |log.failed|
            && ErrorsMatch(c.priorErrors, outcome.errorCount, log.failed)
            && (outcome.partial <==> outcome.errorCount != 0)
            && |outcome.failedSample| <= 100)
      && (outcome.SyncContinued? ==>
            end < PageCount(d.chain) &&
            var next := outcome.command;
            && next == OrdinaryContinuation(c, CursorAt(d.chain, end), pages, log, next.userPageAttempt,
                                            next.failedKeys, next.priorErrors, OrdinaryRemediated(c, log))
            && |next.failedKeys| <= 100 && ErrorsMatch(c.priorErrors, next.priorErrors, log.failed))
  }

  lemma HandOverAppend(rs: seq<Remediation>, r: Remediation)
    ensures HandedOver(rs + [r]) == HandedOver(rs) + r.failedKeys
  {
    assert (rs + [r])[..|rs|] == rs;
  }

  /** The log after a page whose users were sorted into `r`. */
  function LogAfterPage(log: Log, r: Sorting, page: nat): Log {
    Log(log.completed + r.completed, log.failed + r.failed, log.legacy,
        if r.failed == [] then log.remediations
        else log.remediations + [Remediation(OrdinaryPartition(page), r.failed)])
  }

  lemma PageUsers(d: Directory, start: nat, k: nat, log: Log, r: Sorting, page: nat)
    requires start <= k < |d.pages| && UsersDone(d, start, k, log)
    requires multiset(KeysOf(ValidUsers(d.pages[k]))) == multiset(r.failed) + multiset(r.completed)
    ensures UsersDone(d, start, k + 1, LogAfterPage(log, r, page))
  {
    KeysJoin(Listed(d, start, k), ValidUsers(d.pages[k]));
    hide KeysOf, ValidUsers;
  }

  lemma PageHandOver(c: SyncCommand, pages: nat, log: Log, r: Sorting)
    requires PagesHandedOver(c, pages, log)
    ensures PagesHandedOver(c, pages + 1, LogAfterPage(log, r, c.userPagesCompleted + pages))
  {
    HandOverAppend(log.remediations, Remediation(OrdinaryPartition(c.userPagesCompleted + pages), r.failed));
    assert r.failed == [] ==> log.failed + r.failed == log.failed;
    hide HandedOver, OrdinaryLegacy;
  }

  lemma PageKeeps(d: Directory, c: SyncCommand, pages: nat, log: Log, r: Sorting)
    requires DirectoryOk(d) && KnownCursor(d.chain, c.userCursor) && PagesDone(d, c, pages, log)
    requires var k := PositionOf(d.chain, c.userCursor) + pages;
             k < PageCount(d.chain)
             && multiset(KeysOf(ValidUsers(d.pages[k]))) == multiset(r.failed) + multiset(r.completed)
    ensures PagesDone(d, c, pages + 1, LogAfterPage(log, r, c.userPagesCompleted + pages))
  {
    hide Distinct, KeysOf, ValidUsers, PositionOf, UsersDone, PagesHandedOver, LogAfterPage;
    var start := PositionOf(d.chain, c.userCursor);
    PageUsers(d, start, start + pages, log, r, c.userPagesCompleted + pages);
    PageHandOver(c, pages, log, r);
  }

  // ---- lemmas for the loops ----

  lemma RefillKeeps(d: Directory, s: RoundState, t: RoundState, u: RoundState, log: Log)
    requires DirectoryOk(d) && Conserved(d, s, t, log) && Refilled(d, t, u)
    ensures Conserved(d, s, u, log)
  {
    var a, b, c := Pages(d, s), Pages(d, t), Pages(d, u);
    hide DirectoryOk, Listed, KeysOf, StateOk, Pages;
    ListedJoins(d, a, b, c);
    assert s.active + s.buffered + Listed(d, a, c)
           == (s.active + s.buffered + Listed(d, a, b)) + Listed(d, b, c);
    KeysJoin(s.active + s.buffered + Listed(d, a, b), Listed(d, b, c));
    KeysJoin(t.active + t.buffered, Listed(d, b, c));
  }

  lemma RoundKeeps(d: Directory, s: RoundState, t: RoundState, log: Log, r: Sorting)
    requires DirectoryOk(d) && Conserved(d, s, t, log)
    requires multiset(KeysOf(t.active)) == multiset(KeysOf(r.active)) + multiset(r.failed) + multiset(r.completed)
    ensures Conserved(d, s, t.(active := r.active, roundNumber := t.roundNumber + 1),
                      log.(completed := log.completed + r.completed, failed := log.failed + r.failed))
  {
    KeysJoin(t.active, t.buffered);
    KeysJoin(r.active, t.buffered);
    hide DirectoryOk, Listed, KeysOf;
  }

  lemma RoundAppended(rs: seq<Remediation>, lo: nat, round: nat, failed: seq<Key>)
    requires OfRounds(rs, lo, round) && lo <= round
    ensures OfRounds(rs + [Remediation(RoundPartition(round), failed)], lo, round + 1) && OfRounds(rs, lo, round + 1)
  {
  }

  lemma HandOverNobody(c: SyncCommand, t: RoundState, log: Log)
    requires HandedOverOk(c, t, log)
    ensures HandedOverOk(c, t.(roundNumber := t.roundNumber + 1), log.(failed := log.failed + []))
  {
    hide LegacyStart, StartOf, OfRounds, HandedOver;
    RoundAppended(log.remediations, StartOf(c).roundNumber, t.roundNumber, []);
    assert log.failed + [] == log.failed;
  }

  lemma HandOverFailed(c: SyncCommand, t: RoundState, log: Log, failed: seq<Key>)
    requires HandedOverOk(c, t, log)
    ensures HandedOverOk(c, t.(roundNumber := t.roundNumber + 1), log.(failed := log.failed + failed,
              remediations := log.remediations + [Remediation(RoundPartition(t.roundNumber), failed)]))
  {
    hide LegacyStart, StartOf, OfRounds, HandedOver;
    RoundAppended(log.remediations, StartOf(c).roundNumber, t.roundNumber, failed);
    HandOverAppend(log.remediations, Remediation(RoundPartition(t.roundNumber), failed));
  }

  /** A round hands over its failures in one remediation, or starts none when nobody failed. */
  lemma HandOverRound(c: SyncCommand, t: RoundState, log: Log, failed: seq<Key>)
    requires HandedOverOk(c, t, log)
    ensures var next := t.(roundNumber := t.roundNumber + 1);
            && HandedOverOk(c, next, log.(failed := log.failed + failed,
                 remediations := log.remediations + [Remediation(RoundPartition(t.roundNumber), failed)]))
            && (failed == [] ==> HandedOverOk(c, next, log.(failed := log.failed + failed)))
  {
    hide *;
    HandOverNobody(c, t, log);
    HandOverFailed(c, t, log, failed);
  }

  // ---- the workflow object ----

  datatype Listing = ListedPage(users: seq<UserDescriptor>, next: Cursor) | ListingRolled(attempt: nat) | ListingRaised

  datatype RefillEnd = RefillDone | RefillRolled | RefillRaised

  class RootSyncWorkflow {
    var usersCompleted: int
    var usersFailed: int
    var activeRemediations: set<Partition>

    constructor ()
      ensures usersCompleted == 0 && usersFailed == 0 && activeRemediations == {}
    {
      usersCompleted, usersFailed, activeRemediations := 0, 0, {};
    }

    method InitializeProgress(c: SyncCommand)
      modifies this`usersCompleted, this`usersFailed
      ensures usersCompleted == Max(0, c.priorCompleted) && usersFailed == Max(0, c.priorFailed)
    {
      usersCompleted := Max(0, c.priorCompleted);
      usersFailed := Max(0, c.priorFailed);
    }

    /** Waits until few enough remediations are tracked; any of them can close first. */
    method DrainRemediations(drainAll: bool)
      modifies this`activeRemediations
      ensures activeRemediations <= old(activeRemediations)
      ensures |activeRemediations| <= if drainAll then 0 else 3
    {
      var target := if drainAll then 0 else MAX_ACTIVE_REMEDIATIONS - 1;
      while |activeRemediations| > target
        invariant activeRemediations <= old(activeRemediations)
        decreases |activeRemediations|
      {
        var first :| first in activeRemediations;
        var done: set<Partition> :| first in done && done <= activeRemediations;
        SubsetSize(activeRemediations - done, activeRemediations - {first});
        activeRemediations := activeRemediations - done;
      }
    }

    /** Makes room, starts a detached remediation and tracks it; starting or registering it can raise. */
    method StartRemediation(failedKeys: seq<Key>, partition: Partition) returns (started: bool, raised: bool)
      requires |activeRemediations| <= MAX_ACTIVE_REMEDIATIONS
      modifies this`activeRemediations
      ensures |activeRemediations| <= 4
      ensures started <==> failedKeys != [] && !raised
      ensures started ==> partition in activeRemediations
    {
      if failedKeys == [] {
        return false, false;
      }
      DrainRemediations(false);
      var ok: bool := *;
      if !ok {
        return false, true;
      }
      activeRemediations := activeRemediations + {partition};
      return true, false;
    }

    /** Lists one page of users, with a new permit request for each "quota exhausted" answer. */
    method ListUsers(d: Directory, cursor: Cursor, first: nat) returns (r: Listing, requests: seq<Request>)
      requires DirectoryOk(d) && KnownCursor(d.chain, cursor)
      ensures requests != [] && requests == Attempts(PositionOf(d.chain, cursor), first, |requests|)
      ensures r.ListedPage? ==>
                r.users == d.pages[PositionOf(d.chain, cursor)]
                && r.next == NextCursor(d.chain, PositionOf(d.chain, cursor))
      ensures r.ListingRolled? ==> r.attempt == first + |requests|
    {
      var position := PositionOf(d.chain, cursor);
      var attempt := first;
      var exhausted: nat := *;
      requests := [];
      while true
        invariant attempt == first + |requests|
        invariant requests == Attempts(position, first, |requests|)
        decreases exhausted
      {
        requests := requests + [Request(position, attempt)];
        var ok: bool := *;
        if !ok {
          return ListingRaised, requests;
        }
        if exhausted == 0 {
          return ListedPage(d.pages[position], NextCursor(d.chain, position)), requests;
        }
        exhausted := exhausted - 1;
        attempt := attempt + 1;
        var suggested: bool := *;
        if suggested {
          return ListingRolled(attempt), requests;
        }
      }
    }

    /** Moves buffered users, oldest first, into the active ones until the window is full. */
    method FillFromBuffer(s: RoundState, window: nat) returns (t: RoundState)
      ensures t == s.(active := t.active, buffered := t.buffered)
      ensures t.active + t.buffered == s.active + s.buffered
      ensures |t.active| >= window || t.buffered == []
      ensures |t.active| <= Max(|s.active|, window)
    {
      var active, buffered := s.active, s.buffered;
      while buffered != [] && |active| < window
        invariant active + buffered == s.active + s.buffered
        invariant |active| <= Max(|s.active|, window)
        decreases |buffered|
      {
        assert active + buffered == (active + [buffered[0]]) + buffered[1..];
        active := active + [buffered[0]];
        buffered := buffered[1..];
      }
      t := s.(active := active, buffered := buffered);
    }

    method RefillRoundUsers(d: Directory, window: nat, s: RoundState, first: nat)
      returns (t: RoundState, attempt: nat, how: RefillEnd, requests: seq<Request>)
      requires DirectoryOk(d) && StateOk(d, s) && window > 0
      ensures Refilled(d, s, t) && |t.active| <= Max(|s.active|, window)
      ensures how.RefillDone? ==> |t.active| >= window || (t.buffered == [] && t.exhausted)
      ensures how.RefillDone? ==> Filled(t, window) && (first == 0 || MustList(s, window) ==> attempt == 0)
      ensures how.RefillRolled? ==> MustList(t, window)
      ensures !how.RefillRaised? ==>
                StateOk(d, t) && Asked(d.chain, Request(Pages(d, s), first), Request(Pages(d, t), attempt), requests)
    {
      hide DirectoryOk, Listed, Asked, Attempts, Pages;
      t, attempt, requests := s, first, [];
      RefilledNothing(d, s);
      NothingAsked(d, s, first);
      while |t.active| < window
        invariant Refilled(d, s, t) && StateOk(d, t) && |t.active| <= Max(|s.active|, window)
        invariant Asked(d.chain, Request(Pages(d, s), first), Request(Pages(d, t), attempt), requests)
        invariant attempt == 0 || (attempt == first && (MustList(s, window) ==> MustList(t, window)))
        decreases PageCount(d.chain) - Pages(d, t), !t.exhausted
      {
        var u := FillFromBuffer(t, window);
        SameQueue(d, s, t, u);
        t := u;
        if |t.active| >= window || t.exhausted {
          break;
        }
        var r, more := ListUsers(d, t.nextUserCursor, attempt);
        ListedNext(d, s, first, t, attempt, requests, |more|);
        requests := requests + more;
        if r.ListingRaised? {
          how := RefillRaised;
          return;
        }
        if r.ListingRolled? {
          attempt, how := r.attempt, RefillRolled;
          return;
        }
        attempt := 0;
        var v := t.(buffered := t.buffered + ValidUsers(r.users), nextUserCursor := r.next, exhausted := r.next.None?);
        ListedOneMore(d, s, t, v);
        t := v;
        if t.buffered == [] && t.exhausted {
          break;
        }
      }
      how := RefillDone;
    }

    /** Awaits a batch of user children; each returns or raises. */
    method JoinUserBatch(users: seq<UserCursor>) returns (results: seq<UserOutcome>)
      ensures |results| == |users|
    {
      results := [];
      while |results| < |users|
        invariant |results| <= |users|
      {
        var o: UserOutcome := *;
        results := results + [o];
      }
    }

    /** Sorts the results of a round, counting and sampling as it goes. */
    method SortResults(users: seq<UserCursor>, results: seq<UserOutcome>, pageSlice: int, before: seq<Key>)
      returns (r: Sorting, sample: seq<Key>)
      requires |users| == |results| && |before| <= FAILED_USER_SAMPLE_LIMIT
      modifies this`usersCompleted, this`usersFailed
      ensures r == SortRound(users, results, pageSlice) && |sample| <= FAILED_USER_SAMPLE_LIMIT
      ensures sample == Sampled(before, r.failed)
      ensures usersCompleted == old(usersCompleted) + |r.completed|
      ensures usersFailed == old(usersFailed) + |r.failed|
    {
      hide Incomplete, ErrorsOf, ExtendSample;
      r, sample := Sorting([], [], [], 0), before;
      assert users[..0] == [] && results[..0] == [];
      for i := 0 to |users|
        invariant r == SortRound(users[..i], results[..i], pageSlice) && |sample| <= FAILED_USER_SAMPLE_LIMIT
        invariant sample == Sampled(before, r.failed)
        invariant usersCompleted == old(usersCompleted) + |r.completed|
        invariant usersFailed == old(usersFailed) + |r.failed|
      {
        assert users[..i + 1][..i] == users[..i] && results[..i + 1][..i] == results[..i];
        var user, result := users[i], results[i];
        if Incomplete(result) {
          OneMoreSampled(before, r.failed, user.user);
          r := r.(failed := r.failed + [user.user], errors := r.errors + ErrorsOf(result));
          SampleIsBounded(sample, [user.user], FAILED_USER_SAMPLE_LIMIT);
          sample := ExtendSample(sample, [user.user], FAILED_USER_SAMPLE_LIMIT);
          usersFailed := usersFailed + 1;
        } else {
          NotRaised(result);
          if result.result.finished {
            r := r.(completed := r.completed + [user.user]);
            usersCompleted := usersCompleted + 1;
          } else {
            r := r.(active := r.active + [NextSlice(user, result.result, pageSlice)]);
          }
        }
      }
      assert users[..|users|] == users && results[..|users|] == results;
    }

    /** The start of a round-mode run: carried failures that no run has remediated are handed over. */
    method HandOverCarried(c: SyncCommand, sample: seq<Key>)
      returns (legacy: seq<Remediation>, remediated: bool, raised: bool)
      requires sample == Carried(c) && activeRemediations == {}
      modifies this`activeRemediations
      ensures |activeRemediations| <= MAX_ACTIVE_REMEDIATIONS
      ensures !raised ==> legacy == LegacyStart(c)
      ensures !raised ==> remediated == (c.failedRemediated || sample == [] || legacy != [])
    {
      hide ExtendSample;
      legacy, remediated, raised := [], c.failedRemediated || sample == [], false;
      if sample != [] && !c.failedRemediated && c.hasController {
        var partition := LegacyRound(StartOf(c).roundNumber);
        var started, failed := StartRemediation(sample, partition);
        raised := failed;
        if started {
          remediated := true;
          legacy := [Remediation(partition, sample)];
        }
      }
    }

    /**
     One round: every active user runs one slice, the results are sorted, and the users that failed
     are handed to one remediation.
     */
    method RunRound(c: SyncCommand, s: RoundState, before: Log, sampleBefore: seq<Key>, errorsBefore: int)
      returns (t: RoundState, log: Log, sample: seq<Key>, errors: int, raised: bool, results: seq<UserOutcome>)
      requires HandedOverOk(c, s, before) && |sampleBefore| <= FAILED_USER_SAMPLE_LIMIT
      requires ErrorsMatch(c.priorErrors, errorsBefore, before.failed)
      requires usersCompleted == Max(0, c.priorCompleted) + |before.completed|
      requires usersFailed == Max(0, c.priorFailed) + |before.failed|
      requires |activeRemediations| <= MAX_ACTIVE_REMEDIATIONS
      modifies this
      ensures |activeRemediations| <= MAX_ACTIVE_REMEDIATIONS && |sample| <= FAILED_USER_SAMPLE_LIMIT
      ensures !raised ==>
                && HandedOverOk(c, t, log) && ErrorsMatch(c.priorErrors, errors, log.failed)
                && usersCompleted == Max(0, c.priorCompleted) + |log.completed|
                && usersFailed == Max(0, c.priorFailed) + |log.failed|
                && Sorted(s, t, before, log)
      ensures |results| == |s.active|
      ensures !raised ==>
                && log.failed == before.failed + Among(KeysOf(s.active), results, Fails)
                && log.completed == before.completed + Among(KeysOf(s.active), results, Completes)
                && t.active == GoingOn(s.active, results, c.pageSlice) && errors == errorsBefore + ErrorSum(results)
                && sample == Sampled(sampleBefore, Among(KeysOf(s.active), results, Fails))
    {
      results := JoinUserBatch(s.active);
      var r;
      r, sample := SortResults(s.active, results, c.pageSlice, sampleBefore);
      SortKeepsUsers(s.active, results, c.pageSlice);
      SortFollowsOutcomes(s.active, results, c.pageSlice);
      hide SortRound, HandedOverOk, KeysOf, Among, GoingOn, ErrorSum;
      errors := errorsBefore + r.errors;
      ErrorsAdd(c.priorErrors, errorsBefore, r.errors, before.failed, r.failed);
      raised := false;
      t := s.(active := r.active, roundNumber := s.roundNumber + 1);
      log := before.(completed := before.completed + r.completed, failed := before.failed + r.failed);
      HandOverRound(c, s, before, r.failed);
      IgnoresActive(c, s.(roundNumber := s.roundNumber + 1), t, log);
      if r.failed != [] {
        var partition := RoundPartition(s.roundNumber);
        var started, failed := StartRemediation(r.failed, partition);
        raised := failed;
        log := log.(remediations := before.remediations + [Remediation(partition, r.failed)]);
        IgnoresActive(c, s.(roundNumber := s.roundNumber + 1), t, log);
      }
      assert SortedInto(s, t, before, log, r);
    }

    method RoundMode(d: Directory, c: SyncCommand)
      returns (outcome: SyncOutcome, t: RoundState, log: Log, done: Activity)
      requires DirectoryOk(d) && StateOk(d, StartOf(c)) && activeRemediations == {}
      modifies this
      ensures RoundOk(d, c, outcome, t, log) && ActivityOk(d, c, outcome, t, done)
      ensures OutcomesOk(c, outcome, log, done.batches)
      ensures |activeRemediations| <= MAX_ACTIVE_REMEDIATIONS
    {
      hide DirectoryOk, StateOk, Pages, StartOf, Window, Filled, MustList, KeysOf, ExtendSample, Carried, LegacyStart;
      hide Refilled, Asked, Reached, HandedOverOk, Sorted, RoundOk, ActivityOk, Continuation;
      hide RemediatedAfter, ErrorsMatch, Followed, Among, ErrorSum, GoingOn;
      InitializeProgress(c);
      var s := StartOf(c);
      var sample := ExtendSample([], c.failedKeys + s.failedKeys, FAILED_USER_SAMPLE_LIMIT);
      SampleIsBounded([], c.failedKeys + s.failedKeys, FAILED_USER_SAMPLE_LIMIT);
      CarriedSample(c);
      var errors := c.priorErrors;
      t, log, done := s, Log([], [], [], []), Activity([], []);
      var legacy, remediated, raised := HandOverCarried(c, sample);
      if raised {
        SyncRaisedOk(d, c, t, log);
        return SyncRaised, t, log, done;
      }
      log := log.(legacy := legacy);
      var attempt: nat, how, more;
      t, attempt, how, more := RefillRoundUsers(d, Window(c), s, c.userPageAttempt);
      done := Activity(more, []);
      if how.RefillRaised? {
        SyncRaisedOk(d, c, t, log);
        return SyncRaised, t, log, done;
      }
      RunStarts(d, c, t, log, attempt, more);
      NothingFollows(c, log);
      if how.RefillRolled? {
        RolledOk(d, c, t, log, attempt, sample, errors, done);
        ContinuedErrors(c, t, log, attempt, sample, errors, remediated, done.batches);
        return SyncContinued(Continuation(c, t, log, attempt, sample, errors, remediated)), t, log, done;
      }
      var budget: nat := *;
      while t.active != []
        invariant |activeRemediations| <= MAX_ACTIVE_REMEDIATIONS && |sample| <= FAILED_USER_SAMPLE_LIMIT
        invariant Reached(d, c, t, log, attempt, done) && HandedOverOk(c, t, log) && StateOk(d, t)
        invariant Filled(t, Window(c)) && AttemptSpent(c, attempt)
        invariant ErrorsMatch(c.priorErrors, errors, log.failed) && Followed(c, log, errors, done.batches)
        invariant sample == Sampled(Carried(c), log.failed)
        invariant usersCompleted == Max(0, c.priorCompleted) + |log.completed|
        invariant usersFailed == Max(0, c.priorFailed) + |log.failed|
        invariant remediated == RemediatedAfter(c, log)
        decreases budget
      {
        if budget == 0 {
          // A run observed before it ends: users may go on needing further slices.
          OngoingOk(d, c, t, log, attempt, done);
          return SyncOngoing, t, log, done;
        }
        budget := budget - 1;
        ghost var errorsBefore, sampleBefore := errors, sample;
        var u, logAfter, results;
        u, logAfter, sample, errors, raised, results := RunRound(c, t, log, sample, errors);
        var batch := Batch(t.roundNumber, KeysOf(t.active), results);
        var batches := done.batches + [batch];
        if raised {
          SyncRaisedOk(d, c, u, logAfter);
          return SyncRaised, u, logAfter, Activity(done.requests, batches);
        }
        RoundFrame(d, c, t, u, log, logAfter);
        FollowsOneMore(c, log, logAfter, errorsBefore, errors, done.batches, batch);
        MoreSampled(Carried(c), log, logAfter, Among(KeysOf(t.active), results, Fails), sampleBefore, sample);
        if |logAfter.remediations| > |log.remediations| {
          remediated := true;
        }
        ghost var before, logBefore, attemptBefore := t, log, attempt;
        log := logAfter;
        t, attempt, how, more := RefillRoundUsers(d, Window(c), u, attempt);
        if how.RefillRaised? {
          SyncRaisedOk(d, c, t, log);
          return SyncRaised, t, log, Activity(done.requests, batches);
        }
        RoundReached(d, c, before, logBefore, attemptBefore, done, u, log, t, attempt, more, results);
        done := Activity(done.requests + more, batches);
        if how.RefillRolled? {
          RolledOk(d, c, t, log, attempt, sample, errors, done);
          ContinuedErrors(c, t, log, attempt, sample, errors, remediated, done.batches);
          return SyncContinued(Continuation(c, t, log, attempt, sample, errors, remediated)), t, log, done;
        }
        var suggested: bool := *;
        if suggested && (t.active != [] || t.buffered != [] || !t.exhausted) {
          DrainRemediations(true);
          SuggestedOk(d, c, t, log, attempt, sample, errors, done);
          ContinuedErrors(c, t, log, 0, sample, errors, remediated, done.batches);
          return SyncContinued(Continuation(c, t, log, 0, sample, errors, remediated)), t, log, done;
        }
      }
      outcome := SyncReturned(usersCompleted, usersFailed, sample, errors, errors != 0);
      ReturnedOk(d, c, outcome, t, log, attempt, done);
    }

    method HandOverOrdinaryCarried(c: SyncCommand)
      returns (legacy: seq<Remediation>, remediated: bool, raised: bool)
      requires activeRemediations == {}
      modifies this`activeRemediations
      ensures |activeRemediations| <= MAX_ACTIVE_REMEDIATIONS
      ensures !raised ==> legacy == OrdinaryLegacy(c)
      ensures !raised ==> remediated == (c.failedRemediated || c.failedKeys == [] || legacy != [])
    {
      legacy, remediated, raised := [], c.failedRemediated || c.failedKeys == [], false;
      if c.failedKeys != [] && !c.failedRemediated && c.hasController {
        var partition := LegacyCarried(c.userPagesCompleted);
        var started, failed := StartRemediation(c.failedKeys, partition);
        raised := failed;
        if started {
          remediated := true;
          legacy := [Remediation(partition, c.failedKeys)];
        }
      }
    }

    /** All users of one page run to their end; those that did not finish are handed over together. */
    method RunPage(c: SyncCommand, users: seq<UserCursor>, page: nat, before: Log, sampleBefore: seq<Key>)
      returns (r: Sorting, log: Log, sample: seq<Key>, raised: bool, results: seq<UserOutcome>)
      requires |sampleBefore| <= FAILED_USER_SAMPLE_LIMIT && |activeRemediations| <= MAX_ACTIVE_REMEDIATIONS
      modifies this
      ensures |activeRemediations| <= MAX_ACTIVE_REMEDIATIONS && |sample| <= FAILED_USER_SAMPLE_LIMIT
      ensures log == LogAfterPage(before, r, page)
      ensures usersCompleted == old(usersCompleted) + |r.completed| && usersFailed == old(usersFailed) + |r.failed|
      ensures multiset(KeysOf(users)) == multiset(r.failed) + multiset(r.completed)
      ensures ErrorsMatch(0, r.errors, r.failed) && |results| == |users|
      ensures r.failed == NotCompleted(KeysOf(users), results) && r.errors == PageErrors(results)
      ensures r.completed == Among(KeysOf(users), results, Completes) && sample == Sampled(sampleBefore, r.failed)
    {
      hide SortRound, PageOutcomes, Among, NotCompleted, PageErrors, ErrorSum;
      results := JoinUserBatch(users);
      SortFollowsOutcomes(users, PageOutcomes(results), 0);
      PageFollowsOutcomes(KeysOf(users), results);
      PageLeavesNoneActive(users, results, 0);
      SortKeepsUsers(users, PageOutcomes(results), 0);
      r, sample := SortResults(users, PageOutcomes(results), 0, sampleBefore);
      assert multiset(KeysOf(r.active)) == multiset{};
      log := LogAfterPage(before, r, page);
      raised := false;
      if r.failed != [] {
        var started, failed := StartRemediation(r.failed, OrdinaryPartition(page));
        raised := failed;
      }
    }

    method Ordinary(d: Directory, c: SyncCommand)
      returns (outcome: SyncOutcome, pages: nat, log: Log, requests: seq<Request>, batches: seq<Batch>)
      requires DirectoryOk(d) && KnownCursor(d.chain, c.userCursor) && activeRemediations == {}
      modifies this
      ensures OrdinaryOk(d, c, outcome, pages, log) && OrdinaryAsked(d, c, outcome, pages, requests)
      ensures PagesOutcomesOk(d, c, outcome, pages, log, batches)
      ensures |activeRemediations| <= MAX_ACTIVE_REMEDIATIONS
    {
      HundredSampled(c);
      hide *;
      InitializeProgress(c);
      ghost var start := PositionOf(d.chain, c.userCursor);
      var sample :=
        if |c.failedKeys| <= FAILED_USER_SAMPLE_LIMIT then c.failedKeys else c.failedKeys[..FAILED_USER_SAMPLE_LIMIT];
      var errors := c.priorErrors;
      var cursor, attempt := c.userCursor, c.userPageAttempt;
      pages, log, requests, batches := 0, Log([], [], [], []), [], [];
      var legacy, remediated, raised := HandOverOrdinaryCarried(c);
      if raised {
        OrdinaryRaisedOk(d, c, pages, log, requests);
        return SyncRaised, pages, log, requests, batches;
      }
      log := log.(legacy := legacy);
      NoPagesDone(d, c, log);
      NothingFollows(c, log);
      NoPageBatches(d, c, start);
      while true
        invariant start + pages < PageCount(d.chain) && cursor == CursorAt(d.chain, start + pages)
        invariant PagesDone(d, c, pages, log) && |sample| <= FAILED_USER_SAMPLE_LIMIT
        invariant |activeRemediations| <= MAX_ACTIVE_REMEDIATIONS && ErrorsMatch(c.priorErrors, errors, log.failed)
        invariant usersCompleted == Max(0, c.priorCompleted) + |log.completed|
        invariant usersFailed == Max(0, c.priorFailed) + |log.failed|
        invariant remediated == OrdinaryRemediated(c, log)
        invariant |batches| == pages && PageBatches(d, c, start, batches) && PagesFollowed(c, log, errors, batches)
        invariant sample == Sampled(FirstHundred(c.failedKeys), log.failed)
        invariant Asked(d.chain, Request(start, c.userPageAttempt), Request(start + pages, attempt), requests)
        decreases PageCount(d.chain) - start - pages
      {
        CursorPosition(d, start + pages);
        var listing, more := ListUsers(d, cursor, attempt);
        AskedMore(d.chain, Request(start, c.userPageAttempt), start + pages, attempt, requests, |more|);
        requests := requests + more;
        if listing.ListingRaised? {
          OrdinaryRaisedOk(d, c, pages, log, requests);
          return SyncRaised, pages, log, requests, batches;
        }
        if listing.ListingRolled? {
          OrdinaryContinuedOk(d, c, pages, log, listing.attempt, sample, errors, requests);
          outcome := SyncContinued(
            OrdinaryContinuation(c, cursor, pages, log, listing.attempt, sample, errors, remediated));
          PagesContinued(d, c, cursor, pages, log, listing.attempt, sample, errors, remediated, batches);
          return;
        }
        attempt := 0;
        ghost var before := log;
        ghost var errorsBefore, sampleBefore := errors, sample;
        var users := ValidUsers(listing.users);
        var r, results;
        r, log, sample, raised, results := RunPage(c, users, c.userPagesCompleted + pages, log, sample);
        ErrorsAdd(c.priorErrors, errors, r.errors, before.failed, r.failed);
        errors := errors + r.errors;
        if raised {
          OrdinaryRaisedOk(d, c, pages, log, requests);
          return SyncRaised, pages, log, requests, batches;
        }
        PageKeeps(d, c, pages, before, r);
        PageLog(c, before, r, c.userPagesCompleted + pages);
        var batch := Batch(c.userPagesCompleted + pages, KeysOf(users), results);
        MoreSampled(FirstHundred(c.failedKeys), before, log, r.failed, sampleBefore, sample);
        PageFollowed(c, before, log, errorsBefore, errors, batches, batch);
        PageBatchAppended(d, c, start, batches, batch);
        batches := batches + [batch];
        if r.failed != [] {
          remediated := true;
        }
        pages := pages + 1;
        cursor := listing.next;
        if cursor.None? {
          LastPage(d, start + pages);
          outcome := SyncReturned(usersCompleted, usersFailed, sample, errors, errors != 0);
          OrdinaryReturnedOk(d, c, outcome, pages, log, requests);
          PagesReturned(d, c, outcome, pages, log, batches);
          return;
        }
        LastPage(d, start + pages);
        var suggested: bool := *;
        if suggested {
          DrainRemediations(true);
          OrdinaryContinuedOk(d, c, pages, log, 0, sample, errors, requests);
          outcome := SyncContinued(OrdinaryContinuation(c, cursor, pages, log, 0, sample, errors, remediated));
          PagesContinued(d, c, cursor, pages, log, 0, sample, errors, remediated, batches);
          return;
        }
      }
    }
  }

  lemma CursorPosition(d: Directory, k: nat)
    requires DirectoryOk(d) && k < PageCount(d.chain)
    ensures KnownCursor(d.chain, CursorAt(d.chain, k)) && PositionOf(d.chain, CursorAt(d.chain, k)) == k
    ensures k < |d.pages|
  {
    PositionIsUnique(d.chain, k);
  }

  /** The next cursor is missing exactly on the last page. */
  lemma LastPage(d: Directory, k: nat)
    requires 0 < k <= PageCount(d.chain)
    ensures NextCursor(d.chain, k - 1).None? <==> k == PageCount(d.chain)
    ensures k < PageCount(d.chain) ==> NextCursor(d.chain, k - 1) == CursorAt(d.chain, k)
  {
  }

  lemma PageLog(c: SyncCommand, before: Log, r: Sorting, page: nat)
    ensures var log := LogAfterPage(before, r, page);
            && log.failed == before.failed + r.failed && |log.failed| == |before.failed| + |r.failed|
            && log.completed == before.completed + r.completed
            && |log.completed| == |before.completed| + |r.completed|
            && OrdinaryRemediated(c, log) == (OrdinaryRemediated(c, before) || r.failed != [])
  {
  }

  lemma HundredSampled(c: SyncCommand)
    ensures (if |c.failedKeys| <= FAILED_USER_SAMPLE_LIMIT then c.failedKeys
             else c.failedKeys[..FAILED_USER_SAMPLE_LIMIT]) == Sampled(FirstHundred(c.failedKeys), [])
    ensures |FirstHundred(c.failedKeys)| <= FAILED_USER_SAMPLE_LIMIT
  {
  }

  lemma NoPageBatches(d: Directory, c: SyncCommand, start: nat)
    requires DirectoryOk(d) && start <= PageCount(d.chain)
    ensures PageBatches(d, c, start, [])
  {
  }

  lemma NoPagesDone(d: Directory, c: SyncCommand, log: Log)
    requires DirectoryOk(d) && KnownCursor(d.chain, c.userCursor) && log == Log([], [], OrdinaryLegacy(c), [])
    ensures var start := PositionOf(d.chain, c.userCursor);
            Asked(d.chain, Request(start, c.userPageAttempt), Request(start, c.userPageAttempt), [])
    ensures PagesDone(d, c, 0, log) && ErrorsMatch(c.priorErrors, c.priorErrors, log.failed)
    ensures OrdinaryRemediated(c, log) == (c.failedRemediated || c.failedKeys == [] || log.legacy != [])
  {
  }

  lemma OrdinaryRaisedOk(d: Directory, c: SyncCommand, pages: nat, log: Log, requests: seq<Request>)
    requires DirectoryOk(d) && KnownCursor(d.chain, c.userCursor)
    ensures OrdinaryOk(d, c, SyncRaised, pages, log) && OrdinaryAsked(d, c, SyncRaised, pages, requests)
    ensures forall batches :: PagesOutcomesOk(d, c, SyncRaised, pages, log, batches)
  {
    hide DirectoryOk, PagesDone;
  }

  lemma OrdinaryContinuedOk(
    d: Directory, c: SyncCommand, pages: nat, log: Log, attempt: nat, sample: seq<Key>, errors: int,
    requests: seq<Request>)
    requires DirectoryOk(d) && KnownCursor(d.chain, c.userCursor) && PagesDone(d, c, pages, log)
    requires PositionOf(d.chain, c.userCursor) + pages < PageCount(d.chain)
    requires |sample| <= FAILED_USER_SAMPLE_LIMIT && ErrorsMatch(c.priorErrors, errors, log.failed)
    requires Asked(d.chain, Request(PositionOf(d.chain, c.userCursor), c.userPageAttempt),
                   Request(PositionOf(d.chain, c.userCursor) + pages, attempt), requests)
    ensures var end := PositionOf(d.chain, c.userCursor) + pages;
            var next := OrdinaryContinuation(c, CursorAt(d.chain, end), pages, log, attempt, sample, errors,
                                             OrdinaryRemediated(c, log));
            && OrdinaryOk(d, c, SyncContinued(next), pages, log)
            && OrdinaryAsked(d, c, SyncContinued(next), pages, requests)
  {
    var end := PositionOf(d.chain, c.userCursor) + pages;
    var next := OrdinaryContinuation(c, CursorAt(d.chain, end), pages, log, attempt, sample, errors,
                                     OrdinaryRemediated(c, log));
    assert next.userPageAttempt == attempt && next.failedKeys == sample && next.priorErrors == errors;
    hide PagesDone, OrdinaryContinuation, OrdinaryRemediated, Asked, PositionOf, ErrorsMatch, KnownCursor;
    hide DirectoryOk;
    assert OrdinaryOk(d, c, SyncContinued(next), pages, log);
  }

  lemma OrdinaryReturnedOk(d: Directory, c: SyncCommand, outcome: SyncOutcome, pages: nat, log: Log,
                           requests: seq<Request>)
    requires DirectoryOk(d) && KnownCursor(d.chain, c.userCursor) && PagesDone(d, c, pages, log)
    requires PositionOf(d.chain, c.userCursor) + pages == PageCount(d.chain) && outcome.SyncReturned?
    requires outcome.completed == Max(0, c.priorCompleted) + |log.completed|
    requires outcome.failed == Max(0, c.priorFailed) + |log.failed|
    requires ErrorsMatch(c.priorErrors, outcome.errorCount, log.failed)
    requires outcome.partial <==> outcome.errorCount != 0
    requires |outcome.failedSample| <= FAILED_USER_SAMPLE_LIMIT
    requires Asked(d.chain, Request(PositionOf(d.chain, c.userCursor), c.userPageAttempt),
                   Request(PositionOf(d.chain, c.userCursor) + pages, 0), requests)
    ensures OrdinaryOk(d, c, outcome, pages, log) && OrdinaryAsked(d, c, outcome, pages, requests)
  {
    hide DirectoryOk, PagesDone, Asked;
  }

  /** `t` and `log` are `s` and `before` after a round: its active users were sorted three ways. */
  ghost predicate SortedInto(s: RoundState, t: RoundState, before: Log, log: Log, r: Sorting) {
    && t == s.(active := r.active, roundNumber := s.roundNumber + 1)
    && log.completed == before.completed + r.completed && log.failed == before.failed + r.failed
    && log.legacy == before.legacy
    && multiset(KeysOf(s.active)) == multiset(KeysOf(r.active)) + multiset(r.failed) + multiset(r.completed)
    && |r.active| <= |s.active|
    && before.remediations <= log.remediations && |log.remediations| <= |before.remediations| + 1
  }

  ghost predicate Sorted(s: RoundState, t: RoundState, before: Log, log: Log) {
    exists r :: SortedInto(s, t, before, log, r)
  }

  lemma SortedKeeps(d: Directory, start: RoundState, s: RoundState, t: RoundState, before: Log, log: Log)
    requires DirectoryOk(d) && Conserved(d, start, s, before) && Sorted(s, t, before, log)
    ensures Conserved(d, start, t, log) && StateOk(d, t) && |t.active| <= |s.active|
    ensures StateOk(d, s) && Pages(d, t) == Pages(d, s) && t.roundNumber == s.roundNumber + 1
    ensures log.legacy == before.legacy && |before.remediations| <= |log.remediations|
  {
    var r :| SortedInto(s, t, before, log, r);
    hide DirectoryOk, KeysOf;
    RoundKeeps(d, start, s, before, r);
  }

  /** What was handed over does not depend on who is still scheduled. */
  lemma IgnoresActive(c: SyncCommand, s: RoundState, t: RoundState, log: Log)
    requires t.roundNumber == s.roundNumber
    ensures HandedOverOk(c, s, log) <==> HandedOverOk(c, t, log)
  {
  }

  lemma RefillFrame(d: Directory, c: SyncCommand, s: RoundState, t: RoundState, log: Log)
    requires DirectoryOk(d) && Refilled(d, s, t) && HandedOverOk(c, s, log)
    ensures HandedOverOk(c, t, log) && StateOk(d, t) && t.roundNumber == s.roundNumber
  {
    hide DirectoryOk, Listed, HandedOverOk;
    IgnoresActive(c, s, t, log);
  }

  lemma StartsConserved(d: Directory, c: SyncCommand, t: RoundState, log: Log)
    requires DirectoryOk(d) && Refilled(d, StartOf(c), t) && log == Log([], [], LegacyStart(c), [])
    ensures Conserved(d, StartOf(c), t, log) && HandedOverOk(c, t, log) && StateOk(d, t)
    ensures ErrorsMatch(c.priorErrors, c.priorErrors, log.failed)
    ensures RemediatedAfter(c, log) == (c.failedRemediated || Carried(c) == [] || log.legacy != [])
  {
    hide DirectoryOk, Listed, LegacyStart, StartOf, Carried;
  }

  lemma SyncRaisedOk(d: Directory, c: SyncCommand, t: RoundState, log: Log)
    requires DirectoryOk(d)
    ensures RoundOk(d, c, SyncRaised, t, log) && forall done :: ActivityOk(d, c, SyncRaised, t, done)
  {
    hide DirectoryOk;
  }

  lemma OngoingOk(d: Directory, c: SyncCommand, t: RoundState, log: Log, attempt: nat, done: Activity)
    requires DirectoryOk(d) && Reached(d, c, t, log, attempt, done) && AttemptSpent(c, attempt)
    ensures RoundOk(d, c, SyncOngoing, t, log) && ActivityOk(d, c, SyncOngoing, t, done)
  {
    ActivityHolds(d, c, SyncOngoing, t, log, attempt, done);
    hide DirectoryOk, Conserved, HandedOverOk, ActivityOk, BatchesOk, Asked, StateOk, Pages, StartOf, Window;
  }

  lemma ContinuedOk(d: Directory, c: SyncCommand, t: RoundState, log: Log, attempt: nat, sample: seq<Key>, errors: int)
    requires DirectoryOk(d) && Conserved(d, StartOf(c), t, log) && HandedOverOk(c, t, log)
    requires |t.active| <= Max(|StartOf(c).active|, Window(c))
    requires |sample| <= FAILED_USER_SAMPLE_LIMIT && ErrorsMatch(c.priorErrors, errors, log.failed)
    ensures var next := Continuation(c, t, log, attempt, sample, errors, RemediatedAfter(c, log));
            RoundOk(d, c, SyncContinued(next), t, log)
  {
    var next := Continuation(c, t, log, attempt, sample, errors, RemediatedAfter(c, log));
    assert next.userPageAttempt == attempt && next.failedKeys == sample && next.priorErrors == errors;
    hide DirectoryOk, Conserved, HandedOverOk, Continuation, RemediatedAfter, ErrorsMatch;
  }

  /** A run that rolled over while listing must list that page at once in the next run too. */
  lemma RolledOk(d: Directory, c: SyncCommand, t: RoundState, log: Log, attempt: nat, sample: seq<Key>, errors: int,
                 done: Activity)
    requires DirectoryOk(d) && Reached(d, c, t, log, attempt, done) && MustList(t, Window(c))
    requires |sample| <= FAILED_USER_SAMPLE_LIMIT && ErrorsMatch(c.priorErrors, errors, log.failed)
    ensures var next := Continuation(c, t, log, attempt, sample, errors, RemediatedAfter(c, log));
            RoundOk(d, c, SyncContinued(next), t, log) && ActivityOk(d, c, SyncContinued(next), t, done)
  {
    assert Conserved(d, StartOf(c), t, log) && HandedOverOk(c, t, log);
    assert |t.active| <= Max(|StartOf(c).active|, Window(c));
    hide *;
    ContinuedOk(d, c, t, log, attempt, sample, errors);
    ContinuationCarries(c, t, log, attempt, sample, errors, RemediatedAfter(c, log));
    var next := Continuation(c, t, log, attempt, sample, errors, RemediatedAfter(c, log));
    ActivityHolds(d, c, SyncContinued(next), t, log, attempt, done);
  }

  /** Continuing as new between rounds drops the attempt, which no page needs any more. */
  lemma SuggestedOk(d: Directory, c: SyncCommand, t: RoundState, log: Log, attempt: nat, sample: seq<Key>, errors: int,
                    done: Activity)
    requires DirectoryOk(d) && Reached(d, c, t, log, attempt, done) && AttemptSpent(c, attempt)
    requires |sample| <= FAILED_USER_SAMPLE_LIMIT && ErrorsMatch(c.priorErrors, errors, log.failed)
    ensures var next := Continuation(c, t, log, 0, sample, errors, RemediatedAfter(c, log));
            RoundOk(d, c, SyncContinued(next), t, log) && ActivityOk(d, c, SyncContinued(next), t, done)
  {
    assert Conserved(d, StartOf(c), t, log) && HandedOverOk(c, t, log);
    assert |t.active| <= Max(|StartOf(c).active|, Window(c));
    assert CarriesAttempt(c) ==> attempt == 0;
    hide *;
    ContinuedOk(d, c, t, log, 0, sample, errors);
    ContinuationCarries(c, t, log, 0, sample, errors, RemediatedAfter(c, log));
    var next := Continuation(c, t, log, 0, sample, errors, RemediatedAfter(c, log));
    ActivityHolds(d, c, SyncContinued(next), t, log, attempt, done);
  }

  lemma ReturnedOk(d: Directory, c: SyncCommand, outcome: SyncOutcome, t: RoundState, log: Log, attempt: nat,
                   done: Activity)
    requires DirectoryOk(d) && Reached(d, c, t, log, attempt, done) && AttemptSpent(c, attempt)
    requires t.active == [] && Filled(t, Window(c)) && outcome.SyncReturned?
    requires outcome.completed == Max(0, c.priorCompleted) + |log.completed|
    requires outcome.failed == Max(0, c.priorFailed) + |log.failed|
    requires ErrorsMatch(c.priorErrors, outcome.errorCount, log.failed)
    requires outcome.partial <==> outcome.errorCount != 0
    requires |outcome.failedSample| <= FAILED_USER_SAMPLE_LIMIT
    ensures RoundOk(d, c, outcome, t, log) && ActivityOk(d, c, outcome, t, done)
  {
    ActivityHolds(d, c, outcome, t, log, attempt, done);
    hide DirectoryOk, Conserved, HandedOverOk, ActivityOk, BatchesOk, Asked, StateOk, Pages, StartOf;
  }

  lemma CarriedSample(c: SyncCommand)
    ensures Carried(c) == ExtendSample([], c.failedKeys + StartOf(c).failedKeys, FAILED_USER_SAMPLE_LIMIT)
    ensures Window(c) > 0
  {
  }

  lemma RoundFrame(d: Directory, c: SyncCommand, s: RoundState, t: RoundState, before: Log, log: Log)
    requires Sorted(s, t, before, log) && StateOk(d, s)
    ensures StateOk(d, t) && |t.active| <= |s.active| && |before.remediations| <= |log.remediations|
    ensures RemediatedAfter(c, log)
            == (RemediatedAfter(c, before) || |log.remediations| > |before.remediations|)
  {
    hide Carried, KeysOf;
  }

  lemma NotRaised(o: UserOutcome)
    requires !Incomplete(o)
    ensures o.UserReturned?
  {
  }

  lemma RefilledNothing(d: Directory, s: RoundState)
    requires DirectoryOk(d) && StateOk(d, s)
    ensures Refilled(d, s, s)
  {
  }

  lemma SameQueue(d: Directory, s: RoundState, t: RoundState, u: RoundState)
    requires DirectoryOk(d) && Refilled(d, s, t)
    requires u == t.(active := u.active, buffered := u.buffered) && u.active + u.buffered == t.active + t.buffered
    ensures Refilled(d, s, u) && StateOk(d, u) && Pages(d, u) == Pages(d, t)
  {
    hide Listed;
  }

  lemma NothingAsked(d: Directory, s: RoundState, first: nat)
    requires DirectoryOk(d) && StateOk(d, s)
    ensures Asked(d.chain, Request(Pages(d, s), first), Request(Pages(d, s), first), [])
  {
  }

  lemma ListedNext(d: Directory, s: RoundState, first: nat, t: RoundState, attempt: nat, requests: seq<Request>, n: nat)
    requires DirectoryOk(d) && StateOk(d, s) && StateOk(d, t) && !t.exhausted && n > 0
    requires Asked(d.chain, Request(Pages(d, s), first), Request(Pages(d, t), attempt), requests)
    ensures var position := PositionOf(d.chain, t.nextUserCursor);
            var lo, all := Request(Pages(d, s), first), requests + Attempts(position, attempt, n);
            && Pages(d, t) == position
            && Asked(d.chain, lo, Request(position + 1, 0), all)
            && Asked(d.chain, lo, Request(position, attempt + n), all)
  {
    var position := PositionOf(d.chain, t.nextUserCursor);
    assert Pages(d, t) == position;
    hide Asked, PositionOf, Attempts;
    AskedMore(d.chain, Request(Pages(d, s), first), position, attempt, requests, n);
  }

  lemma ListedOneMore(d: Directory, s: RoundState, t: RoundState, u: RoundState)
    requires DirectoryOk(d) && Refilled(d, s, t) && !t.exhausted
    requires var k := PositionOf(d.chain, t.nextUserCursor); var next := NextCursor(d.chain, k);
             u == t.(buffered := t.buffered + ValidUsers(d.pages[k]), nextUserCursor := next, exhausted := next.None?)
    ensures Refilled(d, s, u) && Pages(d, t) == PositionOf(d.chain, t.nextUserCursor)
    ensures Pages(d, u) == Pages(d, t) + 1
  {
    var k := PositionOf(d.chain, t.nextUserCursor);
    if k + 1 < PageCount(d.chain) {
      PositionIsUnique(d.chain, k + 1);
      assert CursorAt(d.chain, k + 1) == NextCursor(d.chain, k);
    }
    hide PositionOf, ValidUsers, Distinct;
    assert u.active + u.buffered == (t.active + t.buffered) + ValidUsers(d.pages[k]);
  }
}
