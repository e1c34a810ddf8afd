/**
 The root sync on values: users listed page by page, scheduled in rounds or per page, and failed
 users handed to remediation.
 */
module RootSyncModel {
  import opened Collections
  import opened ResourcePages
  import opened UserSync
  import UserSlices

  const FAILED_USER_SAMPLE_LIMIT: nat := 100
  const MAX_ACTIVE_REMEDIATIONS: nat := 4

  datatype UserDescriptor = UserDescriptor(user: Key, valid: bool)

  /** The active users: `pages[i]` is fetched with the chain's cursor i. */
  datatype Directory = Directory(chain: Provider, pages: seq<seq<UserDescriptor>>)

  ghost predicate DirectoryOk(d: Directory) {
    |d.pages| == PageCount(d.chain) && Distinct(d.chain.marks)
  }

  /** A scheduled user and where its next slice starts. */
  datatype UserCursor = UserCursor(
    user: Key, cursor: Cursor, cursors: map<Key, Cursor>, cursorOrder: seq<Key>, completed: seq<Key>,
    pagesCompleted: int)

  datatype RoundState = RoundState(
    active: seq<UserCursor>, buffered: seq<UserCursor>, nextUserCursor: Cursor, roundNumber: nat,
    exhausted: bool, failedKeys: seq<Key>)

  datatype SyncCommand = SyncCommand(
    userCursor: Cursor, roundState: Option<RoundState>, window: int, pageSlice: int, hasController: bool,
    failedKeys: seq<Key>, failedRemediated: bool, priorErrors: int, userPageAttempt: nat,
    priorCompleted: int, priorFailed: int, userPagesCompleted: nat, remediations: nat)

  /** Hashed remediation IDs differ exactly when their partitions do. */
  datatype Partition =
    | OrdinaryPartition(page: nat)
    | RoundPartition(round: nat)
    | LegacyCarried(page: nat)
    | LegacyRound(round: nat)

  datatype Remediation = Remediation(partition: Partition, failedKeys: seq<Key>)

  datatype UserOutcome = UserReturned(result: UserResult) | UserRaised

  /** What a run did, in order: users completed and failed, and remediations started for them. */
  datatype Log = Log(completed: seq<Key>, failed: seq<Key>, legacy: seq<Remediation>, remediations: seq<Remediation>)

  datatype SyncOutcome =
    | SyncReturned(completed: int, failed: int, failedSample: seq<Key>, errorCount: int, partial: bool)
    | SyncContinued(command: SyncCommand)
    | SyncRaised
    | SyncOngoing

  // ---- users and pages ----

  function ValidUsers(page: seq<UserDescriptor>): seq<UserCursor> {
    if page == [] then []
    else
      var last := page[|page| - 1];
      ValidUsers(page[..|page| - 1]) + (if last.valid then [UserCursor(last.user, None, map[], [], [], 0)] else [])
  }

  /** The valid users of pages a up to b, in listing order. */
  function Listed(d: Directory, a: nat, b: nat): seq<UserCursor>
    requires a <= b <= |d.pages|
  {
    if a == b then [] else Listed(d, a, b - 1) + ValidUsers(d.pages[b - 1])
  }

  function KeysOf(us: seq<UserCursor>): (r: seq<Key>)
    ensures |r| == |us|
  {
    seq(|us|, i requires 0 <= i < |us| => us[i].user)
  }

  lemma KeysJoin(a: seq<UserCursor>, b: seq<UserCursor>)
    ensures KeysOf(a + b) == KeysOf(a) + KeysOf(b)
  {
  }

  lemma {:induction false} ListedJoins(d: Directory, a: nat, b: nat, c: nat)
    requires a <= b <= c <= |d.pages|
    ensures Listed(d, a, c) == Listed(d, a, b) + Listed(d, b, c)
  {
    if b < c {
      ListedJoins(d, a, b, c - 1);
    }
  }

  /** How many pages have been listed. */
  function ListedPages(d: Directory, cursor: Cursor, exhausted: bool): nat
    requires KnownCursor(d.chain, cursor)
  {
    if exhausted then PageCount(d.chain) else PositionOf(d.chain, cursor)
  }

  // ---- samples ----

  function AddNew(target: seq<Key>, values: seq<Key>): seq<Key> {
    if values == [] then target
    else
      var t := AddNew(target, values[..|values| - 1]);
      if values[|values| - 1] in t then t else t + [values[|values| - 1]]
  }

  function ExtendSample(target: seq<Key>, values: seq<Key>, limit: nat): seq<Key> {
    var remaining := Max(0, limit - |target|);
    if remaining == 0 then target else AddNew(target, values[..Min(remaining, |values|)])
  }

  lemma {:induction false} AddNewSize(target: seq<Key>, values: seq<Key>)
    ensures |target| <= |AddNew(target, values)| <= |target| + |values|
  {
    if values != [] { AddNewSize(target, values[..|values| - 1]); }
  }

  /** A sample never outgrows its limit. */
  lemma SampleIsBounded(target: seq<Key>, values: seq<Key>, limit: nat)
    requires |target| <= limit
    ensures |ExtendSample(target, values, limit)| <= limit
  {
    AddNewSize(target, values[..Min(Max(0, limit - |target|), |values|)]);
  }

  /** What a sample gains: the values it has room for that are new to it, each once and in order. */
  lemma {:induction false} AddsNewValues(target: seq<Key>, values: seq<Key>, unknown: set<Key>)
    requires forall x :: x in values ==> (x in unknown <==> x !in target)
    ensures AddNew(target, values) == target + FirstOccurrences(values, unknown)
  {
    if values == [] {
      assert target + [] == target;
    } else {
      var n := |values| - 1;
      var before := FirstOccurrences(values[..n], unknown);
      AddsNewValues(target, values[..n], unknown);
      FirstOccurrencesElements(values[..n], unknown);
      assert values[n] in values;
      assert values[n] in target + before <==> values[n] !in unknown || values[n] in values[..n];
      assert (target + before) + [values[n]] == target + (before + [values[n]]);
      assert before + [] == before;
    }
  }

  lemma SampleExactly(target: seq<Key>, values: seq<Key>, limit: nat)
    ensures var room := if |target| >= limit then 0 else limit - |target|;
            var taken := if room >= |values| then values else values[..room];
            ExtendSample(target, values, limit)
            == target + FirstOccurrences(taken, Elements(taken) - Elements(target))
  {
    var room := if |target| >= limit then 0 else limit - |target|;
    var taken := if room >= |values| then values else values[..room];
    assert values[..|values|] == values;
    if room == 0 {
      assert taken == [];
      assert target + [] == target;
    } else {
      AddsNewValues(target, taken, Elements(taken) - Elements(target));
    }
  }

  /** A sample of at most a hundred failed users after further failures, one after another. */
  function Sampled(start: seq<Key>, failed: seq<Key>): seq<Key> {
    if failed == [] then start
    else
      var t := Sampled(start, failed[..|failed| - 1]);
      if failed[|failed| - 1] in t || |t| >= 100 then t else t + [failed[|failed| - 1]]
  }

  lemma OneMoreSampled(start: seq<Key>, failed: seq<Key>, x: Key)
    ensures Sampled(start, failed + [x]) == ExtendSample(Sampled(start, failed), [x], FAILED_USER_SAMPLE_LIMIT)
  {
    assert (failed + [x])[..|failed|] == failed;
    var t := Sampled(start, failed);
    assert AddNew(t, [x]) == if x in t then t else t + [x] by {
      assert [x][..0] == [] && AddNew(t, [x][..0]) == t;
    }
    assert [x][..1] == [x];
    assert (failed + [x])[|failed + [x]| - 1] == x;
    assert Sampled(start, failed + [x]) == if x in t || |t| >= 100 then t else t + [x];
  }

  lemma {:induction false} SampledJoins(start: seq<Key>, a: seq<Key>, b: seq<Key>)
    ensures Sampled(start, a + b) == Sampled(Sampled(start, a), b)
  {
    if b == [] {
      assert a + b == a;
    } else {
      var n := |b| - 1;
      assert (a + b)[..|a + b| - 1] == a + b[..n];
      SampledJoins(start, a, b[..n]);
    }
  }

  lemma {:induction false} SampledStaysGood(start: seq<Key>, failed: seq<Key>)
    requires Distinct(start) && |start| <= 100
    ensures Distinct(Sampled(start, failed)) && |Sampled(start, failed)| <= 100
  {
    if failed != [] {
      var t := Sampled(start, failed[..|failed| - 1]);
      SampledStaysGood(start, failed[..|failed| - 1]);
      if failed[|failed| - 1] !in t {
        DistinctAppend(t, failed[|failed| - 1]);
      }
    }
  }

  /** From nothing, it is the first hundred different ones. */
  lemma {:induction false} SampledIsFirstHundred(failed: seq<Key>, all: set<Key>)
    requires forall x :: x in failed ==> x in all
    ensures var different := FirstOccurrences(failed, all);
            Sampled([], failed) == if |different| <= 100 then different else different[..100]
  {
    if failed != [] {
      var n := |failed| - 1;
      SampledIsFirstHundred(failed[..n], all);
      FirstOccurrencesElements(failed[..n], all);
      assert failed[n] in all;
    }
  }

  lemma SampleOfNothing(values: seq<Key>)
    ensures var taken := if |values| <= 100 then values else values[..100];
            ExtendSample([], values, FAILED_USER_SAMPLE_LIMIT) == FirstOccurrences(taken, Elements(taken))
  {
    var taken := if |values| <= 100 then values else values[..100];
    var nobody: seq<Key> := [];
    SampleExactly(nobody, values, 100);
    assert Elements(taken) - Elements(nobody) == Elements(taken);
    assert nobody + FirstOccurrences(taken, Elements(taken)) == FirstOccurrences(taken, Elements(taken));
    hide ExtendSample, FirstOccurrences;
  }

  lemma SampleFromNothing(values: seq<Key>)
    ensures var r := ExtendSample([], values, FAILED_USER_SAMPLE_LIMIT); Distinct(r) && |r| <= 100
  {
    var taken := if |values| <= 100 then values else values[..100];
    SampleOfNothing(values);
    SampleIsBounded([], values, FAILED_USER_SAMPLE_LIMIT);
    FirstOccurrencesElements(taken, Elements(taken));
    hide ExtendSample, FirstOccurrences, Distinct;
  }

  /** A carried sample, which the next run reads twice, is itself again. */
  lemma SampleCarries(sample: seq<Key>)
    requires Distinct(sample) && |sample| <= 100
    ensures ExtendSample([], sample + sample, FAILED_USER_SAMPLE_LIMIT) == sample
  {
    var more := if 2 * |sample| <= 100 then sample else sample[..100 - |sample|];
    var taken := if |sample + sample| <= 100 then sample + sample else (sample + sample)[..100];
    assert taken == sample + more;
    assert forall x :: x in more ==> x in sample;
    hide ExtendSample, FirstOccurrences, Distinct;
    SampleOfNothing(sample + sample);
    RepeatsAddNothing(sample, more, Elements(taken));
  }

  lemma {:induction false} RepeatsAddNothing(s: seq<Key>, more: seq<Key>, all: set<Key>)
    requires Distinct(s) && (forall x :: x in more ==> x in s) && forall x :: x in s ==> x in all
    ensures FirstOccurrences(s + more, all) == s
  {
    if more != [] {
      var n := |more| - 1;
      assert (s + more)[..|s + more| - 1] == s + more[..n];
      assert more[n] in more && more[n] in s + more[..n];
      RepeatsAddNothing(s, more[..n], all);
    } else {
      assert s + more == s;
      FirstOccurrencesOfListing(s, Elements(s));
      FirstOccurrencesGrow(s, Elements(s), all);
    }
  }

  lemma {:induction false} FirstOccurrencesGrow(s: seq<Key>, xs: set<Key>, ys: set<Key>)
    requires forall x :: x in s ==> x in xs && x in ys
    ensures FirstOccurrences(s, xs) == FirstOccurrences(s, ys)
  {
    if s != [] {
      FirstOccurrencesGrow(s[..|s| - 1], xs, ys);
    }
  }

  // ---- the valid users of a page ----

  /** A user that starts from the beginning of all its resources. */
  predicate Starting(u: UserCursor) {
    u.cursor.None? && u.cursors == map[] && u.cursorOrder == [] && u.completed == [] && u.pagesCompleted == 0
  }

  /** How often a page lists a user as valid. */
  function ValidCount(page: seq<UserDescriptor>, k: Key): nat {
    if page == [] then 0
    else ValidCount(page[1..], k) + (if page[0].valid && page[0].user == k then 1 else 0)
  }

  lemma {:induction false} ValidUsersJoin(a: seq<UserDescriptor>, b: seq<UserDescriptor>)
    ensures ValidUsers(a + b) == ValidUsers(a) + ValidUsers(b)
  {
    if b == [] {
      assert a + b == a;
    } else {
      var n := |b| - 1;
      assert (a + b)[..|a + b| - 1] == a + b[..n];
      ValidUsersJoin(a, b[..n]);
    }
  }

  lemma OneUser(x: UserDescriptor)
    ensures |ValidUsers([x])| == if x.valid then 1 else 0
    ensures x.valid ==> ValidUsers([x])[0].user == x.user && Starting(ValidUsers([x])[0])
  {
    assert [x][..0] == [];
  }

  /**
   A page yields its valid users and nobody else: each as often as it is listed, starting from the
   beginning, and those of an earlier part of the page before those of a later part.
   */
  lemma {:induction false} ValidUsersExactly(page: seq<UserDescriptor>, k: Key)
    ensures forall u :: u in ValidUsers(page) ==> Starting(u)
    ensures multiset(KeysOf(ValidUsers(page)))[k] == ValidCount(page, k)
    ensures forall i :: 0 <= i <= |page| ==> ValidUsers(page) == ValidUsers(page[..i]) + ValidUsers(page[i..])
  {
    forall i | 0 <= i <= |page| ensures ValidUsers(page) == ValidUsers(page[..i]) + ValidUsers(page[i..]) {
      assert page == page[..i] + page[i..];
      ValidUsersJoin(page[..i], page[i..]);
    }
    if page != [] {
      ValidUsersExactly(page[1..], k);
      OneUser(page[0]);
      assert page[..1] == [page[0]];
      var first, rest := ValidUsers([page[0]]), ValidUsers(page[1..]);
      assert ValidUsers(page) == first + rest;
      KeysJoin(first, rest);
      hide ValidUsers;
      if page[0].valid {
        assert KeysOf(first) == [page[0].user];
      } else {
        assert KeysOf(first) == [];
      }
    }
  }

  // ---- one round, one page ----

  predicate Incomplete(o: UserOutcome) {
    o.UserRaised? || o.result.partial || o.result.errorCount > 0
  }

  /** The errors a failed user counts for: its own, and at least one. */
  function ErrorsOf(o: UserOutcome): int {
    if o.UserRaised? then 1 else Max(1, o.result.errorCount)
  }

  /** Every failed user adds at least one error to the prior ones, and nobody else adds any. */
  predicate ErrorsMatch(prior: int, errors: int, failed: seq<Key>) {
    errors >= prior + |failed| && (failed == [] ==> errors == prior)
  }

  lemma ErrorsAdd(prior: int, errors: int, more: int, a: seq<Key>, b: seq<Key>)
    requires ErrorsMatch(prior, errors, a) && ErrorsMatch(0, more, b)
    ensures ErrorsMatch(prior, errors + more, a + b)
  {
  }

  function NextSlice(u: UserCursor, r: UserResult, pageSlice: int): UserCursor {
    UserCursor(u.user, r.nextCursor, r.cursors, r.cursorOrder, r.completed, u.pagesCompleted + pageSlice)
  }

  /** What the child of user `u` is asked to do in its next slice. */
  function UserInput(requested: seq<Key>, u: UserCursor, pageLimit: Option<int>): UserCommand {
    UserCommand(requested, u.cursor, u.cursors, u.cursorOrder, u.completed, pageLimit)
  }

  /** Rescheduling a user is what UserSlices calls carrying its result into the next slice. */
  lemma RescheduledUserContinues(requested: seq<Key>, u: UserCursor, r: UserResult, pageSlice: int)
    ensures var limit := Some(Max(1, pageSlice));
            UserInput(requested, NextSlice(u, r, pageSlice), limit)
            == UserSlices.Requeue(UserInput(requested, u, limit), r)
  {
  }

  /** What becomes of the users of a round: still active, failed, or completed. */
  datatype Sorting = Sorting(active: seq<UserCursor>, failed: seq<Key>, completed: seq<Key>, errors: int)

  function SortOne(s: Sorting, u: UserCursor, o: UserOutcome, pageSlice: int): Sorting {
    if Incomplete(o) then s.(failed := s.failed + [u.user], errors := s.errors + ErrorsOf(o))
    else if o.result.finished then s.(completed := s.completed + [u.user])
    else s.(active := s.active + [NextSlice(u, o.result, pageSlice)])
  }

  function SortRound(us: seq<UserCursor>, os: seq<UserOutcome>, pageSlice: int): Sorting
    requires |us| == |os|
    decreases |us|
  {
    if us == [] then Sorting([], [], [], 0)
    else
      var n := |us| - 1;
      SortOne(SortRound(us[..n], os[..n], pageSlice), us[n], os[n], pageSlice)
  }

  /** In ordinary mode a user that is not finished after its one unlimited slice has failed too. */
  function PageOutcome(o: UserOutcome): UserOutcome {
    if !Incomplete(o) && !o.result.finished then UserReturned(o.result.(partial := true)) else o
  }

  function PageOutcomes(os: seq<UserOutcome>): (r: seq<UserOutcome>)
    ensures |r| == |os|
  {
    seq(|os|, i requires 0 <= i < |os| => PageOutcome(os[i]))
  }

  lemma {:induction false} SortKeepsUsers(us: seq<UserCursor>, os: seq<UserOutcome>, pageSlice: int)
    requires |us| == |os|
    ensures var s := SortRound(us, os, pageSlice);
            && multiset(KeysOf(us)) == multiset(KeysOf(s.active)) + multiset(s.failed) + multiset(s.completed)
            && |s.active| <= |us| && ErrorsMatch(0, s.errors, s.failed)
    decreases |us|
  {
    if us != [] {
      var n := |us| - 1;
      SortKeepsUsers(us[..n], os[..n], pageSlice);
      KeysJoin(us[..n], [us[n]]);
      assert us == us[..n] + [us[n]];
      var s := SortRound(us[..n], os[..n], pageSlice);
      if !Incomplete(os[n]) && !os[n].result.finished {
        KeysJoin(s.active, [NextSlice(us[n], os[n].result, pageSlice)]);
      }
      SortOneKeeps(s, us[n], os[n], pageSlice);
      hide SortOne, Incomplete, ErrorsOf, KeysOf, ErrorsMatch;
      assert KeysOf([us[n]]) == [us[n].user] by { OneKey(us[n]); }
    }
  }

  lemma OneKey(u: UserCursor)
    ensures KeysOf([u]) == [u.user]
  {
  }

  lemma SortOneKeeps(s: Sorting, u: UserCursor, o: UserOutcome, pageSlice: int)
    requires ErrorsMatch(0, s.errors, s.failed)
    ensures var t := SortOne(s, u, o, pageSlice);
            && multiset(KeysOf(t.active)) + multiset(t.failed) + multiset(t.completed)
               == multiset(KeysOf(s.active)) + multiset(s.failed) + multiset(s.completed) + multiset{u.user}
            && |t.active| <= |s.active| + 1 && ErrorsMatch(0, t.errors, t.failed)
  {
    if !Incomplete(o) && !o.result.finished {
      var v := NextSlice(u, o.result, pageSlice);
      KeysJoin(s.active, [v]);
      OneKey(v);
    }
  }

  lemma {:induction false} PageLeavesNoneActive(us: seq<UserCursor>, os: seq<UserOutcome>, pageSlice: int)
    requires |us| == |os|
    ensures SortRound(us, PageOutcomes(os), pageSlice).active == []
    decreases |us|
  {
    if us != [] {
      var n := |us| - 1;
      PageLeavesNoneActive(us[..n], os[..n], pageSlice);
      assert PageOutcomes(os)[..n] == PageOutcomes(os[..n]);
    }
  }

  // ---- sorting, on the outcomes ----

  /** What a user's outcome means for it. */
  datatype Fate = Fails | Completes | Continues

  function FateOf(o: UserOutcome): Fate {
    match o
    case UserRaised => Fails
    case UserReturned(r) => if r.partial || r.errorCount > 0 then Fails else if r.finished then Completes else Continues
  }

  /** The users with that fate, in order; the outcomes are those of the users, one each. */
  function Among(users: seq<Key>, os: seq<UserOutcome>, fate: Fate): seq<Key>
    decreases |users|
  {
    if users == [] || |os| != |users| then []
    else
      var n := |users| - 1;
      Among(users[..n], os[..n], fate) + (if FateOf(os[n]) == fate then [users[n]] else [])
  }

  /** The users that go on, each from where its result left it. */
  function GoingOn(us: seq<UserCursor>, os: seq<UserOutcome>, pageSlice: int): seq<UserCursor>
    requires |us| == |os|
    decreases |us|
  {
    if us == [] then []
    else
      var n := |us| - 1;
      GoingOn(us[..n], os[..n], pageSlice)
      + (if FateOf(os[n]) == Continues then
           var r := os[n].result;
           [UserCursor(us[n].user, r.nextCursor, r.cursors, r.cursorOrder, r.completed,
                       us[n].pagesCompleted + pageSlice)]
         else [])
  }

  /** The errors of the users that fail: those they reported, and one when they reported none. */
  function ErrorSum(os: seq<UserOutcome>): int {
    if os == [] then 0
    else
      var last := os[|os| - 1];
      ErrorSum(os[..|os| - 1])
      + (if FateOf(last) != Fails then 0 else if last.UserRaised? || last.result.errorCount <= 1 then 1
         else last.result.errorCount)
  }

  lemma KeysPrefix(us: seq<UserCursor>, n: nat)
    requires n <= |us|
    ensures KeysOf(us)[..n] == KeysOf(us[..n])
  {
  }

  /**
   Sorting a round follows the outcomes: the users that raised, were partial or reported errors fail, the
   others complete when they finished and go on when they did not, each list in the users' order.
   */
  lemma {:induction false} SortFollowsOutcomes(us: seq<UserCursor>, os: seq<UserOutcome>, pageSlice: int)
    requires |us| == |os|
    ensures var s := SortRound(us, os, pageSlice);
            && s.failed == Among(KeysOf(us), os, Fails) && s.completed == Among(KeysOf(us), os, Completes)
            && s.active == GoingOn(us, os, pageSlice) && s.errors == ErrorSum(os)
    decreases |us|
  {
    if us != [] {
      var n := |us| - 1;
      SortFollowsOutcomes(us[..n], os[..n], pageSlice);
      KeysPrefix(us, n);
      assert KeysOf(us)[n] == us[n].user;
      hide KeysOf;
      SortedOne(SortRound(us[..n], os[..n], pageSlice), us[n], os[n], pageSlice);
      assert SortRound(us, os, pageSlice) == SortOne(SortRound(us[..n], os[..n], pageSlice), us[n], os[n], pageSlice);
      hide SortOne, FateOf;
    }
  }

  lemma SortedOne(s: Sorting, u: UserCursor, o: UserOutcome, pageSlice: int)
    ensures var t := SortOne(s, u, o, pageSlice);
            && t.failed == s.failed + (if FateOf(o) == Fails then [u.user] else [])
            && t.completed == s.completed + (if FateOf(o) == Completes then [u.user] else [])
            && t.active == s.active + (if FateOf(o) == Continues then [NextSlice(u, o.result, pageSlice)] else [])
            && t.errors == s.errors + (if FateOf(o) != Fails then 0
                                       else if o.UserRaised? || o.result.errorCount <= 1 then 1
                                       else o.result.errorCount)
  {
  }

  /** In ordinary mode whoever does not complete fails, and counts for at least one error. */
  function NotCompleted(users: seq<Key>, os: seq<UserOutcome>): seq<Key>
    decreases |users|
  {
    if users == [] || |os| != |users| then []
    else
      var n := |users| - 1;
      NotCompleted(users[..n], os[..n]) + (if FateOf(os[n]) != Completes then [users[n]] else [])
  }

  function PageErrors(os: seq<UserOutcome>): int {
    if os == [] then 0
    else
      var last := os[|os| - 1];
      PageErrors(os[..|os| - 1])
      + (if FateOf(last) == Completes then 0 else if last.UserRaised? || last.result.errorCount <= 1 then 1
         else last.result.errorCount)
  }

  lemma PageFate(o: UserOutcome)
    ensures FateOf(PageOutcome(o)) == if FateOf(o) == Completes then Completes else Fails
    ensures PageOutcome(o).UserRaised? == o.UserRaised?
    ensures !o.UserRaised? ==> PageOutcome(o).result.errorCount == o.result.errorCount
  {
  }

  lemma {:induction false} PageFollowsOutcomes(users: seq<Key>, os: seq<UserOutcome>)
    requires |users| == |os|
    ensures Among(users, PageOutcomes(os), Fails) == NotCompleted(users, os)
    ensures Among(users, PageOutcomes(os), Completes) == Among(users, os, Completes)
    ensures ErrorSum(PageOutcomes(os)) == PageErrors(os)
    decreases |users|
  {
    if users != [] {
      var n := |users| - 1;
      PageFollowsOutcomes(users[..n], os[..n]);
      assert PageOutcomes(os)[..n] == PageOutcomes(os[..n]) && PageOutcomes(os)[n] == PageOutcome(os[n]);
      PageFate(os[n]);
      hide PageOutcome, PageOutcomes, FateOf;
    }
  }
}
