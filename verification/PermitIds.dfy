/**
 The permit request IDs of one sync: those of all page fetches of all its users, slices and
 remediations, and those of its user listing.
 */
module PermitIds {
  import opened Collections
  import opened ResourcePages
  import opened ResourcePageChains
  import opened UserSync
  import UserSlices
  import opened RootSyncModel
  import opened RootSync
  import opened RootSyncChains
  import opened RootSyncActivity

  /** The sequence strings of one sync, as far as they extend its own. */
  datatype Sequence =
    | Base
    | RoundSequence(round: nat)
    | RecentWave(partition: Partition)
    | BackfillWave(partition: Partition)

  /** What the ID of a user's child workflow is hashed from. */
  datatype Slot = Slot(sequence: Sequence, user: Key)

  /** Stable hashed request IDs of one store, generation and quota class; the operation tells the two apart. */
  datatype PermitId =
    | ListingId(cursor: Cursor, attempt: nat)
    | PageId(slot: Slot, resource: Key, cursor: Cursor, attempt: nat)

  // ---- one user child ----

  datatype ResourceRun = ResourceRun(resource: Key, provider: Provider, segments: seq<Segment>)

  /** One execution of a user's workflow, with the page runs of each resource it started. */
  datatype UserRun = UserRun(slot: Slot, resources: seq<ResourceRun>)

  ghost predicate ResourceRunOk(r: ResourceRun) {
    && Distinct(r.provider.marks) && r.segments != []
    && RunsSoFar(r.provider, r.segments[0].command, r.segments)
  }

  /** A user starts one child for each resource type, and each child is any chain of page runs. */
  ghost predicate UserRunOk(u: UserRun) {
    && (forall i :: 0 <= i < |u.resources| ==> ResourceRunOk(u.resources[i]))
    && (forall i, j :: 0 <= i < j < |u.resources| ==> u.resources[i].resource != u.resources[j].resource)
  }

  function CursorOf(p: Provider, r: Request): Cursor {
    if r.position < PageCount(p) then CursorAt(p, r.position) else None
  }

  function ResourceIds(slot: Slot, r: ResourceRun): seq<PermitId> {
    var rs := WholeTrace(r.segments).requests;
    seq(|rs|, i requires 0 <= i < |rs| => PageId(slot, r.resource, CursorOf(r.provider, rs[i]), rs[i].attempt))
  }

  function UserIds(slot: Slot, resources: seq<ResourceRun>): seq<PermitId> {
    if resources == [] then []
    else UserIds(slot, resources[..|resources| - 1]) + ResourceIds(slot, resources[|resources| - 1])
  }

  function IdsOfUsers(us: seq<UserRun>): seq<PermitId> {
    if us == [] then []
    else
      var last := us[|us| - 1];
      IdsOfUsers(us[..|us| - 1]) + UserIds(last.slot, last.resources)
  }

  function ListingIds(p: Provider, requests: seq<Request>): seq<PermitId> {
    seq(|requests|, i requires 0 <= i < |requests| => ListingId(CursorOf(p, requests[i]), requests[i].attempt))
  }

  lemma ResourceIdsDiffer(slot: Slot, r: ResourceRun)
    requires ResourceRunOk(r)
    ensures Distinct(ResourceIds(slot, r))
  {
    var ids := ResourceIds(slot, r);
    forall i, j | 0 <= i < j < |ids| ensures ids[i] != ids[j] {
      RequestsNeverRepeat(r.provider, r.segments[0].command, r.segments, i, j);
    }
    DistinctIndices(ids);
  }

  lemma {:induction false} UserIdsDiffer(u: UserRun, n: nat)
    requires UserRunOk(u) && n <= |u.resources|
    ensures Distinct(UserIds(u.slot, u.resources[..n]))
    ensures forall id :: id in UserIds(u.slot, u.resources[..n]) ==>
              id.PageId? && id.slot == u.slot && exists i :: 0 <= i < n && u.resources[i].resource == id.resource
  {
    if n > 0 {
      var last := u.resources[n - 1];
      UserIdsDiffer(u, n - 1);
      assert u.resources[..n][..n - 1] == u.resources[..n - 1];
      ResourceIdsDiffer(u.slot, last);
      hide ResourceRunOk, Distinct, WholeTrace;
      assert forall id :: id in ResourceIds(u.slot, last) ==>
               id.PageId? && id.slot == u.slot && id.resource == last.resource;
      DistinctConcatenation(UserIds(u.slot, u.resources[..n - 1]), ResourceIds(u.slot, last));
    }
  }

  /** Different slots keep the IDs of different user children apart. */
  lemma {:induction false} IdsOfUsersDiffer(us: seq<UserRun>)
    requires forall i :: 0 <= i < |us| ==> UserRunOk(us[i])
    requires forall i, j :: 0 <= i < j < |us| ==> us[i].slot != us[j].slot
    ensures Distinct(IdsOfUsers(us))
    ensures forall id :: id in IdsOfUsers(us) ==> id.PageId? && exists i :: 0 <= i < |us| && us[i].slot == id.slot
  {
    if us != [] {
      var n, last := |us| - 1, us[|us| - 1];
      IdsOfUsersDiffer(us[..n]);
      UserIdsDiffer(last, |last.resources|);
      assert last.resources[..|last.resources|] == last.resources;
      hide UserRunOk, Distinct, UserIds;
      DistinctConcatenation(IdsOfUsers(us[..n]), UserIds(last.slot, last.resources));
      forall id | id in IdsOfUsers(us) ensures id.PageId? && exists i :: 0 <= i < |us| && us[i].slot == id.slot {
        if id in UserIds(last.slot, last.resources) {
          assert us[n].slot == id.slot;
        }
      }
    }
  }

  lemma ListingIdsDiffer(p: Provider, requests: seq<Request>)
    requires RequestsDiffer(p, requests)
    ensures Distinct(ListingIds(p, requests))
  {
    DistinctIndices(ListingIds(p, requests));
  }

  // ---- the user children of a sync ----

  function SlotsOf(sequence: Sequence, users: seq<Key>): seq<Slot> {
    seq(|users|, i requires 0 <= i < |users| => Slot(sequence, users[i]))
  }

  /** Each active user of a round runs once under the sequence of the round. */
  function RoundSlots(batches: seq<Batch>): seq<Slot> {
    if batches == [] then []
    else
      var last := batches[|batches| - 1];
      RoundSlots(batches[..|batches| - 1]) + SlotsOf(RoundSequence(last.round), last.users)
  }

  /** A remediation runs each of its users in a recent and in a backfill wave. */
  function RemediationSlots(rs: seq<Remediation>): seq<Slot> {
    if rs == [] then []
    else
      var last := rs[|rs| - 1];
      RemediationSlots(rs[..|rs| - 1]) + SlotsOf(RecentWave(last.partition), last.failedKeys)
      + SlotsOf(BackfillWave(last.partition), last.failedKeys)
  }

  lemma SlotsOfDiffer(sequence: Sequence, users: seq<Key>)
    ensures Distinct(SlotsOf(sequence, users)) <==> Distinct(users)
    ensures forall s :: s in SlotsOf(sequence, users) ==> s.sequence == sequence
  {
    DistinctIndices(users);
    DistinctIndices(SlotsOf(sequence, users));
    hide Distinct;
    if Distinct(SlotsOf(sequence, users)) {
      forall i, j | 0 <= i < j < |users| ensures users[i] != users[j] {
        assert SlotsOf(sequence, users)[i] != SlotsOf(sequence, users)[j];
      }
    }
  }

  /** Rounds have different numbers, so only a user scheduled twice in one round could share a slot. */
  lemma {:induction false} RoundSlotsDiffer(batches: seq<Batch>, first: nat, everyone: seq<Key>)
    requires Distinct(everyone)
    requires forall i :: 0 <= i < |batches| ==>
               batches[i].round == first + i && multiset(batches[i].users) <= multiset(everyone)
    ensures Distinct(RoundSlots(batches))
    ensures forall s :: s in RoundSlots(batches) ==>
              s.sequence.RoundSequence? && s.sequence.round < first + |batches|
  {
    if batches != [] {
      var n, last := |batches| - 1, batches[|batches| - 1];
      RoundSlotsDiffer(batches[..n], first, everyone);
      DistinctFromBag(last.users, everyone);
      SlotsOfDiffer(RoundSequence(last.round), last.users);
      hide Distinct, SlotsOf;
      DistinctConcatenation(RoundSlots(batches[..n]), SlotsOf(RoundSequence(last.round), last.users));
    }
  }

  /** Only waves of these remediations. */
  ghost predicate WavesOf(slots: seq<Slot>, rs: seq<Remediation>) {
    forall s :: s in slots ==>
      && (s.sequence.RecentWave? || s.sequence.BackfillWave?)
      && exists i :: 0 <= i < |rs| && rs[i].partition == s.sequence.partition
  }

  /** Remediations have different partitions, and their waves different sequences. */
  lemma {:induction false} RemediationSlotsDiffer(rs: seq<Remediation>)
    requires PartitionsDiffer(rs) && Distinct(HandedOver(rs))
    ensures Distinct(RemediationSlots(rs)) && WavesOf(RemediationSlots(rs), rs)
  {
    if rs != [] {
      var before, keys := rs[..|rs| - 1], rs[|rs| - 1].failedKeys;
      assert HandedOver(rs) == HandedOver(before) + keys;
      DistinctParts(HandedOver(rs), |HandedOver(before)|);
      assert HandedOver(rs)[..|HandedOver(before)|] == HandedOver(before);
      assert HandedOver(rs)[|HandedOver(before)|..] == keys;
      RemediationSlotsDiffer(before);
      OneMoreRemediation(rs);
    }
  }

  lemma EarlierWaves(slots: seq<Slot>, rs: seq<Remediation>)
    requires rs != [] && PartitionsDiffer(rs) && WavesOf(slots, rs[..|rs| - 1])
    ensures WavesOf(slots, rs)
    ensures forall s :: s in slots ==> s.sequence.partition != rs[|rs| - 1].partition
  {
    var n := |rs| - 1;
    forall s | s in slots
      ensures s.sequence.partition != rs[n].partition
      ensures exists i :: 0 <= i < |rs| && rs[i].partition == s.sequence.partition
    {
      var i :| 0 <= i < n && rs[..n][i].partition == s.sequence.partition;
      assert rs[i].partition == s.sequence.partition && rs[i].partition != rs[n].partition;
    }
  }

  lemma LastWaves(rs: seq<Remediation>, sequence: Sequence)
    requires rs != [] && sequence in {RecentWave(rs[|rs| - 1].partition), BackfillWave(rs[|rs| - 1].partition)}
    requires Distinct(rs[|rs| - 1].failedKeys)
    ensures var slots := SlotsOf(sequence, rs[|rs| - 1].failedKeys);
            Distinct(slots) && WavesOf(slots, rs) && forall s :: s in slots ==> s.sequence == sequence
  {
    SlotsOfDiffer(sequence, rs[|rs| - 1].failedKeys);
    hide SlotsOf, Distinct;
    assert rs[|rs| - 1].partition == sequence.partition;
  }

  lemma OneMoreRemediation(rs: seq<Remediation>)
    requires rs != [] && PartitionsDiffer(rs) && Distinct(rs[|rs| - 1].failedKeys)
    requires var before := rs[..|rs| - 1];
             Distinct(RemediationSlots(before)) && WavesOf(RemediationSlots(before), before)
    ensures Distinct(RemediationSlots(rs)) && WavesOf(RemediationSlots(rs), rs)
  {
    var last := rs[|rs| - 1];
    var earlier, recent := RemediationSlots(rs[..|rs| - 1]), SlotsOf(RecentWave(last.partition), last.failedKeys);
    var backfill := SlotsOf(BackfillWave(last.partition), last.failedKeys);
    assert RemediationSlots(rs) == earlier + recent + backfill;
    hide *;
    EarlierWaves(earlier, rs);
    LastWaves(rs, RecentWave(last.partition));
    LastWaves(rs, BackfillWave(last.partition));
    DistinctConcatenation(earlier, recent);
    DistinctConcatenation(earlier + recent, backfill);
    WavesJoin(earlier, recent, rs);
    WavesJoin(earlier + recent, backfill, rs);
  }

  lemma WavesJoin(a: seq<Slot>, b: seq<Slot>, rs: seq<Remediation>)
    requires WavesOf(a, rs) && WavesOf(b, rs)
    ensures WavesOf(a + b, rs)
  {
  }

  /** The directory lists no valid user twice. */
  ghost predicate ListedOnce(d: Directory)
    requires DirectoryOk(d)
  {
    Distinct(KeysOf(Listed(d, 0, |d.pages|)))
  }

  /** One execution for each slot: a wave or child that never ran has no resources. */
  ghost predicate UsersOf(us: seq<UserRun>, slots: seq<Slot>) {
    |us| == |slots| && forall i :: 0 <= i < |us| ==> us[i].slot == slots[i] && UserRunOk(us[i])
  }

  lemma SyncIdsDiffer(p: Provider, requests: seq<Request>, us: seq<UserRun>, slots: seq<Slot>)
    requires RequestsDiffer(p, requests) && UsersOf(us, slots) && Distinct(slots)
    ensures Distinct(ListingIds(p, requests) + IdsOfUsers(us))
  {
    DistinctIndices(slots);
    ListingIdsDiffer(p, requests);
    hide UserRunOk, Distinct, RequestsDiffer;
    IdsOfUsersDiffer(us);
    hide IdsOfUsers;
    assert forall id :: id in ListingIds(p, requests) ==> id.ListingId?;
    DistinctConcatenation(ListingIds(p, requests), IdsOfUsers(us));
  }

  // ---- round mode ----

  /** Every user child of a round-mode sync, in its rounds and in its remediations. */
  function RoundSyncSlots(runs: seq<RoundRun>): seq<Slot> {
    RoundSlots(WholeActivity(runs).batches) + RemediationSlots(WholeLog(runs).remediations)
  }

  lemma RoundSyncSlotsDiffer(d: Directory, c: SyncCommand, runs: seq<RoundRun>)
    requires DirectoryOk(d) && FreshSync(c) && RoundChain(d, c, runs) && ListedOnce(d)
    ensures Distinct(RoundSyncSlots(runs))
  {
    var log, batches := WholeLog(runs), WholeActivity(runs).batches;
    var listed := KeysOf(Listed(d, 0, |d.pages|));
    FreshEveryone(d, c);
    hide RoundChain, WholeLog, WholeActivity, DirectoryOk, FreshSync, StartOf;
    ChainBatches(d, c, runs);
    RoundSlotsDiffer(batches, StartOf(c).roundNumber, listed);
    EveryFailureIsRemediatedOnce(d, c, runs);
    ChainFailures(d, c, runs);
    DistinctFromBag(log.failed, listed);
    RemediationSlotsDiffer(log.remediations);
    hide RoundSlots, RemediationSlots, Distinct;
    DistinctConcatenation(RoundSlots(batches), RemediationSlots(log.remediations));
  }

  lemma FreshEveryone(d: Directory, c: SyncCommand)
    requires DirectoryOk(d) && FreshSync(c)
    ensures StateOk(d, StartOf(c)) && Everyone(d, StartOf(c)) == KeysOf(Listed(d, 0, |d.pages|))
    ensures CarriesAttempt(c)
  {
    var s := StartOf(c);
    assert Pages(d, s) == 0;
    assert s.active + s.buffered + Listed(d, 0, |d.pages|) == Listed(d, 0, |d.pages|);
    hide Listed, KeysOf, DirectoryOk;
  }

  lemma ChainFailures(d: Directory, c: SyncCommand, runs: seq<RoundRun>)
    requires DirectoryOk(d) && FreshSync(c) && RoundChain(d, c, runs)
    ensures multiset(WholeLog(runs).failed) <= multiset(KeysOf(Listed(d, 0, |d.pages|)))
  {
    var last, log := runs[|runs| - 1], WholeLog(runs);
    FreshEveryone(d, c);
    hide RoundChain, WholeLog, DirectoryOk, FreshSync, StartOf;
    ChainUsers(d, c, runs);
    ActiveAmongEveryone(d, StartOf(c), last.end, log);
  }

  /**
   In a round-mode sync of a directory that lists no user twice, over any number of runs, rounds and
   remediations, no two permit requests share an ID: not for the pages of any user in any slice or
   wave, whatever became of its children, and not for the user listing.
   */
  lemma RoundSyncNeverRepeatsIds(d: Directory, c: SyncCommand, runs: seq<RoundRun>, us: seq<UserRun>)
    requires DirectoryOk(d) && FreshSync(c) && RoundChain(d, c, runs) && ListedOnce(d)
    requires UsersOf(us, RoundSyncSlots(runs))
    ensures Distinct(ListingIds(d.chain, WholeActivity(runs).requests) + IdsOfUsers(us))
  {
    hide *;
    FreshEveryone(d, c);
    ListingsNeverRepeat(d, c, runs);
    RoundSyncSlotsDiffer(d, c, runs);
    SyncIdsDiffer(d.chain, WholeActivity(runs).requests, us, RoundSyncSlots(runs));
  }

  // ---- ordinary mode ----

  /** Each user of a page runs once under the sequence of the sync, and ends completed or failed. */
  function OrdinarySyncSlots(runs: seq<OrdinaryRun>): seq<Slot> {
    var log := OrdinaryLog(runs);
    SlotsOf(Base, log.completed + log.failed) + RemediationSlots(log.remediations)
  }

  /** In ordinary mode two children share a workflow ID exactly when the directory lists a user twice. */
  lemma OrdinarySlotsDifferExactly(d: Directory, c: SyncCommand, runs: seq<OrdinaryRun>)
    requires DirectoryOk(d) && FreshSync(c) && OrdinaryChain(d, c, runs)
    ensures Distinct(OrdinarySyncSlots(runs)) <==> ListedOnce(d)
  {
    var log, listed := OrdinaryLog(runs), KeysOf(Listed(d, 0, |d.pages|));
    var users := log.completed + log.failed;
    PageLists(d);
    hide OrdinaryChain, OrdinaryLog, DirectoryOk, FreshSync, KeysOf, Listed;
    OrdinarySyncIsComplete(d, c, runs);
    assert multiset(users) == multiset(listed);
    SlotsOfDiffer(Base, users);
    hide Distinct, SlotsOf, RemediationSlots;
    if Distinct(listed) {
      DistinctFromBag(users, listed);
      DistinctParts(users, |log.completed|);
      assert users[|log.completed|..] == log.failed;
      RemediationSlotsDiffer(log.remediations);
      DistinctConcatenation(SlotsOf(Base, users), RemediationSlots(log.remediations));
    } else if Distinct(OrdinarySyncSlots(runs)) {
      DistinctParts(OrdinarySyncSlots(runs), |SlotsOf(Base, users)|);
      assert OrdinarySyncSlots(runs)[..|SlotsOf(Base, users)|] == SlotsOf(Base, users);
      DistinctFromBag(listed, users);
    }
  }

  /** The same for an ordinary sync of a directory that lists no user twice. */
  lemma OrdinarySyncNeverRepeatsIds(d: Directory, c: SyncCommand, runs: seq<OrdinaryRun>, us: seq<UserRun>)
    requires DirectoryOk(d) && FreshSync(c) && OrdinaryChain(d, c, runs) && ListedOnce(d)
    requires UsersOf(us, OrdinarySyncSlots(runs))
    ensures Distinct(ListingIds(d.chain, OrdinaryRequests(runs)) + IdsOfUsers(us))
  {
    assert OrdinaryOwesNothing(c);
    hide *;
    OrdinaryListingsNeverRepeat(d, c, runs);
    OrdinarySlotsDifferExactly(d, c, runs);
    SyncIdsDiffer(d.chain, OrdinaryRequests(runs), us, OrdinarySyncSlots(runs));
  }

  // ---- slices of one user ----

  /** A failure-free slice of a user, as the execution of one slot. */
  function SliceRun(providers: map<Key, Provider>, c: UserCommand, s: UserSlices.Slice, slot: Slot): UserRun
    requires |s.runs| == |Outstanding(c)| && forall x :: x in Outstanding(c) ==> x in providers
  {
    var types := Outstanding(c);
    UserRun(slot, seq(|types|, i requires 0 <= i < |types| => ResourceRun(types[i], providers[types[i]], s.runs[i])))
  }

  lemma CleanChainIsRun(x: Key, p: Provider, cursor: Cursor, limit: Option<int>, segments: seq<Segment>)
    requires Distinct(p.marks) && UserSlices.CleanChain(p, cursor, limit, segments)
    ensures ResourceRunOk(ResourceRun(x, p, segments))
  {
    ChainIsRunsSoFar(p, segments[0].command, segments);
  }

  lemma SliceIsUserRun(providers: map<Key, Provider>, c: UserCommand, s: UserSlices.Slice, slot: Slot)
    requires UserSlices.ProvidersOk(providers, c) && UserSlices.CleanSlice(providers, c, s)
    requires Distinct(RequestedTypes(c))
    ensures forall x :: x in Outstanding(c) ==> x in providers
    ensures UserRunOk(SliceRun(providers, c, s, slot))
  {
    UserSlices.OutstandingDistinct(c);
    DistinctIndices(Outstanding(c));
    hide Distinct, Outstanding, UserSlices.CleanChain, ResourceRunOk, ResultOk, CursorFor;
    forall i | 0 <= i < |s.runs|
      ensures Outstanding(c)[i] in providers
      ensures ResourceRunOk(ResourceRun(Outstanding(c)[i], providers[Outstanding(c)[i]], s.runs[i]))
    {
      var x := Outstanding(c)[i];
      assert x in Outstanding(c);
      CleanChainIsRun(x, providers[x], CursorFor(c, x), c.pageLimit, s.runs[i]);
    }
  }
}
