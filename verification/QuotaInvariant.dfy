/** The coordinator's inductive invariant and the shape of the queue after each step. */
module QuotaInvariant {
  import opened Collections
  import opened QuotaModel

  /** Both terminal lists are one duplicate-free list of at most `size` entries. */
  ghost predicate GoodWindow(w: TerminalWindow, size: int) {
    w.ids == w.order && Distinct(w.ids) && |w.ids| <= Max(0, size)
  }

  ghost predicate GoodRequest(scope: QuotaScope, id: Key, r: PermitRequest) {
    id != NO_KEY && r.requestId == id && r.cost > 0 && r.scope == scope && r.requester != NO_KEY
  }

  ghost predicate GoodReservation(id: Key, r: PermitReservation) {
    id != NO_KEY && r.requestId == id && r.cost > 0 && r.status == Granted && r.requester != NO_KEY
    && r.permitId == PermitId(id, r.window)
  }

  /** `pendingOrder` is a duplicate-free listing of `pending`, within the cap, empty once disabled. */
  ghost predicate QueueOk(s: QuotaState) {
    && Lists(s.pendingOrder, s.pending.Keys)
    && |s.pending| <= PendingCap(s.settings)
    && (s.disabled ==> s.pending.Keys == {})
  }

  /** A request ID is pending, reserved or terminal, never two of them. */
  ghost predicate ApartOk(s: QuotaState) {
    && (forall id :: id in s.pending ==> id !in s.reservations)
    && (forall id :: id in s.terminal.ids ==> id !in s.pending && id !in s.reservations)
  }

  ghost predicate FlightOk(s: QuotaState) {
    s.inFlight == |s.reservations| <= Max(0, s.settings.maxInFlight)
  }

  ghost predicate EntriesOk(s: QuotaState) {
    && (forall id :: id in s.pending ==> GoodRequest(s.settings.scope, id, s.pending[id]))
    && (forall id :: id in s.reservations ==> GoodReservation(id, s.reservations[id]))
  }

  ghost predicate BalanceOk(s: QuotaState) {
    && (s.window.limit.Some? ==> s.window.limit.value >= 0)
    && (s.window.remaining.Some? ==> s.window.remaining.value >= 0)
  }

  ghost predicate Inv(s: QuotaState) {
    QueueOk(s) && ApartOk(s) && FlightOk(s) && EntriesOk(s) && BalanceOk(s)
    && GoodWindow(s.terminal, s.settings.dedupWindowSize)
  }

  lemma InvParts(s: QuotaState)
    requires Inv(s)
    ensures QueueOk(s) && EntriesOk(s) && ApartOk(s) && GoodWindow(s.terminal, s.settings.dedupWindowSize)
  {
  }

  /** The state Signal-with-Start creates for a scope. */
  function Initial(scope: QuotaScope, limit: Option<int>, maxInFlight: int, maxPending: int, dedup: int): QuotaState {
    QuotaState(QuotaSettings(scope, maxInFlight, maxPending, dedup),
               QuotaWindow(limit, limit, None, None, NamedWindow(NO_KEY)),
               0, false, map[], [], map[], TerminalWindow([], []), 0)
  }

  lemma InitialInv(scope: QuotaScope, limit: Option<int>, maxInFlight: int, maxPending: int, dedup: int)
    requires limit.Some? ==> limit.value >= 0
    ensures Inv(Initial(scope, limit, maxInFlight, maxPending, dedup))
  {
  }

  // ---- the terminal window holds the newest markings ----

  lemma MarkNewest(w: TerminalWindow, size: int, id: Key)
    requires GoodWindow(w, size) && id !in w.ids
    ensures MarkTerminal(w, size, id).ids == Newest(w.ids + [id], Max(0, size))
    ensures GoodWindow(MarkTerminal(w, size, id), size)
  {
    var all := w.ids + [id];
    DistinctAppend(w.ids, id);
    hide Distinct, RemoveEach, RemoveFirst;
    if size > 0 && |all| > size {
      RemoveEachPrefix(all, 1);
      DistinctParts(all, 1);
    }
  }

  lemma NewestMembers<T>(s: seq<T>, n: nat)
    ensures forall x :: x in Newest(s, n) ==> x in s
    ensures |Newest(s, n)| <= n
  {
  }

  lemma {:induction false} MarkAllNewest(w: TerminalWindow, size: int, ids: seq<Key>)
    requires GoodWindow(w, size) && Distinct(ids) && forall id :: id in ids ==> id !in w.ids
    ensures MarkAll(w, size, ids).ids == Newest(w.ids + ids, Max(0, size))
    ensures GoodWindow(MarkAll(w, size, ids), size)
  {
    if ids == [] {
      assert w.ids + ids == w.ids;
    } else {
      var n := |ids| - 1;
      assert Distinct(ids[..n]);
      hide Newest, Distinct, GoodWindow, MarkTerminal, Max;
      MarkAllNewest(w, size, ids[..n]);
      FreshMark(w, size, ids);
      MarkNewest(MarkAll(w, size, ids[..n]), size, ids[n]);
      NewestConcatenation(w.ids + ids[..n], [ids[n]], Max(0, size));
      assert w.ids + ids == (w.ids + ids[..n]) + [ids[n]];
    }
  }

  lemma FreshMark(w: TerminalWindow, size: int, ids: seq<Key>)
    requires ids != [] && Distinct(ids) && forall id :: id in ids ==> id !in w.ids
    requires MarkAll(w, size, ids[..|ids| - 1]).ids == Newest(w.ids + ids[..|ids| - 1], Max(0, size))
    ensures ids[|ids| - 1] !in MarkAll(w, size, ids[..|ids| - 1]).ids
  {
    NewestMembers(w.ids + ids[..|ids| - 1], Max(0, size));
    assert ids[|ids| - 1] in ids;
  }

  lemma MarkAllMembers(w: TerminalWindow, size: int, ids: seq<Key>)
    requires GoodWindow(w, size) && Distinct(ids) && forall id :: id in ids ==> id !in w.ids
    ensures forall id :: id in MarkAll(w, size, ids).ids ==> id in w.ids || id in ids
  {
    MarkAllNewest(w, size, ids);
    hide GoodWindow, Distinct, MarkAll;
    NewestMembers(w.ids + ids, Max(0, size));
  }

  // ---- preservation ----

  /** What cancelling, completing and disabling have in common: `gone` leaves and is marked. */
  ghost predicate Closes(s: QuotaState, t: QuotaState, ids: seq<Key>, gone: set<Key>) {
    && t.pending == s.pending - gone
    && t.reservations == s.reservations - gone
    && t.inFlight == |t.reservations|
    && t.pendingOrder == Without(s.pendingOrder, gone)
    && t.terminal == MarkAll(s.terminal, s.settings.dedupWindowSize, ids)
    && t.settings == s.settings && t.window == s.window
    && (t.disabled == s.disabled || t.pending.Keys == {})
  }

  lemma RemovedQueue(s: QuotaState, gone: set<Key>)
    requires QueueOk(s)
    ensures Without(s.pendingOrder, gone) == Keep(s.pendingOrder, (s.pending - gone).Keys)
    ensures Lists(Without(s.pendingOrder, gone), (s.pending - gone).Keys)
    ensures |s.pending - gone| <= |s.pending|
  {
    var rest := (s.pending - gone).Keys;
    WithoutIsKeep(s.pendingOrder, rest, gone);
    KeepElements(s.pendingOrder, rest);
    SubsetSize(rest, s.pending.Keys);
  }

  lemma ClosesQueue(s: QuotaState, t: QuotaState, ids: seq<Key>, gone: set<Key>)
    requires QueueOk(s) && Closes(s, t, ids, gone)
    ensures QueueOk(t) && t.pendingOrder == Keep(s.pendingOrder, t.pending.Keys)
  {
    RemovedQueue(s, gone);
    hide Without, Keep, MarkAll, Lists;
  }

  lemma ClosesApart(s: QuotaState, t: QuotaState, ids: seq<Key>, gone: set<Key>)
    requires ApartOk(s) && GoodWindow(s.terminal, s.settings.dedupWindowSize) && Closes(s, t, ids, gone)
    requires Lists(ids, gone) && (forall id :: id in gone ==> id !in s.terminal.ids)
    ensures ApartOk(t) && GoodWindow(t.terminal, t.settings.dedupWindowSize)
  {
    MarkAllNewest(s.terminal, s.settings.dedupWindowSize, ids);
    MarkAllMembers(s.terminal, s.settings.dedupWindowSize, ids);
    hide GoodWindow, MarkAll, Distinct, Without;
  }

  lemma ClosesEntries(s: QuotaState, t: QuotaState, ids: seq<Key>, gone: set<Key>)
    requires EntriesOk(s) && Closes(s, t, ids, gone)
    ensures EntriesOk(t)
  {
    hide MarkAll, Without, GoodRequest, GoodReservation;
  }

  lemma ClosesFlight(s: QuotaState, t: QuotaState, ids: seq<Key>, gone: set<Key>)
    requires FlightOk(s) && Closes(s, t, ids, gone)
    ensures FlightOk(t)
  {
    hide MarkAll, Without;
    SubsetSize(t.reservations.Keys, s.reservations.Keys);
  }

  lemma ClosesInv(s: QuotaState, t: QuotaState, ids: seq<Key>, gone: set<Key>)
    requires Inv(s) && Closes(s, t, ids, gone)
    requires Lists(ids, gone) && (forall id :: id in gone ==> id !in s.terminal.ids)
    ensures Inv(t)
  {
    ClosesQueue(s, t, ids, gone);
    ClosesApart(s, t, ids, gone);
    ClosesEntries(s, t, ids, gone);
    ClosesFlight(s, t, ids, gone);
    hide QueueOk, ApartOk, EntriesOk, FlightOk, GoodWindow, Without, MarkAll, Lists;
  }

  lemma RemovedSize<K, V>(m: map<K, V>, gone: set<K>)
    ensures |m - gone| == |m| - |m.Keys * gone|
  {
    assert (m - gone).Keys == m.Keys - gone;
    assert m.Keys == (m.Keys - gone) + m.Keys * gone;
  }

  lemma RemoveAbsent<K, V>(m: map<K, V>, k: K)
    requires k !in m
    ensures m - {k} == m
  {
  }

  lemma WithoutAbsent(s: QuotaState, id: Key)
    requires QueueOk(s) && id !in s.pending
    ensures Without(s.pendingOrder, {id}) == s.pendingOrder
  {
    WithoutIsKeep(s.pendingOrder, s.pending.Keys, {id});
    KeepAll(s.pendingOrder, s.pending.Keys);
  }

  lemma CancelReservations(s: QuotaState, id: Key)
    requires FlightOk(s)
    ensures id in s.reservations ==> Max(0, s.inFlight - 1) == |s.reservations - {id}|
    ensures id !in s.reservations ==> s.inFlight == |s.reservations - {id}| && s.reservations - {id} == s.reservations
  {
    if id in s.reservations {
      RemovedSize(s.reservations, {id});
      assert s.reservations.Keys * {id} == {id};
    } else {
      RemoveAbsent(s.reservations, id);
    }
  }

  lemma CancelQueue(s: QuotaState, id: Key)
    requires QueueOk(s)
    ensures id !in s.pending ==> s.pending - {id} == s.pending && Without(s.pendingOrder, {id}) == s.pendingOrder
  {
    if id !in s.pending {
      RemoveAbsent(s.pending, id);
      WithoutAbsent(s, id);
    }
  }

  lemma CancelPendingCloses(s: QuotaState, id: Key)
    requires FlightOk(s) && ApartOk(s) && id in s.pending
    ensures Closes(s, Cancel(s, id), [id], {id})
  {
    CancelReservations(s, id);
    assert id !in s.reservations && id !in s.terminal.ids;
    hide FlightOk, ApartOk, MarkAll, Without;
  }

  lemma CancelOtherCloses(s: QuotaState, id: Key)
    requires QueueOk(s) && FlightOk(s) && id !in s.pending && CancelMarks(s, id) != []
    ensures Closes(s, Cancel(s, id), [id], {id})
  {
    CancelReservations(s, id);
    CancelQueue(s, id);
    hide QueueOk, FlightOk, MarkAll, Without;
  }

  lemma CancelCloses(s: QuotaState, id: Key)
    requires QueueOk(s) && FlightOk(s) && ApartOk(s) && CancelMarks(s, id) != []
    ensures Closes(s, Cancel(s, id), [id], {id})
  {
    hide Closes, Cancel, QueueOk, FlightOk, ApartOk, CancelMarks;
    if id in s.pending { CancelPendingCloses(s, id); } else { CancelOtherCloses(s, id); }
  }

  lemma GenerationCloses(s: QuotaState, store: Key, generation: int)
    requires FlightOk(s) && GenerationMarks(s, store, generation) != []
    ensures Closes(s, CancelGeneration(s, store, generation), GenerationMarks(s, store, generation),
                   PendingOf(s, store, generation) + ReservedOf(s, store, generation))
  {
    var gone := PendingOf(s, store, generation) + ReservedOf(s, store, generation);
    GenerationIds(s, store, generation);
    RemovedSize(s.reservations, gone);
    hide GenerationMarks, PendingOf, ReservedOf, MarkAll, Without;
  }

  lemma GenerationIds(s: QuotaState, store: Key, generation: int)
    ensures var gone := PendingOf(s, store, generation) + ReservedOf(s, store, generation);
            Lists(GenerationMarks(s, store, generation), gone)
            && (GenerationMarks(s, store, generation) == [] <==> gone == {})
  {
    var ids := GenerationMarks(s, store, generation);
    if ids != [] { assert ids[0] in ids; }
  }

  lemma CompleteCloses(s: QuotaState, id: Key, permit: PermitId)
    requires QueueOk(s) && FlightOk(s) && ApartOk(s) && Completes(s, id, permit)
    ensures Closes(s, Complete(s, id, permit), [id], {id})
  {
    CancelReservations(s, id);
    CancelQueue(s, id);
    assert id !in s.pending;
    hide QueueOk, FlightOk, ApartOk, MarkAll, Without;
  }

  lemma QueuedIds(s: QuotaState)
    requires QueueOk(s) && EntriesOk(s)
    ensures RequestIds(QueuedRequests(s)) == s.pendingOrder
  {
    KeepAll(s.pendingOrder, s.pending.Keys);
    var ids := RequestIds(QueuedRequests(s));
    forall i | 0 <= i < |ids| ensures ids[i] == s.pendingOrder[i] {
      assert s.pendingOrder[i] in s.pendingOrder;
      assert GoodRequest(s.settings.scope, s.pendingOrder[i], s.pending[s.pendingOrder[i]]);
    }
  }

  lemma ClearQueue(s: QuotaState)
    requires QueueOk(s) && ApartOk(s)
    ensures s.pending - s.pending.Keys == map[]
    ensures s.reservations - s.pending.Keys == s.reservations
    ensures Without(s.pendingOrder, s.pending.Keys) == []
  {
    WithoutIsKeep(s.pendingOrder, {}, s.pending.Keys);
    KeepNone(s.pendingOrder, {});
  }

  lemma DisableCloses(s: QuotaState)
    requires Inv(s) && !s.disabled
    ensures DisableMarks(s) == s.pendingOrder
    ensures Closes(s, Disable(s), s.pendingOrder, s.pending.Keys)
  {
    QueuedIds(s);
    ClearQueue(s);
    hide QueuedRequests, RequestIds, MarkAll, Without, QueueOk, ApartOk, EntriesOk;
  }

  lemma CounterInv(s: QuotaState, count: int)
    requires Inv(s)
    ensures Inv(s.(processedMessages := count))
  {
    hide Lists, GoodWindow, GoodRequest, GoodReservation;
  }

  lemma CloseOneInv(s: QuotaState, t: QuotaState, id: Key)
    requires Inv(s) && Closes(s, t, [id], {id}) && id !in s.terminal.ids
    ensures Inv(t)
  {
    hide Inv, Closes;
    SingletonLists(id);
    ClosesInv(s, t, [id], {id});
  }

  lemma CancelInv(s: QuotaState, id: Key)
    requires Inv(s)
    ensures Inv(Cancel(s, id))
  {
    if CancelMarks(s, id) == [] {
      CounterInv(s, s.processedMessages + 1);
      hide Inv;
    } else {
      CancelCloses(s, id);
      hide Inv, Closes, Cancel;
      CloseOneInv(s, Cancel(s, id), id);
    }
  }

  lemma GenerationApart(s: QuotaState, store: Key, generation: int, id: Key)
    requires ApartOk(s) && id in PendingOf(s, store, generation) + ReservedOf(s, store, generation)
    ensures id !in s.terminal.ids
  {
  }

  lemma GenerationInv(s: QuotaState, store: Key, generation: int)
    requires Inv(s)
    ensures Inv(CancelGeneration(s, store, generation))
  {
    GenerationIds(s, store, generation);
    var gone := PendingOf(s, store, generation) + ReservedOf(s, store, generation);
    if gone == {} {
      CounterInv(s, s.processedMessages + 1);
    } else {
      GenerationCloses(s, store, generation);
      forall id | id in gone ensures id !in s.terminal.ids {
        GenerationApart(s, store, generation, id);
      }
      hide Inv, Closes, CancelGeneration, GenerationMarks, PendingOf, ReservedOf, Lists;
      ClosesInv(s, CancelGeneration(s, store, generation), GenerationMarks(s, store, generation), gone);
    }
  }

  lemma CompleteInv(s: QuotaState, id: Key, permit: PermitId)
    requires Inv(s)
    ensures Inv(Complete(s, id, permit))
  {
    if Completes(s, id, permit) {
      CompleteCloses(s, id, permit);
      hide Inv, Closes, Complete;
      CloseOneInv(s, Complete(s, id, permit), id);
    } else {
      CounterInv(s, s.processedMessages + 1);
      hide Inv;
    }
  }

  lemma DisableInv(s: QuotaState)
    requires Inv(s)
    ensures Inv(Disable(s))
  {
    if s.disabled {
      CounterInv(s, s.processedMessages + 1);
    } else {
      DisableCloses(s);
      assert Lists(s.pendingOrder, s.pending.Keys);
      assert forall id :: id in s.pending.Keys ==> id !in s.terminal.ids;
      hide Inv, Closes, Disable, Lists;
      ClosesInv(s, Disable(s), s.pendingOrder, s.pending.Keys);
    }
  }

  lemma AdmittedRequest(s: QuotaState, r: PermitRequest)
    requires Admits(s, r)
    ensures GoodRequest(s.settings.scope, r.requestId, r) && !s.disabled && |s.pending| < PendingCap(s.settings)
    ensures !Known(s, r.requestId)
  {
  }

  lemma ListsAppend(order: seq<Key>, ids: set<Key>, id: Key)
    requires Lists(order, ids) && id !in ids
    ensures Lists(order + [id], ids + {id})
  {
    DistinctAppend(order, id);
    hide Distinct;
  }

  lemma AdmitQueue(s: QuotaState, r: PermitRequest)
    requires QueueOk(s) && Admits(s, r)
    ensures QueueOk(Admit(s, r))
  {
    AdmittedRequest(s, r);
    ListsAppend(s.pendingOrder, s.pending.Keys, r.requestId);
    hide Admits, RequestDenial, GoodRequest, Lists;
    assert s.pending[r.requestId := r].Keys == s.pending.Keys + {r.requestId};
  }

  lemma AdmitEntries(s: QuotaState, r: PermitRequest)
    requires EntriesOk(s) && ApartOk(s) && Admits(s, r)
    ensures EntriesOk(Admit(s, r)) && ApartOk(Admit(s, r))
  {
    AdmittedRequest(s, r);
    hide Admits, RequestDenial, GoodRequest, GoodReservation;
  }

  lemma AdmitInv(s: QuotaState, r: PermitRequest)
    requires Inv(s)
    ensures Inv(Admit(s, r))
  {
    if Admits(s, r) {
      AdmitQueue(s, r);
      AdmitEntries(s, r);
      hide QueueOk, EntriesOk, ApartOk, Admits, RequestDenial, GoodWindow;
    } else {
      CounterInv(s, s.processedMessages + 1);
      hide Inv;
    }
  }

  lemma GrantHeadQueue(s: QuotaState, now: int)
    requires QueueOk(s) && s.pendingOrder != [] && s.pendingOrder[0] in s.pending
    ensures QueueOk(GrantHead(s, now))
  {
    DistinctParts(s.pendingOrder, 1);
    hide Distinct;
    assert s.pendingOrder[0] in s.pendingOrder[..1];
    assert GrantHead(s, now).pending.Keys == s.pending.Keys - {s.pendingOrder[0]};
  }

  lemma GrantHeadEntries(s: QuotaState, now: int)
    requires EntriesOk(s) && ApartOk(s) && s.pendingOrder != [] && s.pendingOrder[0] in s.pending
    ensures EntriesOk(GrantHead(s, now)) && ApartOk(GrantHead(s, now))
    ensures s.pendingOrder[0] !in s.reservations && s.pending[s.pendingOrder[0]].cost > 0
  {
  }

  lemma GrantHeadFlight(s: QuotaState, now: int)
    requires FlightOk(s) && s.inFlight < s.settings.maxInFlight
    requires s.pendingOrder != [] && s.pendingOrder[0] in s.pending && s.pendingOrder[0] !in s.reservations
    ensures FlightOk(GrantHead(s, now))
  {
    assert GrantHead(s, now).reservations.Keys == s.reservations.Keys + {s.pendingOrder[0]};
  }

  lemma GrantHeadInv(s: QuotaState, now: int)
    requires Inv(s) && s.pendingOrder != [] && s.inFlight < s.settings.maxInFlight
    requires s.pendingOrder[0] in s.pending
    requires Affordable(s.window.remaining, s.pending[s.pendingOrder[0]].cost)
    ensures Inv(GrantHead(s, now))
  {
    GrantHeadQueue(s, now);
    GrantHeadEntries(s, now);
    GrantHeadFlight(s, now);
    hide QueueOk, EntriesOk, ApartOk, FlightOk, GoodWindow;
  }

  lemma QueueHead(s: QuotaState)
    requires QueueOk(s) && s.pendingOrder != []
    ensures s.pendingOrder[0] in s.pending
  {
    assert s.pendingOrder[0] in s.pendingOrder;
  }

  lemma {:induction false} GrantLoopInv(s: QuotaState, now: int)
    requires Inv(s)
    ensures Inv(GrantLoop(s, now).state)
    decreases |s.pendingOrder|
  {
    if s.pendingOrder != [] && s.inFlight < s.settings.maxInFlight {
      QueueHead(s);
      hide Inv, GrantHead;
      if Affordable(s.window.remaining, s.pending[s.pendingOrder[0]].cost) {
        GrantHeadInv(s, now);
        GrantLoopInv(GrantHead(s, now), now);
      }
    }
  }

  lemma ListedOrderIsCompact(order: seq<Key>, ids: set<Key>)
    requires Lists(order, ids)
    ensures CompactOrder(order, ids) == order
  {
    FirstOccurrencesOfListing(order, ids);
    assert ids - Elements(order) == {};
  }

  lemma NothingStale(s: QuotaState, carried: seq<Key>)
    requires EntriesOk(s)
    ensures StaleIds(s) == {} && Keep(carried, StaleIds(s)) == []
  {
    assert StaleIds(s) == {};
    KeepNone(carried, StaleIds(s));
  }

  /** On every state that satisfies the invariant, Continue-As-New carries the state over unchanged. */
  lemma CompactIsIdentity(s: QuotaState, carried: seq<Key>)
    requires Inv(s)
    ensures Compact(s, carried) == s
  {
    NothingStale(s, carried);
    assert s.reservations - {} == s.reservations;
    ListedOrderIsCompact(s.pendingOrder, s.pending.Keys);
    ListedOrderIsCompact(s.terminal.order, Elements(s.terminal.ids));
  }

  lemma ObserveInv(s: QuotaState, o: QuotaObservation, now: int)
    requires Inv(s)
    ensures Inv(Observe(s, o, now))
  {
    CounterInv(s, s.processedMessages + 1);
    hide QueueOk, EntriesOk, ApartOk, FlightOk, GoodWindow, RetryAt;
  }

  lemma AdvanceInv(s: QuotaState, now: int)
    requires Inv(s)
    ensures Inv(Advance(s, now))
  {
    hide GoodWindow, Lists, GoodRequest, GoodReservation;
  }

  lemma TurnInv(s: QuotaState, now: int)
    requires Inv(s)
    ensures Inv(GrantAvailable(s, now).state)
  {
    AdvanceInv(s, now);
    GrantLoopInv(Advance(s, now), now);
  }

  lemma ContinueInv(s: QuotaState, carried: seq<Key>)
    requires Inv(s)
    ensures Inv(Continued(s, carried))
  {
    CompactIsIdentity(s, carried);
    CounterInv(s, 0);
    hide Inv, Compact, Keep, StaleIds;
  }

  /** Every message, every grant pass and every Continue-As-New keeps the invariant. */
  lemma StepInv(s: QuotaState, e: Event)
    requires Inv(s)
    ensures Inv(Step(s, e).state)
  {
    hide Inv;
    match e
    case RequestPermit(r) => AdmitInv(s, r);
    case CancelPermit(id) => CancelInv(s, id);
    case CancelGenerationPermits(store, g) => GenerationInv(s, store, g);
    case PermitCompleted(id, p) => CompleteInv(s, id, p);
    case ObserveQuota(o, now) => ObserveInv(s, o, now);
    case DisableScope => DisableInv(s);
    case Turn(now) => TurnInv(s, now);
    case ContinueAsNew(carried) => ContinueInv(s, carried);
  }

  /** The state after a sequence of events. */
  function Run(s: QuotaState, es: seq<Event>): QuotaState {
    if es == [] then s else Step(Run(s, es[..|es| - 1]), es[|es| - 1]).state
  }

  lemma {:induction false} RunInv(s: QuotaState, es: seq<Event>)
    requires Inv(s)
    ensures Inv(Run(s, es))
  {
    if es != [] {
      RunInv(s, es[..|es| - 1]);
      StepInv(Run(s, es[..|es| - 1]), es[|es| - 1]);
    }
  }

  lemma {:induction false} GrantLoopFrame(s: QuotaState, now: int)
    ensures var t := GrantLoop(s, now).state;
            t == s.(pendingOrder := t.pendingOrder, pending := t.pending, reservations := t.reservations,
                    inFlight := t.inFlight, window := s.window.(remaining := t.window.remaining))
    decreases |s.pendingOrder|
  {
    if s.pendingOrder != [] && s.inFlight < s.settings.maxInFlight {
      var id := s.pendingOrder[0];
      if id !in s.pending {
        GrantLoopFrame(s.(pendingOrder := s.pendingOrder[1..]), now);
      } else if Affordable(s.window.remaining, s.pending[id].cost) {
        GrantLoopFrame(GrantHead(s, now), now);
      }
    }
  }

  lemma StepKeepsSettings(s: QuotaState, e: Event)
    ensures Step(s, e).state.settings == s.settings
    ensures s.disabled ==> Step(s, e).state.disabled
  {
    hide MarkAll, QueuedRequests, DisableMarks, DisableDenials, GenerationMarks, PendingOf, ReservedOf,
         CompactTerminal, CompactOrder, StaleIds, RequestDenial, ObserveWindow, AdvanceWindow;
    if e.Turn? {
      GrantLoopFrame(Advance(s, e.now), e.now);
    }
  }

  /** Settings never change, and a disabled scope stays disabled. */
  lemma {:induction false} RunKeepsSettings(s: QuotaState, es: seq<Event>)
    ensures Run(s, es).settings == s.settings
    ensures s.disabled ==> Run(s, es).disabled
  {
    if es != [] {
      RunKeepsSettings(s, es[..|es| - 1]);
      StepKeepsSettings(Run(s, es[..|es| - 1]), es[|es| - 1]);
    }
  }
}
