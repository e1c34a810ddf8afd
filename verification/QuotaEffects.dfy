/**
 What each message and each pass of the coordinator does, stated on its inputs: on the fields of the
 message and of the state it meets, and on nothing that computes the answer.
 */
module QuotaEffects {
  import opened Collections
  import opened QuotaModel
  import opened QuotaInvariant
  import opened QuotaGrants
  import opened QuotaBudget

  /** Only the message counter moved. */
  predicate OnlyCounted(s: QuotaState, t: QuotaState) {
    t == s.(processedMessages := s.processedMessages + 1)
  }

  /** The requests `ids` left the queue and the reservations and are the newest terminal ones, in this order. */
  ghost predicate Left(s: QuotaState, t: QuotaState, ids: seq<Key>) {
    && t.pending == s.pending - Elements(ids) && t.pendingOrder == Keep(s.pendingOrder, t.pending.Keys)
    && t.reservations == s.reservations - Elements(ids) && t.inFlight == |t.reservations|
    && t.terminal.ids == t.terminal.order == Newest(s.terminal.ids + ids, Max(0, s.settings.dedupWindowSize))
    && t.settings == s.settings && t.window == s.window && t.processedMessages == s.processedMessages + 1
  }

  lemma ClosesLeft(s: QuotaState, t: QuotaState, ids: seq<Key>, gone: set<Key>)
    requires Inv(s) && Closes(s, t, ids, gone) && Lists(ids, gone) && t.processedMessages == s.processedMessages + 1
    requires forall id :: id in gone ==> id !in s.terminal.ids
    ensures Left(s, t, ids)
  {
    ClosesQueue(s, t, ids, gone);
    MarkAllNewest(s.terminal, s.settings.dedupWindowSize, ids);
    assert Elements(ids) == gone;
    hide QueueOk, ApartOk, EntriesOk, MarkAll, Without, Keep, Newest, Distinct, Max;
  }

  lemma OneLeft(s: QuotaState, t: QuotaState, id: Key)
    requires Inv(s) && Closes(s, t, [id], {id}) && t.processedMessages == s.processedMessages + 1
    requires id !in s.terminal.ids
    ensures Left(s, t, [id])
  {
    SingletonLists(id);
    ClosesLeft(s, t, [id], {id});
    hide Inv, Closes, Left;
  }

  // ---- the terminal window ----

  /**
   Marking an ID forgets everything when the window has no room, changes nothing when it is known, and
   otherwise adds it last and drops the oldest entries beyond the window's size from both lists.
   */
  lemma MarkEffect(w: TerminalWindow, size: int, id: Key)
    requires Distinct(w.ids)
    ensures var t := MarkTerminal(w, size, id);
            && (size <= 0 ==> t.ids == [] && t.order == [])
            && (size > 0 && id in w.ids ==> t == w)
            && (size > 0 && id !in w.ids ==>
                  && t.order == Newest(w.order + [id], size) && Distinct(t.ids)
                  && var dropped := (w.order + [id])[..Max(0, |w.order| + 1 - size)];
                     forall x :: x in t.ids <==> (x in w.ids || x == id) && x !in dropped)
  {
    var overflow := |w.order| + 1 - size;
    if size > 0 && id !in w.ids {
      DistinctAppend(w.ids, id);
      if overflow > 0 {
        RemoveEachElements(w.ids + [id], (w.order + [id])[..overflow]);
      }
    }
  }

  // ---- completion and cancellation ----

  lemma ReservedParts(s: QuotaState, id: Key)
    requires Inv(s)
    ensures id in s.reservations ==>
              id !in s.terminal.ids && id !in s.pending && |s.reservations - {id}| == s.inFlight - 1
    ensures id in s.pending ==> id !in s.terminal.ids && id !in s.reservations
    ensures s.inFlight == |s.reservations|
  {
    CancelReservations(s, id);
  }

  /** An exact completion frees its slot and marks its ID; every other one changes nothing. */
  lemma CompletionEffect(s: QuotaState, id: Key, permit: PermitId)
    requires Inv(s)
    ensures var o := Step(s, PermitCompleted(id, permit));
            && o.grants == [] && o.denials == []
            && if id in s.reservations && s.reservations[id].permitId == permit then
                 && o.state.reservations == s.reservations - {id} && o.state.inFlight == s.inFlight - 1
                 && o.state.pending == s.pending && o.state.disabled == s.disabled && Left(s, o.state, [id])
               else OnlyCounted(s, o.state)
  {
    ReservedParts(s, id);
    if id in s.reservations && s.reservations[id].permitId == permit {
      CompleteCloses(s, id, permit);
      CancelQueue(s, id);
      OneLeft(s, Complete(s, id, permit), id);
    }
    hide Inv, MarkAll, Left;
  }

  lemma CancelLeft(s: QuotaState, id: Key)
    requires Inv(s) && id !in s.terminal.ids && id != NO_KEY
    ensures Left(s, Cancel(s, id), [id]) && Cancel(s, id).disabled == s.disabled
  {
    assert QueueOk(s) && FlightOk(s) && ApartOk(s);
    assert Cancel(s, id).processedMessages == s.processedMessages + 1 && Cancel(s, id).disabled == s.disabled;
    assert CancelMarks(s, id) == [id];
    hide *;
    CancelCloses(s, id);
    OneLeft(s, Cancel(s, id), id);
  }

  /** A cancel takes the request out of wherever it is, marks its ID, and refunds nothing. */
  lemma CancelEffect(s: QuotaState, id: Key)
    requires Inv(s)
    ensures var o := Step(s, CancelPermit(id));
            && o.grants == [] && o.denials == []
            && if id in s.terminal.ids || id == NO_KEY then OnlyCounted(s, o.state)
               else
                 && Left(s, o.state, [id]) && o.state.disabled == s.disabled
                 && o.state.inFlight == s.inFlight - (if id in s.reservations then 1 else 0)
  {
    assert EntriesOk(s);
    hide *;
    CancelOutcome(s, id);
    if id in s.terminal.ids || id == NO_KEY {
      CancelNothing(s, id);
    } else {
      CancelLeft(s, id);
      InvParts(s);
      FlightPart(s);
      CancelFlight(s, id);
    }
  }

  lemma FlightPart(s: QuotaState)
    requires Inv(s)
    ensures FlightOk(s)
  {
  }

  lemma CancelOutcome(s: QuotaState, id: Key)
    ensures var o := Step(s, CancelPermit(id)); o.grants == [] && o.denials == [] && o.state == Cancel(s, id)
  {
    hide Cancel, CancelMarks;
  }

  lemma CancelNothing(s: QuotaState, id: Key)
    requires EntriesOk(s) && (id in s.terminal.ids || id == NO_KEY)
    ensures OnlyCounted(s, Cancel(s, id))
  {
    hide MarkAll, Without;
  }

  lemma CancelFlight(s: QuotaState, id: Key)
    requires FlightOk(s) && ApartOk(s) && id !in s.terminal.ids && id != NO_KEY
    ensures Cancel(s, id).inFlight == s.inFlight - (if id in s.reservations then 1 else 0)
  {
    CancelReservations(s, id);
    hide MarkAll, Without;
  }

  /** The open requests of one store generation. */
  function OpenOf(s: QuotaState, store: Key, generation: int): set<Key> {
    (set id | id in s.pending && (s.pending[id].storeKey, s.pending[id].generation) == (store, generation))
    + (set id | id in s.reservations
             && (s.reservations[id].storeKey, s.reservations[id].generation) == (store, generation))
  }

  /** Cancelling a generation takes out exactly its requests, and marks them in the order of their IDs. */
  lemma GenerationEffect(s: QuotaState, store: Key, generation: int) returns (ids: seq<Key>)
    requires Inv(s)
    ensures Lists(ids, OpenOf(s, store, generation)) && forall i, j :: 0 <= i < j < |ids| ==> ids[i] < ids[j]
    ensures var o := Step(s, CancelGenerationPermits(store, generation));
            && o.grants == [] && o.denials == [] && o.state.disabled == s.disabled
            && if ids == [] then OnlyCounted(s, o.state) else Left(s, o.state, ids)
  {
    ids := GenerationMarks(s, store, generation);
    hide *;
    GenerationOutcome(s, store, generation);
    if ids != [] {
      GenerationLeft(s, store, generation);
    }
  }

  lemma GenerationOutcome(s: QuotaState, store: Key, generation: int)
    ensures var ids := GenerationMarks(s, store, generation);
            Lists(ids, OpenOf(s, store, generation)) && forall i, j :: 0 <= i < j < |ids| ==> ids[i] < ids[j]
    ensures var o := Step(s, CancelGenerationPermits(store, generation));
            && o.grants == [] && o.denials == [] && o.state.disabled == s.disabled
            && o.state == CancelGeneration(s, store, generation)
            && (GenerationMarks(s, store, generation) == [] ==> OnlyCounted(s, o.state))
  {
    assert PendingOf(s, store, generation) + ReservedOf(s, store, generation) == OpenOf(s, store, generation);
    GenerationIds(s, store, generation);
    hide PendingOf, ReservedOf, OpenOf, Lists, MarkAll, Without, Released;
  }

  lemma GenerationLeft(s: QuotaState, store: Key, generation: int)
    requires Inv(s) && GenerationMarks(s, store, generation) != []
    ensures Left(s, CancelGeneration(s, store, generation), GenerationMarks(s, store, generation))
  {
    var gone := PendingOf(s, store, generation) + ReservedOf(s, store, generation);
    assert CancelGeneration(s, store, generation).processedMessages == s.processedMessages + 1;
    assert FlightOk(s) && ApartOk(s);
    hide Inv, FlightOk, ApartOk, MarkAll, Left, Closes, PendingOf, ReservedOf, Lists, Without, Released,
         GenerationMarks, CancelGeneration;
    GenerationIds(s, store, generation);
    GenerationCloses(s, store, generation);
    forall id | id in gone ensures id !in s.terminal.ids {
      GenerationApart(s, store, generation, id);
    }
    ClosesLeft(s, CancelGeneration(s, store, generation), GenerationMarks(s, store, generation), gone);
  }

  // ---- admission and disabling ----

  /** Whether a request may be queued, and if it may not, why. */
  ghost predicate Refusal(s: QuotaState, r: PermitRequest, reason: DenialReason) {
    match reason
    case EmptyRequestId => r.requestId == NO_KEY
    case CostNotPositive => r.requestId != NO_KEY && r.cost <= 0
    case ScopeMismatch => r.requestId != NO_KEY && r.cost > 0 && r.scope != s.settings.scope
    case NoRequester => r.requestId != NO_KEY && r.cost > 0 && r.scope == s.settings.scope && r.requester == NO_KEY
    case ScopeDisabled => Wellformed(s, r) && s.disabled
    case AtCapacity =>
      Wellformed(s, r) && !s.disabled && (|s.pending| >= 350 || |s.pending| >= Max(1, s.settings.maxPendingRequests))
    case DisabledWhilePending => false
  }

  predicate Wellformed(s: QuotaState, r: PermitRequest) {
    r.requestId != NO_KEY && r.cost > 0 && r.scope == s.settings.scope && r.requester != NO_KEY
  }

  /**
   A request joins the back of the queue exactly when its ID is new, it is well formed, the scope is
   enabled and fewer than the cap of 350 or less are queued; a new one that does not join is denied
   with the first reason, to its requester if it names one, and only a full queue is worth a retry.
   */
  lemma AdmissionEffect(s: QuotaState, r: PermitRequest)
    requires Inv(s)
    ensures var o := Step(s, RequestPermit(r));
            var unknown :=
              r.requestId !in s.pending && r.requestId !in s.reservations && r.requestId !in s.terminal.ids;
            && o.grants == []
            && (!unknown ==> o.denials == [] && OnlyCounted(s, o.state))
            && (unknown && (exists reason :: Refusal(s, r, reason)) ==> OnlyCounted(s, o.state))
            && (unknown && (forall reason :: !Refusal(s, r, reason)) ==>
                  && o.denials == []
                  && o.state == s.(pending := s.pending[r.requestId := r],
                                   pendingOrder := s.pendingOrder + [r.requestId],
                                   processedMessages := s.processedMessages + 1))
            && (forall reason :: unknown && Refusal(s, r, reason) ==>
                  o.denials ==
                    if r.requester == NO_KEY then []
                    else [Denial(r.requester, PermitDenied(r.requestId, r.scope, reason, reason.AtCapacity?))])
  {
    var denial := RequestDenial(s, r);
    if denial.Some? && !Known(s, r.requestId) {
      assert Refusal(s, r, denial.value.reason);
    }
  }

  lemma QueuedAre(s: QuotaState)
    requires QueueOk(s) && EntriesOk(s)
    ensures var rs := QueuedRequests(s);
            |rs| == |s.pendingOrder|
            && forall i :: 0 <= i < |rs| ==> s.pendingOrder[i] in s.pending && rs[i] == s.pending[s.pendingOrder[i]]
  {
    KeepAll(s.pendingOrder, s.pending.Keys);
    forall i | 0 <= i < |s.pendingOrder| ensures s.pendingOrder[i] in s.pending {
      assert s.pendingOrder[i] in s.pendingOrder;
    }
  }

  /** Disabling denies every queued request, in queue order and for good, and keeps the reservations. */
  lemma DisableEffect(s: QuotaState)
    requires Inv(s)
    ensures var o := Step(s, DisableScope);
            && o.grants == [] && o.state.disabled
            && if s.disabled then o.denials == [] && OnlyCounted(s, o.state)
               else
                 && Left(s, o.state, s.pendingOrder) && o.state.pending == map[] && o.state.pendingOrder == []
                 && o.state.reservations == s.reservations && |o.denials| == |s.pendingOrder|
                 && forall i :: 0 <= i < |o.denials| ==>
                      var id := s.pendingOrder[i];
                      id in s.pending && o.denials[i] == Denial(s.pending[id].requester,
                        PermitDenied(id, s.settings.scope, DisabledWhilePending, false))
  {
    hide *;
    DisableOutcome(s);
    if !s.disabled {
      DisableLeft(s);
      InvParts(s);
      DisableDenies(s);
    }
  }

  lemma DisableOutcome(s: QuotaState)
    ensures var o := Step(s, DisableScope);
            && o.state == Disable(s) && o.denials == DisableDenials(s) && o.grants == [] && o.state.disabled
            && (s.disabled ==> o.denials == [] && OnlyCounted(s, o.state))
            && (!s.disabled ==>
                  o.state.pending == map[] && o.state.pendingOrder == [] && o.state.reservations == s.reservations)
  {
    hide MarkAll, DisableMarks, QueuedRequests;
  }

  lemma DisableDenies(s: QuotaState)
    requires QueueOk(s) && EntriesOk(s) && !s.disabled
    ensures var denials := DisableDenials(s);
            |denials| == |s.pendingOrder|
            && forall i :: 0 <= i < |denials| ==>
                 var id := s.pendingOrder[i];
                 id in s.pending && denials[i] == Denial(s.pending[id].requester,
                   PermitDenied(id, s.settings.scope, DisabledWhilePending, false))
  {
    QueuedAre(s);
    assert forall id :: id in s.pending ==> GoodRequest(s.settings.scope, id, s.pending[id]);
    hide QueueOk, EntriesOk, QueuedRequests;
  }

  lemma DisableLeft(s: QuotaState)
    requires Inv(s) && !s.disabled
    ensures Left(s, Disable(s), s.pendingOrder)
  {
    DisableCloses(s);
    assert Lists(s.pendingOrder, s.pending.Keys) && forall id :: id in s.pending.Keys ==> id !in s.terminal.ids;
    assert Disable(s).processedMessages == s.processedMessages + 1;
    hide Inv, Closes, Left, Disable, Lists;
    ClosesLeft(s, Disable(s), s.pendingOrder, s.pending.Keys);
  }

  // ---- observations ----

  /** `d` is the latest of some deadlines. */
  ghost predicate Latest(d: Option<int>, deadlines: set<int>) {
    if deadlines == {} then d.None? else d.Some? && d.value in deadlines && forall x :: x in deadlines ==> x <= d.value
  }

  function AsSet(d: Option<int>): set<int> {
    if d.Some? then {d.value} else {}
  }

  /** Until when an exhausted answer asks to wait: its Retry-After, its reset, or else a minute. */
  function WaitsFor(o: QuotaObservation, now: int): set<int> {
    AsSet(o.resetAt)
    + (if o.retryAfter.Some? then {now + Max(0, o.retryAfter.value)} else {})
    + (if o.retryAfter.None? && o.resetAt.None? then {now + 60_000_000} else {})
  }

  /**
   An answer for another scope changes nothing.  One for this scope sets the limit it names, lowers a
   known balance and never raises it, moves the reset only forward, and when it says "exhausted"
   empties the balance and blocks until the latest of the old block and everything it asks to wait for.
   */
  lemma ObservationEffect(s: QuotaState, o: QuotaObservation, now: int)
    ensures var t := Step(s, ObserveQuota(o, now)).state; var w, v := s.window, t.window;
            && t == s.(window := v, processedMessages := s.processedMessages + 1)
            && if o.scope != s.settings.scope then v == w
               else
                 && v.id == w.id
                 && v.limit == (if o.limit.None? then w.limit else Some(Max(0, o.limit.value)))
                 && Latest(v.resetAt, AsSet(w.resetAt) + AsSet(o.resetAt))
                 && (!o.exhausted && o.remaining.None? ==> v.remaining == w.remaining)
                 && (!o.exhausted && o.remaining.Some? ==>
                       && v.remaining.Some? && v.remaining.value <= Max(0, o.remaining.value)
                       && (w.remaining.Some? ==> v.remaining.value <= w.remaining.value)
                       && (v.remaining.value == Max(0, o.remaining.value) || v.remaining == w.remaining))
                 && (!o.exhausted ==> v.blockedUntil == w.blockedUntil)
                 && (o.exhausted ==>
                       v.remaining == Some(0) && Latest(v.blockedUntil, AsSet(w.blockedUntil) + WaitsFor(o, now)))
  {
  }

  /**
   After an exhausted answer nothing is granted, in any run, before any of the deadlines it asks to wait
   for, or before a block or reset that was already known.
   */
  lemma NoGrantBeforeAnyWait(s: QuotaState, o: QuotaObservation, now: int, es: seq<Event>, d: int)
    requires Inv(s) && o.exhausted && o.scope == s.settings.scope
    requires d in WaitsFor(o, now) + AsSet(s.window.blockedUntil) + AsSet(s.window.resetAt)
    requires forall e :: e in es && e.Turn? ==> e.now < d
    ensures RunGrants(Step(s, ObserveQuota(o, now)).state, es) == []
  {
    hide *;
    StepInv(s, ObserveQuota(o, now));
    HeldForEach(s, o, now, d);
    RunHeld(Step(s, ObserveQuota(o, now)).state, es, d);
  }

  lemma HeldForEach(s: QuotaState, o: QuotaObservation, now: int, d: int)
    requires o.exhausted && o.scope == s.settings.scope
    requires d in WaitsFor(o, now) + AsSet(s.window.blockedUntil) + AsSet(s.window.resetAt)
    ensures HeldUntil(Step(s, ObserveQuota(o, now)).state.window, d)
  {
    ObservationEffect(s, o, now);
    hide Step;
  }

  // ---- grant passes ----

  /** A deadline has been reached. */
  predicate Reached(d: Option<int>, now: int) {
    d.Some? && d.value <= now
  }

  /**
   What a pass does to the window before it grants.  A block whose scope has a later reset is lengthened
   to it; otherwise a reached deadline opens a new window, named after the old one and the later of the
   reached deadlines, with the full limit and without them; otherwise nothing happens.
   */
  ghost predicate Opened(w: QuotaWindow, v: QuotaWindow, now: int) {
    && v.limit == w.limit
    && if Reached(w.blockedUntil, now) && w.resetAt.Some? && w.resetAt.value > now then
         v == w.(blockedUntil := w.resetAt)
       else if Reached(w.blockedUntil, now) || Reached(w.resetAt, now) then
         && v.remaining == w.limit
         && v.blockedUntil == (if Reached(w.blockedUntil, now) then None else w.blockedUntil)
         && v.resetAt == (if Reached(w.resetAt, now) then None else w.resetAt)
         && v.id.NextWindow? && v.id.previous == w.id
         && Latest(Some(v.id.boundary), set d | d in AsSet(w.blockedUntil) + AsSet(w.resetAt) && d <= now)
       else v == w
  }

  lemma AdvanceOpens(w: QuotaWindow, now: int)
    ensures Opened(w, AdvanceWindow(w, now), now)
  {
  }

  /** A grant and a reservation that carry the same permit of window `w` for request `r`. */
  predicate Matches(r: PermitRequest, w: WindowId, scope: QuotaScope, now: int, g: PermitGrant, v: PermitReservation) {
    && g.requestId == v.requestId == r.requestId && g.cost == v.cost == r.cost && g.scope == scope
    && g.window == v.window == w && g.permitId == v.permitId == PermitId(r.requestId, w)
    && v.requester == r.requester && v.storeKey == r.storeKey && v.generation == r.generation
    && v.status == Granted && v.grantedAt == Some(now)
  }

  /** The first `k` queued requests fit: a slot for each, and a known balance covers all their costs. */
  ghost predicate Room(s: QuotaState, w: QuotaWindow, k: nat) {
    && k <= |s.pendingOrder| && s.inFlight + k <= s.settings.maxInFlight
    && (w.remaining.Some? ==> CostOf(s.pendingOrder[..k], s.pending) <= w.remaining.value)
  }

  /** What a pass that opened window `w` and granted the first `k` queued requests leaves of queue and window. */
  ghost predicate PassedQueue(s: QuotaState, w: QuotaWindow, t: QuotaState, k: nat) {
    && k <= |s.pendingOrder| && t.pendingOrder == s.pendingOrder[k..]
    && t.inFlight == s.inFlight + k && t.terminal == s.terminal && t.disabled == s.disabled
    && t.window == w.(remaining := if w.remaining.None? then None
                                   else Some(w.remaining.value - CostOf(s.pendingOrder[..k], s.pending)))
  }

  /** Each of the first queued requests got its own reservation and grant. */
  ghost predicate PassedGrants(s: QuotaState, w: QuotaWindow, now: int, t: QuotaState, grants: seq<PermitGrant>) {
    && |grants| <= |s.pendingOrder|
    && forall i :: 0 <= i < |grants| ==>
         var id := s.pendingOrder[i];
         id in s.pending && id in t.reservations && id !in s.reservations
         && Matches(s.pending[id], w.id, s.settings.scope, now, grants[i], t.reservations[id])
  }

  /** All earlier reservations stay, and there are no others than those of the first `k` queued requests. */
  ghost predicate PassedReservations(s: QuotaState, t: QuotaState, k: nat) {
    && k <= |s.pendingOrder|
    && (forall id :: id in s.reservations ==> id in t.reservations && t.reservations[id] == s.reservations[id])
    && (forall id :: id in t.reservations && id !in s.reservations ==> id in s.pendingOrder[..k])
  }

  ghost predicate Passed(s: QuotaState, w: QuotaWindow, now: int, o: Outcome, k: nat) {
    && |o.grants| == k && PassedQueue(s, w, o.state, k)
    && PassedGrants(s, w, now, o.state, o.grants) && PassedReservations(s, o.state, k)
  }

  /**
   A pass opens the window that is due; it grants nothing while the scope is disabled or its block is not
   reached, and otherwise the longest run of queued requests from the front that there is room for.
   */
  lemma PassEffect(s: QuotaState, now: int) returns (w: QuotaWindow, k: nat)
    requires Inv(s)
    ensures Opened(s.window, w, now) && Passed(s, w, now, Step(s, Turn(now)), k)
    ensures var blocked := s.disabled || (w.blockedUntil.Some? && w.blockedUntil.value > now);
            if blocked then k == 0
            else (k == 0 || Room(s, w, k)) && forall j: nat :: Room(s, w, j) ==> j <= k
  {
    w := AdvanceWindow(s.window, now);
    AdvanceOpens(s.window, now);
    var a, g := Advance(s, now), GrantAvailable(s, now);
    k := |g.grants|;
    if IsBlocked(a, now) {
      BlockedGrantsNothing(s, now);
      BlockedPass(s, now);
    } else {
      GreedyIsLongestPrefix(s, now);
      OpenPass(s, now);
      RoomIsFits(s, now);
    }
    hide Inv, GrantAvailable, AdvanceWindow, Opened, Passed, Room, Fits, MovesPrefix, MovesEntries, GrantsPrefix;
  }

  lemma BlockedPass(s: QuotaState, now: int)
    requires GrantAvailable(s, now) == Granting(Advance(s, now), [])
    ensures Passed(s, AdvanceWindow(s.window, now), now, Step(s, Turn(now)), 0)
  {
    var w := AdvanceWindow(s.window, now);
    var t := s.(window := w);
    assert Step(s, Turn(now)) == Outcome(t, [], [], []);
    assert PassedQueue(s, w, t, 0) by {
      assert s.pendingOrder[..0] == [] && s.pendingOrder[0..] == s.pendingOrder;
      hide AdvanceWindow;
    }
    assert PassedGrants(s, w, now, t, []) && PassedReservations(s, t, 0) by { hide AdvanceWindow; }
    hide PassedQueue, PassedGrants, PassedReservations, AdvanceWindow, GrantAvailable;
  }

  lemma RoomIsFits(s: QuotaState, now: int)
    ensures forall j: nat :: Room(s, AdvanceWindow(s.window, now), j) <==> Fits(Advance(s, now), j)
  {
    hide AdvanceWindow, CostOf;
  }

  lemma OpenPass(s: QuotaState, now: int)
    requires Inv(s) && !IsBlocked(Advance(s, now), now)
    ensures Passed(s, AdvanceWindow(s.window, now), now, Step(s, Turn(now)), |GrantAvailable(s, now).grants|)
  {
    var a, g := Advance(s, now), GrantAvailable(s, now);
    assert a == s.(window := AdvanceWindow(s.window, now));
    assert Step(s, Turn(now)) == Outcome(g.state, g.grants, [], []);
    hide *;
    AdvanceInv(s, now);
    TurnInv(s, now);
    GreedyIsLongestPrefix(s, now);
    PassFrame(s, now);
    AssemblePass(s, AdvanceWindow(s.window, now), a, g, now);
  }

  lemma AssemblePass(s: QuotaState, w: QuotaWindow, a: QuotaState, g: Granting, now: int)
    requires a == s.(window := w) && Inv(a) && Inv(g.state) && MovesPrefix(a, g, |g.grants|)
    requires GrantsPrefix(a, g.grants) && MovesEntries(a, g.state, now)
    requires g.state.terminal == s.terminal && g.state.disabled == s.disabled
    ensures Passed(s, w, now, Outcome(g.state, g.grants, [], []), |g.grants|)
  {
    hide *;
    QueuePassed(s, w, a, g);
    GrantedMatch(a, g, now);
    OnlyGranted(a, g, now);
    ReservationsStay(a, g.state, now);
    SamePass(s, w, a, g, now);
  }

  lemma QueuePassed(s: QuotaState, w: QuotaWindow, a: QuotaState, g: Granting)
    requires a == s.(window := w) && MovesPrefix(a, g, |g.grants|)
    requires g.state.terminal == s.terminal && g.state.disabled == s.disabled
    ensures PassedQueue(s, w, g.state, |g.grants|)
    ensures |g.grants| <= |a.pendingOrder| && g.state.pendingOrder == a.pendingOrder[|g.grants|..]
  {
    hide CostOf;
  }

  lemma ReservationsStay(a: QuotaState, t: QuotaState, now: int)
    requires MovesEntries(a, t, now)
    ensures forall id :: id in a.reservations ==> id in t.reservations && t.reservations[id] == a.reservations[id]
  {
    hide ReservationFor;
  }

  lemma SamePass(s: QuotaState, w: QuotaWindow, a: QuotaState, g: Granting, now: int)
    requires a == s.(window := w) && PassedQueue(s, w, g.state, |g.grants|) && |g.grants| <= |a.pendingOrder|
    requires forall i :: 0 <= i < |g.grants| ==>
               var id := a.pendingOrder[i];
               id in a.pending && id in g.state.reservations && id !in a.reservations
               && Matches(a.pending[id], a.window.id, a.settings.scope, now, g.grants[i], g.state.reservations[id])
    requires forall id :: id in a.reservations ==>
               id in g.state.reservations && g.state.reservations[id] == a.reservations[id]
    requires forall id :: id in g.state.reservations && id !in a.reservations ==> id in a.pendingOrder[..|g.grants|]
    ensures Passed(s, w, now, Outcome(g.state, g.grants, [], []), |g.grants|)
  {
    hide Matches, PassedQueue;
    assert PassedGrants(s, w, now, g.state, g.grants);
    assert PassedReservations(s, g.state, |g.grants|) by { hide PassedGrants; }
    hide PassedGrants, PassedReservations;
  }

  lemma PassFrame(s: QuotaState, now: int)
    ensures var t := GrantAvailable(s, now).state; t.terminal == s.terminal && t.disabled == s.disabled
  {
    GrantLoopFrame(Advance(s, now), now);
    hide GrantLoop, AdvanceWindow, IsBlocked;
  }

  lemma GrantedMatches(a: QuotaState, t: QuotaState, id: Key, g: PermitGrant, now: int)
    requires EntriesOk(a) && ApartOk(a) && MovesEntries(a, t, now) && id in a.pending && id !in t.pending
    requires g == GrantFor(a, a.pending[id])
    ensures id in t.reservations && id !in a.reservations
    ensures Matches(a.pending[id], a.window.id, a.settings.scope, now, g, t.reservations[id])
  {
    assert GoodRequest(a.settings.scope, id, a.pending[id]);
  }

  lemma GrantedLeave(a: QuotaState, t: QuotaState, k: nat, i: nat)
    requires QueueOk(a) && QueueOk(t) && i < k <= |a.pendingOrder| && t.pendingOrder == a.pendingOrder[k..]
    ensures a.pendingOrder[i] in a.pending && a.pendingOrder[i] !in t.pending
  {
    DistinctParts(a.pendingOrder, k);
    assert a.pendingOrder[i] in a.pendingOrder[..k] && a.pendingOrder[i] in a.pendingOrder;
    hide Distinct;
  }

  lemma GrantedMatch(a: QuotaState, g: Granting, now: int)
    requires Inv(a) && Inv(g.state) && GrantsPrefix(a, g.grants) && MovesEntries(a, g.state, now)
    requires g.state.pendingOrder == a.pendingOrder[|g.grants|..]
    ensures forall i :: 0 <= i < |g.grants| ==>
              var id := a.pendingOrder[i];
              id in a.pending && id in g.state.reservations && id !in a.reservations
              && Matches(a.pending[id], a.window.id, a.settings.scope, now, g.grants[i], g.state.reservations[id])
  {
    InvParts(a);
    InvParts(g.state);
    hide Inv, GoodWindow, QueueOk, EntriesOk, ApartOk, MovesEntries, Matches, GrantFor;
    forall i | 0 <= i < |g.grants|
      ensures a.pendingOrder[i] in a.pending && a.pendingOrder[i] in g.state.reservations
      ensures a.pendingOrder[i] !in a.reservations
      ensures Matches(a.pending[a.pendingOrder[i]], a.window.id, a.settings.scope, now, g.grants[i],
                      g.state.reservations[a.pendingOrder[i]])
    {
      GrantedLeave(a, g.state, |g.grants|, i);
      GrantedMatches(a, g.state, a.pendingOrder[i], g.grants[i], now);
    }
  }

  lemma OnlyGranted(a: QuotaState, g: Granting, now: int)
    requires Inv(a) && Inv(g.state) && MovesEntries(a, g.state, now) && |g.grants| <= |a.pendingOrder|
    requires g.state.pendingOrder == a.pendingOrder[|g.grants|..]
    ensures forall id :: id in g.state.reservations && id !in a.reservations ==> id in a.pendingOrder[..|g.grants|]
  {
    InvParts(a);
    InvParts(g.state);
    DistinctParts(a.pendingOrder, |g.grants|);
    hide Inv, GoodWindow, Distinct, ReservationFor, EntriesOk;
  }

  /** The state with its queue rid of every entry outside `ids`. */
  function Queueing(s: QuotaState, ids: set<Key>): QuotaState {
    s.(pendingOrder := Keep(s.pendingOrder, ids))
  }

  lemma KeepHead(s: seq<Key>, ids: set<Key>)
    requires s != []
    ensures Keep(s, ids) == (if s[0] in ids then [s[0]] else []) + Keep(s[1..], ids)
  {
    assert s == [s[0]] + s[1..];
    KeepAppend([s[0]], s[1..], ids);
    assert [s[0]][..0] == [];
  }

  lemma StaleHead(s: QuotaState, now: int, ids: set<Key>)
    requires s.pendingOrder != [] && s.inFlight < s.settings.maxInFlight && s.pendingOrder[0] !in s.pending
    ensures var t := s.(pendingOrder := s.pendingOrder[1..]);
            && GrantLoop(s, now) == GrantLoop(t, now)
            && GrantLoop(Queueing(s, ids), now) == GrantLoop(Queueing(t, ids), now)
  {
    KeepHead(s.pendingOrder, ids);
    var t, k := s.(pendingOrder := s.pendingOrder[1..]), Queueing(s, ids);
    if s.pendingOrder[0] in ids {
      assert k.pendingOrder[1..] == Keep(t.pendingOrder, ids);
      assert k.(pendingOrder := k.pendingOrder[1..]) == Queueing(t, ids);
    } else {
      assert k == Queueing(t, ids);
    }
    hide Keep, GrantHead, GrantFor;
  }

  lemma LiveHead(s: QuotaState, now: int, ids: set<Key>)
    requires s.pendingOrder != [] && s.pendingOrder[0] in s.pending && s.pendingOrder[0] in ids
    ensures var k := Queueing(s, ids);
            && k.pendingOrder != [] && k.pendingOrder[0] == s.pendingOrder[0]
            && GrantHead(k, now) == Queueing(GrantHead(s, now), ids)
  {
    KeepHead(s.pendingOrder, ids);
    assert Queueing(s, ids).pendingOrder[1..] == Keep(s.pendingOrder[1..], ids);
    hide Keep, ReservationFor;
  }

  /**
   Entries of a carried queue that name no pending request have no bearing on what is granted: the
   grant loop does with them what it does without them.
   */
  lemma {:induction false} StaleEntriesAreSkipped(s: QuotaState, now: int, ids: set<Key>)
    requires s.pending.Keys <= ids
    ensures var all, kept := GrantLoop(s, now), GrantLoop(Queueing(s, ids), now);
            all.grants == kept.grants && Queueing(all.state, ids) == kept.state
    decreases |s.pendingOrder|
  {
    if s.pendingOrder != [] && s.inFlight < s.settings.maxInFlight {
      if s.pendingOrder[0] !in s.pending {
        StaleHead(s, now, ids);
        StaleEntriesAreSkipped(s.(pendingOrder := s.pendingOrder[1..]), now, ids);
        hide GrantLoop, Queueing;
      } else {
        LiveHead(s, now, ids);
        if Affordable(s.window.remaining, s.pending[s.pendingOrder[0]].cost) {
          StaleEntriesAreSkipped(GrantHead(s, now), now, ids);
        }
        hide Keep, GrantHead;
      }
    }
  }

  /** A whole pass grants what it would grant if the queue named pending requests only. */
  lemma PassSkipsStaleEntries(s: QuotaState, now: int)
    ensures Step(s, Turn(now)).grants == Step(Queueing(s, s.pending.Keys), Turn(now)).grants
    ensures var t, k := Step(s, Turn(now)).state, Step(Queueing(s, s.pending.Keys), Turn(now)).state;
            Queueing(t, s.pending.Keys) == Queueing(k, s.pending.Keys)
  {
    var ids := s.pending.Keys;
    var a := Advance(s, now);
    assert Advance(Queueing(s, ids), now) == Queueing(a, ids);
    StaleEntriesAreSkipped(a, now, ids);
    QueueingTwice(s, ids);
    QueueingTwice(GrantLoop(a, now).state, ids);
    hide Keep, GrantLoop, AdvanceWindow;
  }

  lemma QueueingTwice(s: QuotaState, ids: set<Key>)
    ensures Queueing(Queueing(s, ids), ids) == Queueing(s, ids)
  {
    KeepElements(s.pendingOrder, ids);
    KeepAll(Keep(s.pendingOrder, ids), ids);
  }

  /** Continuing as new carries everything over and only starts counting messages again. */
  lemma ContinueEffect(s: QuotaState, carried: seq<Key>)
    requires Inv(s)
    ensures var o := Step(s, ContinueAsNew(carried));
            o.state == s.(processedMessages := 0) && o.grants == [] && o.denials == []
  {
    CompactIsIdentity(s, carried);
    hide Inv, Compact, Keep, StaleIds;
  }

  /** The armed timer waits exactly until the earliest known deadline, and exists only with one. */
  lemma TimerEffect(s: QuotaState, now: int)
    ensures var d := NextTimerDelay(s, now); var known := AsSet(s.window.blockedUntil) + AsSet(s.window.resetAt);
            && (d.None? <==> known == {})
            && (d.Some? ==>
                  && (forall x :: x in known ==> d.value <= Max(0, x - now))
                  && exists x :: x in known && d.value == Max(0, x - now))
  {
    var d := NextTimerDelay(s, now);
    if d.Some? {
      var x := MinDeadline(s.window.blockedUntil, s.window.resetAt).value;
      assert x in AsSet(s.window.blockedUntil) + AsSet(s.window.resetAt) && d.value == Max(0, x - now);
    }
  }
}
