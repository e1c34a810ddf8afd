/**
 The coordinator as the workflow runs it: one mutable state record whose functions update it in
 place, and the workflow object around it.  Every method is proved against QuotaModel.
 */
module QuotaCoordinator {
  import opened Collections
  import opened QuotaModel

  lemma {:induction false} RemoveEachAppend<T>(s: seq<T>, xs: seq<T>, x: T)
    ensures RemoveEach(s, xs + [x]) == RemoveFirst(RemoveEach(s, xs), x)
    decreases |xs|
  {
    if xs == [] {
      assert [x][1..] == [];
      assert [] + [x] == [x];
    } else {
      assert (xs + [x])[1..] == xs[1..] + [x];
      RemoveEachAppend(RemoveFirst(s, xs[0]), xs[1..], x);
    }
  }

  lemma {:induction false} RemoveFirstAbsent<T>(s: seq<T>, x: T)
    requires x !in s
    ensures RemoveFirst(s, x) == s
  {
    if s != [] {
      assert s == [s[0]] + s[1..];
      RemoveFirstAbsent(s[1..], x);
    }
  }

  lemma MarkAllAppend(w: TerminalWindow, size: int, ids: seq<Key>, id: Key)
    ensures MarkAll(w, size, ids + [id]) == MarkTerminal(MarkAll(w, size, ids), size, id)
  {
    assert (ids + [id])[..|ids|] == ids;
  }

  lemma MarkAllNone(w: TerminalWindow, size: int)
    ensures MarkAll(w, size, []) == w
  {
  }

  lemma MarkAllOne(w: TerminalWindow, size: int, id: Key)
    ensures MarkAll(w, size, [id]) == MarkTerminal(w, size, id)
  {
    MarkAllAppend(w, size, [], id);
    assert [] + [id] == [id];
  }

  /** `s` after the entries in `ids` were popped, released and marked, one after another. */
  function PopEach(s: QuotaState, ids: seq<Key>): QuotaState {
    Mark(s.(pending := s.pending - Elements(ids),
            reservations := s.reservations - Elements(ids),
            inFlight := Released(s.inFlight, |s.reservations.Keys * Elements(ids)|)), ids)
  }

  lemma ElementsAppend(ids: seq<Key>, id: Key)
    ensures Elements(ids + [id]) == Elements(ids) + {id}
  {
  }

  lemma CommonGrows(held: set<Key>, gone: set<Key>, id: Key)
    requires id !in gone
    ensures |held * (gone + {id})| == |held * gone| + (if id in held then 1 else 0)
  {
    if id in held {
      assert held * (gone + {id}) == held * gone + {id};
    } else {
      assert held * (gone + {id}) == held * gone;
    }
  }

  lemma PopOneMoreEntry<V>(m: map<Key, V>, ids: seq<Key>, id: Key)
    ensures m - Elements(ids + [id]) == (m - Elements(ids)) - {id}
  {
    ElementsAppend(ids, id);
  }

  lemma PopOneMoreReleased(held: set<Key>, inFlight: int, ids: seq<Key>, id: Key)
    requires id !in ids
    ensures var t := Released(inFlight, |held * Elements(ids)|);
            Released(inFlight, |held * Elements(ids + [id])|) == if id in held then Max(0, t - 1) else t
  {
    ElementsAppend(ids, id);
    CommonGrows(held, Elements(ids), id);
  }

  /** The state after popping, releasing and marking one entry. */
  function PopOne(s: QuotaState, id: Key): QuotaState {
    s.(pending := s.pending - {id}, reservations := s.reservations - {id},
       inFlight := if id in s.reservations then Max(0, s.inFlight - 1) else s.inFlight,
       terminal := MarkTerminal(s.terminal, s.settings.dedupWindowSize, id))
  }

  lemma PopOneMore(s: QuotaState, ids: seq<Key>, id: Key)
    requires id !in ids
    ensures PopEach(s, ids + [id]) == PopOne(PopEach(s, ids), id)
  {
    PopOneMoreEntry(s.pending, ids, id);
    PopOneMoreEntry(s.reservations, ids, id);
    PopOneMoreReleased(s.reservations.Keys, s.inFlight, ids, id);
    MarkAllAppend(s.terminal, s.settings.dedupWindowSize, ids, id);
    assert (id in s.reservations - Elements(ids)) == (id in s.reservations);
    hide MarkAll, MarkTerminal, Released, Elements;
  }

  lemma PopNone(s: QuotaState)
    ensures PopEach(s, []) == s
  {
    assert Elements<Key>([]) == {};
    assert s.pending - {} == s.pending && s.reservations - {} == s.reservations;
    assert s.reservations.Keys * {} == {};
  }

  lemma CancelGenerationPops(s: QuotaState, store: Key, generation: int)
    ensures var gone := PendingOf(s, store, generation) + ReservedOf(s, store, generation);
            PendingOf(Counted(s), store, generation) + ReservedOf(Counted(s), store, generation) == gone &&
            (gone == {} ==> CancelGeneration(s, store, generation) == Counted(s)) &&
            (gone != {} ==>
              CancelGeneration(s, store, generation)
              == PopEach(Counted(s), SortedKeys(gone)).(pendingOrder := Without(s.pendingOrder, gone)))
  {
    assert PendingOf(Counted(s), store, generation) == PendingOf(s, store, generation);
    assert ReservedOf(Counted(s), store, generation) == ReservedOf(s, store, generation);
    var gone := PendingOf(s, store, generation) + ReservedOf(s, store, generation);
    assert Elements(SortedKeys(gone)) == gone;
    hide MarkAll, Released, Without, PendingOf, ReservedOf, Elements;
  }

  lemma MarkNothing(w: TerminalWindow, size: int, xs: set<Key>)
    ensures MarkAll(w, size, Keep([], xs)) == w
  {
  }

  lemma KeepAppendOne(s: seq<Key>, x: Key, xs: set<Key>)
    ensures Keep(s + [x], xs) == Keep(s, xs) + (if x in xs then [x] else [])
  {
    assert (s + [x])[..|s|] == s;
  }

  class UserQuotaState {
    const settings: QuotaSettings
    var configuredLimit: Option<int>
    var remaining: Option<int>
    var resetAt: Option<int>
    var blockedUntil: Option<int>
    var quotaWindowId: WindowId
    var inFlight: int
    var disabled: bool
    var pending: map<Key, PermitRequest>
    var pendingOrder: seq<Key>
    var reservations: map<Key, PermitReservation>
    var terminalIds: seq<Key>
    var terminalOrder: seq<Key>
    var processedMessages: int

    function View(): QuotaState
      reads this
    {
      QuotaState(settings,
                 QuotaWindow(configuredLimit, remaining, resetAt, blockedUntil, quotaWindowId),
                 inFlight, disabled, pending, pendingOrder, reservations,
                 TerminalWindow(terminalIds, terminalOrder), processedMessages)
    }

    constructor (s: QuotaState)
      ensures View() == s
    {
      settings := s.settings;
      configuredLimit, remaining := s.window.limit, s.window.remaining;
      resetAt, blockedUntil, quotaWindowId := s.window.resetAt, s.window.blockedUntil, s.window.id;
      inFlight, disabled := s.inFlight, s.disabled;
      pending, pendingOrder, reservations := s.pending, s.pendingOrder, s.reservations;
      terminalIds, terminalOrder := s.terminal.ids, s.terminal.order;
      processedMessages := s.processedMessages;
    }

    method EvictOldest(overflow: nat)
      requires overflow <= |terminalOrder|
      modifies this`terminalIds, this`terminalOrder
      ensures TerminalWindow(terminalIds, terminalOrder) == Evict(old(View().terminal), overflow)
    {
      var evicted := terminalOrder[..overflow];
      for i := 0 to overflow
        invariant terminalIds == RemoveEach(old(terminalIds), evicted[..i])
        invariant terminalOrder == old(terminalOrder)
      {
        RemoveEachAppend(old(terminalIds), evicted[..i], evicted[i]);
        assert evicted[..i + 1] == evicted[..i] + [evicted[i]];
        if evicted[i] in terminalIds {
          terminalIds := RemoveFirst(terminalIds, evicted[i]);
        } else {
          RemoveFirstAbsent(terminalIds, evicted[i]);
        }
      }
      assert evicted[..overflow] == evicted;
      terminalOrder := terminalOrder[overflow..];
    }

    method MarkRequestTerminal(id: Key)
      modifies this`terminalIds, this`terminalOrder
      ensures TerminalWindow(terminalIds, terminalOrder)
              == MarkTerminal(old(View().terminal), settings.dedupWindowSize, id)
    {
      if settings.dedupWindowSize <= 0 {
        terminalIds, terminalOrder := [], [];
        return;
      }
      if id in terminalIds {
        return;
      }
      terminalIds := terminalIds + [id];
      terminalOrder := terminalOrder + [id];
      var overflow := |terminalOrder| - settings.dedupWindowSize;
      if overflow > 0 {
        EvictOldest(overflow);
      }
    }

    method ApplyPermitRequest(r: PermitRequest) returns (accepted: bool)
      modifies this`processedMessages, this`pending, this`pendingOrder
      ensures View() == Admit(old(View()), r)
      ensures accepted == Admits(old(View()), r)
    {
      processedMessages := processedMessages + 1;
      if RequestDenial(View(), r).Some? || Known(View(), r.requestId) {
        return false;
      }
      pending := pending[r.requestId := r];
      pendingOrder := pendingOrder + [r.requestId];
      return true;
    }

    method ApplyCancelPermit(id: Key) returns (changed: bool)
      modifies this
      ensures View() == Cancel(old(View()), id)
      ensures changed <==>
                id !in old(terminalIds) && (id in old(pending) || id in old(reservations) || id != NO_KEY)
    {
      MarkAllOne(View().terminal, settings.dedupWindowSize, id);
      hide MarkAll, MarkTerminal, Without;
      processedMessages := processedMessages + 1;
      if id in terminalIds {
        return false;
      }
      if id in pending {
        pending := pending - {id};
        pendingOrder := Without(pendingOrder, {id});
        MarkRequestTerminal(id);
        return true;
      }
      if id !in reservations {
        // A cancel that outruns its request still leaves a tombstone.
        if id != NO_KEY {
          MarkRequestTerminal(id);
          return true;
        }
        return false;
      }
      reservations := reservations - {id};
      inFlight := Max(0, inFlight - 1);
      MarkRequestTerminal(id);
      return true;
    }

    method PopEntry(id: Key)
      modifies this`pending, this`reservations, this`inFlight, this`terminalIds, this`terminalOrder
      ensures View() == PopOne(old(View()), id)
    {
      hide MarkTerminal;
      pending := pending - {id};
      if id in reservations {
        reservations := reservations - {id};
        inFlight := Max(0, inFlight - 1);
      } else {
        assert reservations - {id} == reservations;
      }
      MarkRequestTerminal(id);
    }

    method PopEntries(ids: seq<Key>)
      requires Distinct(ids)
      modifies this`pending, this`reservations, this`inFlight, this`terminalIds, this`terminalOrder
      ensures View() == PopEach(old(View()), ids)
    {
      hide PopEach, PopOne;
      PopNone(View());
      assert ids[..0] == [];
      for i := 0 to |ids|
        invariant View() == PopEach(old(View()), ids[..i])
      {
        DistinctParts(ids, i);
        assert ids[i] in ids[i..];
        PopOneMore(old(View()), ids[..i], ids[i]);
        assert ids[..i + 1] == ids[..i] + [ids[i]];
        PopEntry(ids[i]);
      }
      assert ids[..|ids|] == ids;
    }

    method ApplyCancelGeneration(store: Key, generation: int) returns (count: nat)
      modifies this
      ensures View() == CancelGeneration(old(View()), store, generation)
      ensures count == |PendingOf(old(View()), store, generation) + ReservedOf(old(View()), store, generation)|
    {
      hide CancelGeneration, PopEach, SortedKeys, PendingOf, ReservedOf;
      CancelGenerationPops(View(), store, generation);
      processedMessages := processedMessages + 1;
      var canceled := PendingOf(View(), store, generation) + ReservedOf(View(), store, generation);
      if canceled == {} {
        return 0;
      }
      PopEntries(SortedKeys(canceled));
      pendingOrder := Without(pendingOrder, canceled);
      return |canceled|;
    }

    method ApplyPermitCompleted(id: Key, permit: PermitId) returns (changed: bool)
      modifies this
      ensures View() == Complete(old(View()), id, permit)
      ensures changed <==>
                id !in old(terminalIds) && id in old(reservations) && old(reservations)[id].permitId == permit
    {
      MarkAllOne(View().terminal, settings.dedupWindowSize, id);
      hide MarkAll, MarkTerminal, Without;
      processedMessages := processedMessages + 1;
      if id in terminalIds || id !in reservations || reservations[id].permitId != permit {
        return false;
      }
      reservations := reservations - {id};
      inFlight := Max(0, inFlight - 1);
      MarkRequestTerminal(id);
      return true;
    }

    method ApplyQuotaObservation(o: QuotaObservation, now: int) returns (applied: bool)
      modifies this
      ensures View() == Observe(old(View()), o, now)
      ensures applied == (o.scope == settings.scope)
    {
      hide Later, Max, Min, RetryAt;
      processedMessages := processedMessages + 1;
      if o.scope != settings.scope {
        return false;
      }
      if o.limit.Some? {
        configuredLimit := Some(Max(0, o.limit.value));
      }
      if o.remaining.Some? {
        var observed := Max(0, o.remaining.value);
        remaining := if remaining.None? then Some(observed) else Some(Min(remaining.value, observed));
      }
      if o.resetAt.Some? {
        resetAt := Later(resetAt, o.resetAt);
      }
      if o.exhausted {
        BlockAfter(o, now);
      }
      return true;
    }

    /** An exhausted answer spends the balance and blocks the scope until it can be retried. */
    method BlockAfter(o: QuotaObservation, now: int)
      modifies this`remaining, this`blockedUntil
      ensures remaining == Some(0)
      ensures blockedUntil == Later(old(blockedUntil), Later(o.resetAt, RetryAt(o, now)))
    {
      remaining := Some(0);
      var retryAt: Option<int> := None;
      if o.retryAfter.Some? {
        retryAt := Some(now + Max(0, o.retryAfter.value));
      } else if o.resetAt.None? {
        retryAt := Some(now + UNKNOWN_RESET_PROBE_DELAY);
      }
      blockedUntil := Later(blockedUntil, Later(o.resetAt, retryAt));
    }

    method ApplyDisableScope() returns (changed: bool)
      modifies this`processedMessages, this`disabled
      ensures View() == old(View()).(disabled := true, processedMessages := old(processedMessages) + 1)
      ensures changed == !old(disabled)
    {
      processedMessages := processedMessages + 1;
      changed := !disabled;
      disabled := true;
    }

    method AdvanceDueWindow(now: int) returns (advanced: bool)
      modifies this`blockedUntil, this`resetAt, this`remaining, this`quotaWindowId
      ensures View() == Advance(old(View()), now)
      ensures advanced == WindowDue(old(View().window), now)
    {
      var blockDue := blockedUntil.Some? && blockedUntil.value <= now;
      var resetDue := resetAt.Some? && resetAt.value <= now;
      if blockDue && resetAt.Some? && !resetDue {
        blockedUntil := resetAt;
        blockDue := false;
      }
      if !blockDue && !resetDue {
        return false;
      }
      var boundary := Later(if blockDue then blockedUntil else None, if resetDue then resetAt else None);
      quotaWindowId := NextWindow(quotaWindowId, boundary.value);
      if blockDue {
        blockedUntil := None;
      }
      if resetDue {
        resetAt := None;
      }
      remaining := configuredLimit;
      return true;
    }

    method ReserveHead(now: int) returns (g: PermitGrant)
      requires pendingOrder != [] && pendingOrder[0] in pending
      modifies this`pendingOrder, this`pending, this`reservations, this`inFlight, this`remaining
      ensures View() == GrantHead(old(View()), now)
      ensures g == GrantFor(old(View()), old(pending[pendingOrder[0]]).(requestId := old(pendingOrder[0])))
    {
      var id := pendingOrder[0];
      var request := pending[id];
      pendingOrder := pendingOrder[1..];
      pending := pending - {id};
      var permit := PermitId(id, quotaWindowId);
      reservations := reservations[id := PermitReservation(
        id, permit, request.requester, request.cost, quotaWindowId, Some(now), Granted,
        request.storeKey, request.generation)];
      inFlight := inFlight + 1;
      if remaining.Some? {
        remaining := Some(remaining.value - request.cost);
      }
      g := PermitGrant(id, permit, settings.scope, quotaWindowId, request.cost);
    }

    method GrantAvailablePermits(now: int) returns (grants: seq<PermitGrant>)
      modifies this
      ensures Granting(View(), grants) == GrantAvailable(old(View()), now)
    {
      var _ := AdvanceDueWindow(now);
      grants := [];
      if IsBlocked(View(), now) || settings.maxInFlight <= 0 {
        return;
      }
      ghost var start := View();
      while pendingOrder != [] && inFlight < settings.maxInFlight
        invariant GrantLoop(start, now)
                  == Granting(GrantLoop(View(), now).state, grants + GrantLoop(View(), now).grants)
        decreases |pendingOrder|
      {
        var id := pendingOrder[0];
        if id !in pending {
          pendingOrder := pendingOrder[1..];
          continue;
        }
        if remaining.Some? && remaining.value < pending[id].cost {
          // Nobody overtakes a head that the balance cannot pay for yet.
          break;
        }
        var g := ReserveHead(now);
        assert grants + ([g] + GrantLoop(View(), now).grants) == (grants + [g]) + GrantLoop(View(), now).grants;
        grants := grants + [g];
      }
      assert grants + [] == grants;
    }

    /** Drops reservations that are no longer granted and tombstones them in dictionary order. */
    method CompactReservations(carried: seq<Key>)
      requires Lists(carried, reservations.Keys)
      modifies this`reservations, this`terminalIds, this`terminalOrder
      ensures var s := old(View());
              View() == Mark(s.(reservations := s.reservations - StaleIds(s)), Keep(carried, StaleIds(s)))
    {
      hide MarkTerminal, MarkAll, Keep;
      ghost var s := View();
      ghost var stale := StaleIds(s);
      var active: map<Key, PermitReservation> := map[];
      MarkNothing(s.terminal, settings.dedupWindowSize, stale);
      assert carried[..0] == [];
      for i := 0 to |carried|
        invariant forall id :: id in active <==> id in carried[..i] && id !in stale
        invariant forall id :: id in active ==> id in s.reservations && active[id] == s.reservations[id]
        invariant TerminalWindow(terminalIds, terminalOrder)
                  == MarkAll(s.terminal, settings.dedupWindowSize, Keep(carried[..i], stale))
        invariant reservations == s.reservations
      {
        var id := carried[i];
        assert id in carried && carried[..i + 1] == carried[..i] + [id];
        assert id in stale <==> reservations[id].status != Granted;
        KeepAppendOne(carried[..i], id, stale);
        MarkAllAppend(s.terminal, settings.dedupWindowSize, Keep(carried[..i], stale), id);
        if reservations[id].status == Granted {
          assert Keep(carried[..i], stale) + [] == Keep(carried[..i], stale);
          active := active[id := reservations[id]];
        } else {
          MarkRequestTerminal(id);
        }
      }
      assert carried[..|carried|] == carried;
      assert active == s.reservations - stale;
      reservations := active;
    }

    method CompactQuotaState(carried: seq<Key>)
      requires Lists(carried, reservations.Keys)
      modifies this
      ensures View() == Compact(old(View()), carried)
    {
      CompactReservations(carried);
      inFlight := |reservations|;
      pendingOrder := CompactList(pendingOrder, pending.Keys);
      terminalOrder := CompactList(terminalOrder, Elements(terminalIds));
      var overflow := |terminalOrder| - Max(0, settings.dedupWindowSize);
      if overflow > 0 {
        EvictOldest(overflow);
      }
    }

    static method CompactList(order: seq<Key>, ids: set<Key>) returns (r: seq<Key>)
      ensures r == CompactOrder(order, ids)
    {
      r := [];
      var seen := {};
      for i := 0 to |order|
        invariant r == FirstOccurrences(order[..i], ids)
        invariant seen == ids * Elements(order[..i])
      {
        assert order[..i + 1][..i] == order[..i];
        if order[i] in ids && order[i] !in seen {
          r := r + [order[i]];
          seen := seen + {order[i]};
        }
      }
      assert order[..|order|] == order;
      assert ids - seen == ids - Elements(order);
      r := r + SortedKeys(ids - seen);
    }
  }

  /** The messages the signal handlers pass on; the other two events are the run loop's own. */
  predicate IsMessage(e: Event) {
    !e.Turn? && !e.ContinueAsNew?
  }

  datatype Mailbox = Mailbox(state: QuotaState, denials: seq<Denial>)

  /** Messages handled one after another, collecting denials to deliver. */
  function Handle(m: Mailbox, es: seq<Event>): Mailbox {
    if es == [] then m
    else
      var before := Handle(m, es[..|es| - 1]);
      var o := Step(before.state, es[|es| - 1]);
      Mailbox(o.state, before.denials + o.denials)
  }

  lemma HandleAppend(m: Mailbox, es: seq<Event>, e: Event)
    ensures var before := Handle(m, es);
            Handle(m, es + [e])
            == Mailbox(Step(before.state, e).state, before.denials + Step(before.state, e).denials)
  {
    assert (es + [e])[..|es|] == es;
  }

  function DenialFor(r: PermitRequest): Denial {
    Denial(r.requester, PermitDenied(r.requestId, r.scope, DisabledWhilePending, false))
  }

  function DenialsFor(rs: seq<PermitRequest>): seq<Denial> {
    seq(|rs|, i requires 0 <= i < |rs| => DenialFor(rs[i]))
  }

  lemma OneMoreQueued(rs: seq<PermitRequest>, i: nat)
    requires i < |rs|
    ensures RequestIds(rs[..i + 1]) == RequestIds(rs[..i]) + [rs[i].requestId]
    ensures DenialsFor(rs[..i + 1]) == DenialsFor(rs[..i]) + [DenialFor(rs[i])]
  {
  }

  lemma DisableOutcome(s: QuotaState)
    requires !s.disabled
    ensures DisableDenials(s) == DenialsFor(QueuedRequests(s))
    ensures Disable(s) == Mark(Counted(s).(disabled := true, pending := map[], pendingOrder := []),
                               RequestIds(QueuedRequests(s)))
  {
    hide QueuedRequests;
  }

  class UserQuotaWorkflow {
    var state: UserQuotaState?
    var dirty: bool
    var continueAfterWindow: bool
    var deferred: seq<Event>
    var pendingDenials: seq<Denial>

    constructor ()
      ensures state == null && dirty && !continueAfterWindow && deferred == [] && pendingDenials == []
    {
      state, dirty, continueAfterWindow, deferred, pendingDenials := null, true, false, [], [];
    }

    function View(): Mailbox
      requires state != null
      reads this, state
    {
      Mailbox(state.View(), pendingDenials)
    }

    /** Tombstones requests that were queued when the scope was disabled and queues their denials. */
    method DenyQueued(queued: seq<PermitRequest>)
      requires state != null
      modifies this`pendingDenials, state`terminalIds, state`terminalOrder
      ensures pendingDenials == old(pendingDenials) + DenialsFor(queued)
      ensures state.View() == Mark(old(state.View()), RequestIds(queued))
    {
      hide MarkAll, MarkTerminal;
      ghost var s := state.View();
      MarkAllNone(s.terminal, s.settings.dedupWindowSize);
      assert RequestIds(queued[..0]) == [];
      for i := 0 to |queued|
        invariant pendingDenials == old(pendingDenials) + DenialsFor(queued[..i])
        invariant state.View().terminal
                  == MarkAll(s.terminal, s.settings.dedupWindowSize, RequestIds(queued[..i]))
      {
        OneMoreQueued(queued, i);
        MarkAllAppend(s.terminal, s.settings.dedupWindowSize, RequestIds(queued[..i]), queued[i].requestId);
        state.MarkRequestTerminal(queued[i].requestId);
        pendingDenials := pendingDenials + [DenialFor(queued[i])];
      }
      assert queued[..|queued|] == queued;
    }

    method ApplyDisable()
      requires state != null
      modifies this`pendingDenials, state
      ensures View() == Handle(old(View()), [DisableScope])
    {
      ghost var s := state.View();
      HandleAppend(View(), [], DisableScope);
      assert [] + [DisableScope] == [DisableScope];
      if !s.disabled {
        DisableOutcome(s);
      }
      var queued := QueuedRequests(state.View());
      hide QueuedRequests, Mark, RequestIds, DenialsFor;
      var changed := state.ApplyDisableScope();
      if changed {
        state.pending, state.pendingOrder := map[], [];
        DenyQueued(queued);
      }
    }

    method ApplyMessage(e: Event)
      requires state != null && IsMessage(e)
      modifies this`pendingDenials, this`dirty, state
      ensures View() == Handle(old(View()), [e]) && dirty
    {
      HandleAppend(View(), [], e);
      assert [] + [e] == [e];
      hide Handle, Admit, Cancel, CancelGeneration, Complete, Observe, Disable, DisableDenials;
      hide CancelMarks, GenerationMarks, Completes, DisableMarks, RequestDenials;
      match e {
        case RequestPermit(r) =>
          var denials := RequestDenials(state.View(), r);
          var _ := state.ApplyPermitRequest(r);
          pendingDenials := pendingDenials + denials;
        case CancelPermit(id) =>
          var _ := state.ApplyCancelPermit(id);
        case CancelGenerationPermits(store, g) =>
          var _ := state.ApplyCancelGeneration(store, g);
        case PermitCompleted(id, p) =>
          var _ := state.ApplyPermitCompleted(id, p);
        case ObserveQuota(o, now) =>
          var _ := state.ApplyQuotaObservation(o, now);
        case DisableScope =>
          ApplyDisable();
      }
      dirty := true;
    }

    method ApplyOrDefer(e: Event)
      requires IsMessage(e)
      modifies this`pendingDenials, this`dirty, this`deferred, state
      ensures dirty
      ensures state == null ==> deferred == old(deferred) + [e] && pendingDenials == old(pendingDenials)
      ensures state != null ==> deferred == old(deferred) && View() == Handle(old(View()), [e])
    {
      if state == null {
        deferred := deferred + [e];
        dirty := true;
      } else {
        ApplyMessage(e);
      }
    }

    /** Signals received before the run starts are applied, in arrival order, to the compacted state. */
    method Initialize(initial: UserQuotaState, carried: seq<Key>)
      requires Lists(carried, initial.reservations.Keys)
      requires forall e :: e in deferred ==> IsMessage(e)
      modifies this, initial
      ensures state == initial && deferred == [] && dirty
      ensures View() == Handle(Mailbox(Compact(old(initial.View()), carried), old(pendingDenials)), old(deferred))
      ensures continueAfterWindow == old(continueAfterWindow)
    {
      hide Compact, Step;
      state := initial;
      state.CompactQuotaState(carried);
      var messages := deferred;
      deferred := [];
      ghost var start := View();
      for i := 0 to |messages|
        invariant state == initial && deferred == [] && continueAfterWindow == old(continueAfterWindow)
        invariant View() == Handle(start, messages[..i])
      {
        HandleAppend(start, messages[..i], messages[i]);
        HandleAppend(View(), [], messages[i]);
        assert [] + [messages[i]] == [messages[i]];
        assert messages[..i + 1] == messages[..i] + [messages[i]];
        ApplyMessage(messages[i]);
      }
      assert messages[..|messages|] == messages;
      dirty := true;
    }

    /** One pass of the run loop: grants and takes the denials to deliver. */
    method BeginTurn(now: int) returns (grants: seq<PermitGrant>, denials: seq<Denial>)
      requires state != null
      modifies this, state
      ensures state == old(state) && deferred == old(deferred)
      ensures state.View() == Step(old(state.View()), Turn(now)).state
      ensures grants == Step(old(state.View()), Turn(now)).grants
      ensures denials == old(pendingDenials) && pendingDenials == [] && !dirty
      ensures continueAfterWindow
              == (old(continueAfterWindow) || old(state.quotaWindowId) != state.quotaWindowId)
    {
      var previous := state.quotaWindowId;
      grants := state.GrantAvailablePermits(now);
      if state.quotaWindowId != previous {
        continueAfterWindow := true;
      }
      denials, pendingDenials := pendingDenials, [];
      dirty := false;
    }

    /** A grant whose Signal is known not to have arrived releases its slot. */
    method DeliveryFailed(g: PermitGrant)
      requires state != null
      modifies this`dirty, state
      ensures dirty && state.View() == Step(old(state.View()), CancelPermit(g.requestId)).state
    {
      var _ := state.ApplyCancelPermit(g.requestId);
      dirty := true;
    }

    predicate ShouldContinue(messageLimit: int, suggested: bool)
      requires state != null
      reads this, state
    {
      continueAfterWindow || state.processedMessages >= messageLimit || suggested
    }

    /** Hands the compacted state to the next run, unless a denial is still undelivered. */
    method TryContinueAsNew(carried: seq<Key>, messageLimit: int, suggested: bool)
      returns (next: Option<QuotaState>)
      requires state != null && Lists(carried, state.reservations.Keys)
      modifies state
      ensures next.Some? <==>
                (old(continueAfterWindow) || old(state.processedMessages) >= messageLimit || suggested)
                && pendingDenials == []
      ensures next.Some? ==> next.value == state.View() == Step(old(state.View()), ContinueAsNew(carried)).state
      ensures next.None? ==> state.View() == old(state.View())
    {
      hide Compact, Admit, Cancel, CancelGeneration, Complete, Observe, Disable, GrantAvailable, DisableMarks;
      hide RequestDenials, DisableDenials, CancelMarks, GenerationMarks, Completes, Keep, StaleIds, Elements;
      if !ShouldContinue(messageLimit, suggested) || pendingDenials != [] {
        return None;
      }
      state.CompactQuotaState(carried);
      state.processedMessages := 0;
      return Some(state.View());
    }
  }
}
