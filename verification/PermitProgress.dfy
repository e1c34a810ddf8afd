/**
 What the permit protocol achieves: a request that nothing stands against is granted and reaches its
 caller, and a completed or abandoned one gives its slot back.
 */
module PermitProgress {
  import opened Collections
  import opened QuotaModel
  import opened QuotaInvariant
  import opened QuotaGrants
  import opened QuotaEffects
  import opened QuotaWaiter
  import opened PermitProtocol
  import opened PermitSafety

  lemma QuotaPart(y: System)
    requires SystemInv(y)
    ensures Inv(y.quota)
  {
  }

  lemma DeliveredQuota(y: System, m: Message)
    requires m in y.net && (m.RequestMsg? || m.CancelMsg? || m.CompleteMsg?)
    ensures Next(y, Deliver(m)).quota == Step(y.quota, EventOf(m)).state && Next(y, Deliver(m)).callers == y.callers
  {
    hide Step;
  }

  lemma CompletedQuota(s: QuotaState, id: Key, permit: PermitId)
    requires Inv(s)
    ensures var t := Step(s, PermitCompleted(id, permit)).state;
            if id in s.reservations && s.reservations[id].permitId == permit then
              t.reservations == s.reservations - {id} && t.inFlight == s.inFlight - 1
            else t.reservations == s.reservations && t.inFlight == s.inFlight
  {
    CompletionEffect(s, id, permit);
    hide Inv, Step, Left;
  }

  /**
   A completion that arrives, however late or often, frees the reservation made under its own permit
   and no other one.
   */
  lemma DeliveredCompletion(y: System, id: Key, permit: PermitId)
    requires SystemInv(y) && CompleteMsg(id, permit) in y.net
    ensures var z := Next(y, Deliver(CompleteMsg(id, permit)));
            if id in y.quota.reservations && y.quota.reservations[id].permitId == permit then
              z.quota.reservations == y.quota.reservations - {id} && z.quota.inFlight == y.quota.inFlight - 1
            else z.quota.reservations == y.quota.reservations && z.quota.inFlight == y.quota.inFlight
  {
    assert EventOf(CompleteMsg(id, permit)) == PermitCompleted(id, permit);
    hide *;
    QuotaPart(y);
    CompletedQuota(y.quota, id, permit);
    DeliveredQuota(y, CompleteMsg(id, permit));
  }

  lemma CompletedStep(y: System, id: Key)
    requires id in y.callers.held
    ensures var z := Next(y, CompletePermit(id));
            z.quota == y.quota && CompleteMsg(id, y.callers.held[id].permitId) in z.net && id !in z.callers.held
  {
  }

  /** Over every run: once a held grant is completed and the Signal arrives, its slot is free again. */
  lemma CompletionFreesTheSlot(q: QuotaState, actions: seq<Action>, id: Key)
    requires Inv(q) && q.pending == map[] && q.reservations == map[]
    requires id in Holders(RunSystem(Start(q), actions))
    ensures var y := RunSystem(Start(q), actions);
            && id in y.callers.held && id in y.quota.reservations
            && var z := Next(Next(y, CompletePermit(id)), Deliver(CompleteMsg(id, y.callers.held[id].permitId)));
               && id !in z.callers.held && z.quota.reservations == y.quota.reservations - {id}
               && z.quota.inFlight == y.quota.inFlight - 1
  {
    var y := RunSystem(Start(q), actions);
    HeldGrantsAreBacked(q, actions);
    RunSystemInv(q, actions);
    assert Secured(y, id);
    var permit := y.callers.held[id].permitId;
    assert y.quota.reservations[id].permitId == permit;
    hide *;
    var after := Next(y, CompletePermit(id));
    CompletedStep(y, id);
    NextInv(y, CompletePermit(id));
    DeliveredCompletion(after, id, permit);
    DeliveredQuota(after, CompleteMsg(id, permit));
  }

  lemma AbandonedStep(y: System, id: Key)
    requires Waiting(y.callers, id) && id !in y.callers.leaving
    ensures var z := Next(y, Abandon(id)); z.quota == y.quota && CancelMsg(id) in z.net
  {
  }

  /** A request given up while waiting leaves no trace but its terminal ID once its cancel arrives. */
  lemma AbandonedRequestIsGone(y: System, id: Key)
    requires SystemInv(y) && Waiting(y.callers, id) && id !in y.callers.leaving && id != NO_KEY
    ensures var z := Next(Next(y, Abandon(id)), Deliver(CancelMsg(id)));
            && id !in z.quota.pending && id !in z.quota.reservations
            && (y.quota.settings.dedupWindowSize > 0 ==> id in z.quota.terminal.ids)
  {
    hide *;
    AbandonedStep(y, id);
    QuotaPart(y);
    var after := Next(y, Abandon(id));
    DeliveredCancel(after, id);
  }

  lemma DeliveredCancel(y: System, id: Key)
    requires Inv(y.quota) && CancelMsg(id) in y.net && id != NO_KEY
    ensures var z := Next(y, Deliver(CancelMsg(id)));
            && id !in z.quota.pending && id !in z.quota.reservations
            && (y.quota.settings.dedupWindowSize > 0 ==> id in z.quota.terminal.ids)
  {
    assert EventOf(CancelMsg(id)) == CancelPermit(id);
    hide *;
    DeliveredQuota(y, CancelMsg(id));
    CancelledQuota(y.quota, id);
  }

  lemma CancelledQuota(s: QuotaState, id: Key)
    requires Inv(s) && id != NO_KEY
    ensures var t := Step(s, CancelPermit(id)).state;
            && id !in t.pending && id !in t.reservations
            && (s.settings.dedupWindowSize > 0 ==> id in t.terminal.ids)
  {
    CancelEffect(s, id);
    assert ApartOk(s);
    var t := Step(s, CancelPermit(id)).state;
    if id !in s.terminal.ids {
      assert id in Elements([id]);
      var all := s.terminal.ids + [id];
      assert all[|all| - 1] == id;
      var n := Max(0, s.settings.dedupWindowSize);
      assert n > 0 ==> Newest(all, n)[|Newest(all, n)| - 1] == id;
    }
    hide Inv, Step, Keep;
  }

  /** A grant that is reported not to have arrived gives its slot back, but not what it cost. */
  lemma FailedDeliveryFreesTheSlot(y: System)
    requires SystemInv(y) && y.courier.sending.Some? && !y.courier.sending.value.delivered
    requires y.courier.sending.value.grant.requestId in y.quota.reservations
    ensures var id := y.courier.sending.value.grant.requestId; var z := Next(y, SendFails);
            && z.quota.reservations == y.quota.reservations - {id} && z.quota.inFlight == y.quota.inFlight - 1
            && z.quota.window == y.quota.window && z.courier.sending.None? && z.courier.outbox == y.courier.outbox
  {
    var id := y.courier.sending.value.grant.requestId;
    assert Enabled(y, SendFails);
    hide *;
    QuotaPart(y);
    CancelledReservation(y.quota, id);
    FailedStep(y);
  }

  lemma FailedStep(y: System)
    requires y.courier.sending.Some? && Enabled(y, SendFails)
    ensures var z := Next(y, SendFails);
            && z.quota == Step(y.quota, CancelPermit(y.courier.sending.value.grant.requestId)).state
            && z.courier == y.courier.(sending := None)
  {
    hide Step;
  }

  lemma CancelledReservation(s: QuotaState, id: Key)
    requires Inv(s) && id in s.reservations
    ensures var t := Step(s, CancelPermit(id)).state;
            t.reservations == s.reservations - {id} && t.inFlight == s.inFlight - 1 && t.window == s.window
  {
    CancelEffect(s, id);
    ReservedParts(s, id);
    assert EntriesOk(s) && id != NO_KEY;
    assert Elements([id]) == {id};
    hide Inv, Step, Keep, Newest;
  }

  // ---- a refused request ----

  /** What the coordinator tells the requester of a refused request. */
  function DenialOf(r: PermitRequest, reason: DenialReason): Message {
    DenialMsg(Denial(r.requester, PermitDenied(r.requestId, r.scope, reason, reason.AtCapacity?)))
  }

  lemma DenialsOnNet(y: System, a: Action, e: Event)
    requires (a.DisableCredential? && e == DisableScope)
             || (a.Deliver? && a.message in y.net && a.message.RequestMsg? && e == RequestPermit(a.message.request))
    ensures Next(y, a).callers == y.callers && Next(y, a).quota == Step(y.quota, e).state
    ensures forall d :: d in Step(y.quota, e).denials ==> DenialMsg(d) in Next(y, a).net
    ensures y.net <= Next(y, a).net
  {
    hide Step;
  }

  lemma RefusedDenials(q: QuotaState, r: PermitRequest, reason: DenialReason)
    requires Inv(q) && Refusal(q, r, reason) && r.requester != NO_KEY
    requires r.requestId !in q.pending && r.requestId !in q.reservations && r.requestId !in q.terminal.ids
    ensures var o := Step(q, RequestPermit(r));
            DenialOf(r, reason).denial in o.denials && o.state.reservations == q.reservations
  {
    AdmissionEffect(q, r);
    hide Inv, Step, Refusal;
  }

  /** Receiving this denial, the caller takes it as its reply, then waits no more and holds no permit. */
  ghost predicate Informs(y: System, d: Denial) {
    var id := d.denial.requestId;
    var told := Next(y, ReceiveReply(DenialMsg(d)));
    && CanTake(told, id)
    && ReplyFor(InboxOf(told.callers, told.callers.issued[id].requester), id) == DenialReply(d.denial)
    && var z := Next(told, TakeReply(id));
       !Waiting(z.callers, id) && z.callers.held == y.callers.held && id !in z.callers.held && z.quota == y.quota
  }

  lemma DenialKept(y: System, d: Denial)
    requires DenialMsg(d) in y.net && AcceptsDenial(InboxOf(y.callers, d.requester), d.denial)
    ensures var c, b := y.callers, InboxOf(y.callers, d.requester);
            Next(y, ReceiveReply(DenialMsg(d)))
            == y.(callers := WithInbox(c, d.requester, b.(denials := b.denials[d.denial.requestId := d.denial])))
  {
    hide AcceptsDenial;
  }

  lemma DenialTaken(y: System, id: Key)
    requires CanTake(y, id) && id !in y.callers.held
    requires id in InboxOf(y.callers, y.callers.issued[id].requester).denials
    ensures var z := Next(y, TakeReply(id));
            !Waiting(z.callers, id) && z.callers.held == y.callers.held && z.quota == y.quota
  {
    hide MarkConsumed;
  }

  lemma WaitingParts(c: Callers, net: set<Message>, id: Key)
    requires CallersOk(c, net) && Waiting(c, id)
    ensures var b := InboxOf(c, c.issued[id].requester);
            b.expected[id] == c.issued[id] && id !in b.consumed && id !in c.held
  {
    assert InboxFor(InboxOf(c, c.issued[id].requester), c.issued[id].requester, c.issued, net);
  }

  /** A denial that is on the network reaches its waiting caller, who then holds nothing and waits no more. */
  lemma DenialReaches(y: System, d: Denial)
    requires CallersOk(y.callers, y.net) && DenialMsg(d) in y.net
    requires Waiting(y.callers, d.denial.requestId) && d.denial.requestId !in y.callers.leaving
    requires var r := y.callers.issued[d.denial.requestId]; r.requester == d.requester && r.scope == d.denial.scope
    requires !Answered(InboxOf(y.callers, d.requester), d.denial.requestId)
    ensures Informs(y, d)
  {
    var id := d.denial.requestId;
    WaitingParts(y.callers, y.net, id);
    DenialKept(y, d);
    var told := Next(y, ReceiveReply(DenialMsg(d)));
    hide Next, CallersOk;
    assert CanTake(told, id);
    DenialTaken(told, id);
  }

  /** A new request that is refused is told why, takes no slot, and leaves its caller without a permit. */
  lemma RefusedRequestIsTold(y: System, r: PermitRequest, reason: DenialReason)
    requires SystemInv(y) && RequestMsg(r) in y.net && Refusal(y.quota, r, reason) && r.requester != NO_KEY
    requires var q := y.quota; var id := r.requestId;
             id !in q.pending && id !in q.reservations && id !in q.terminal.ids
    requires Waiting(y.callers, r.requestId) && r.requestId !in y.callers.leaving
    requires !Answered(InboxOf(y.callers, r.requester), r.requestId)
    ensures var m := DenialOf(r, reason);
            var refused := Next(y, Deliver(RequestMsg(r)));
            m in refused.net && refused.quota.reservations == y.quota.reservations && Informs(refused, m.denial)
  {
    var d := DenialOf(r, reason).denial;
    assert EventOf(RequestMsg(r)) == RequestPermit(r);
    assert y.callers.issued[r.requestId] == r;
    hide *;
    QuotaPart(y);
    RefusedDenials(y.quota, r, reason);
    DenialsOnNet(y, Deliver(RequestMsg(r)), RequestPermit(r));
    NextInv(y, Deliver(RequestMsg(r)));
    CallersPart(Next(y, Deliver(RequestMsg(r))));
    DenialReaches(Next(y, Deliver(RequestMsg(r))), d);
  }

  lemma CallersPart(y: System)
    requires SystemInv(y)
    ensures CallersOk(y.callers, y.net)
  {
  }

  lemma DisabledDenials(q: QuotaState, id: Key)
    requires Inv(q) && !q.disabled && id in q.pending
    ensures var o := Step(q, DisableScope);
            && Denial(q.pending[id].requester, PermitDenied(id, q.settings.scope, DisabledWhilePending, false))
               in o.denials
            && o.state.pending == map[]
  {
    DisableEffect(q);
    assert QueueOk(q);
    var i: nat :| i < |q.pendingOrder| && q.pendingOrder[i] == id;
    var o := Step(q, DisableScope);
    assert o.denials[i] in o.denials;
    hide Inv, Step, Left;
  }

  /** Disabling the credential tells every queued request that it will not be served. */
  lemma DisabledRequestIsTold(y: System, id: Key)
    requires SystemInv(y) && !y.quota.disabled && id in y.quota.pending
    ensures var z := Next(y, DisableCredential);
            && z.quota.pending == map[]
            && DenialMsg(Denial(y.quota.pending[id].requester,
                                PermitDenied(id, y.quota.settings.scope, DisabledWhilePending, false))) in z.net
  {
    hide *;
    QuotaPart(y);
    DisabledDenials(y.quota, id);
    DenialsOnNet(y, DisableCredential, DisableScope);
  }

  // ---- from the request to the held grant ----

  /** A scope that has nothing to hold back a request of this cost. */
  predicate Uncontended(q: QuotaState, cost: int) {
    && q.pending == map[] && q.reservations == map[] && !q.disabled && q.settings.maxInFlight >= 1
    && q.window.blockedUntil.None? && q.window.resetAt.None?
    && (q.window.remaining.Some? ==> q.window.remaining.value >= cost)
  }

  /** The grant of a request made in the present window. */
  function GrantOf(q: QuotaState, r: PermitRequest): PermitGrant {
    PermitGrant(r.requestId, PermitId(r.requestId, q.window.id), r.scope, q.window.id, r.cost)
  }

  /** The steps of a permit that meets no trouble. */
  function Path(q: QuotaState, r: PermitRequest, now: int): seq<Action> {
    [Ask(r), Deliver(RequestMsg(r)), StartTurn(now), BeginSend, SendArrives,
     ReceiveReply(GrantMsg(r.requester, GrantOf(q, r))), TakeReply(r.requestId)]
  }

  lemma AdmittedAlone(q: QuotaState, r: PermitRequest)
    requires Inv(q) && Uncontended(q, r.cost) && Wellformed(q, r) && r.requestId !in q.terminal.ids
    ensures var t := Step(q, RequestPermit(r)).state;
            && t == q.(pending := map[r.requestId := r], pendingOrder := [r.requestId],
                       processedMessages := q.processedMessages + 1)
            && Step(q, RequestPermit(r)).denials == []
  {
    AdmissionEffect(q, r);
    assert |q.pending| == 0;
    assert forall reason :: !Refusal(q, r, reason);
    ListsSize(q.pendingOrder, q.pending.Keys);
    assert q.pending[r.requestId := r] == map[r.requestId := r];
    hide Inv, Step;
  }

  /** One queued request in an open scope is granted by the next pass. */
  lemma GrantedAlone(s: QuotaState, r: PermitRequest, now: int)
    requires Inv(s) && s.pending == map[r.requestId := r] && s.pendingOrder == [r.requestId]
    requires s.reservations == map[] && s.inFlight == 0 && r.scope == s.settings.scope
    requires Uncontended(s.(pending := map[]), r.cost)
    ensures var o := Step(s, Turn(now));
            o.grants == [GrantOf(s, r)] && r.requestId in o.state.reservations
            && o.state.reservations[r.requestId].requester == r.requester && o.denials == []
  {
    var w, k := PassEffect(s, now);
    assert w == s.window;
    assert s.pendingOrder[..1] == [r.requestId];
    assert [r.requestId][1..] == [];
    assert CostOf(s.pendingOrder[..1], s.pending) == r.cost;
    assert Room(s, w, 1);
    hide Inv, CostOf;
    assert k == 1 && s.pendingOrder[0] == r.requestId;
    assert Step(s, Turn(now)).denials == [] by { hide GrantAvailable; }
    hide Step;
  }

  lemma AskedAlone(q: QuotaState, r: PermitRequest)
    requires Wellformed(q, r)
    ensures var y := Next(Start(q), Ask(r));
            && y == System(q, Courier([], None), y.callers, {RequestMsg(r)}, {})
            && y.callers == Callers(map[r.requestId := r], map[r.requester := Expect(EMPTY_INBOX, r)], {}, {}, map[])
  {
  }

  lemma DeliveredAlone(y: System, r: PermitRequest)
    requires RequestMsg(r) in y.net && Step(y.quota, RequestPermit(r)).denials == []
    ensures Next(y, Deliver(RequestMsg(r))) == y.(quota := Step(y.quota, RequestPermit(r)).state)
  {
    assert DenialMessages([]) == {};
    hide Step;
  }

  lemma TurnAlone(y: System, now: int)
    requires Idle(y.courier) && Step(y.quota, Turn(now)).denials == []
    ensures Next(y, StartTurn(now))
            == y.(quota := Step(y.quota, Turn(now)).state, courier := Courier(Step(y.quota, Turn(now)).grants, None))
  {
    assert DenialMessages([]) == {};
    hide Step;
  }

  /** A grant that is next to be sent is sent to its requester and arrives. */
  lemma SentAlone(y: System, g: PermitGrant)
    requires y.courier == Courier([g], None) && g.requestId in y.quota.reservations
    ensures var to := y.quota.reservations[g.requestId].requester;
            Next(Next(y, BeginSend), SendArrives)
            == y.(courier := Courier([], Some(Sending(g, to, true))), net := y.net + {GrantMsg(to, g)})
  {
    assert [g][1..] == [];
  }

  /** An exact grant that arrives at its waiting caller is held by it, and the request is closed. */
  lemma TakenAlone(y: System, r: PermitRequest, g: PermitGrant)
    requires y.callers == Callers(map[r.requestId := r], map[r.requester := Expect(EMPTY_INBOX, r)], {}, {}, map[])
    requires GrantMsg(r.requester, g) in y.net && Exact(r, g)
    ensures var z := Next(Next(y, ReceiveReply(GrantMsg(r.requester, g))), TakeReply(r.requestId));
            && z.callers.held == map[r.requestId := g] && !Waiting(z.callers, r.requestId)
            && z.quota == y.quota
  {
    var b := Expect(EMPTY_INBOX, r);
    assert AcceptsGrant(b, g);
  }

  lemma PathUnfolds(y: System, a: seq<Action>)
    requires |a| == 7
    ensures RunSystem(y, a)
            == Next(Next(Next(Next(Next(Next(Next(y, a[0]), a[1]), a[2]), a[3]), a[4]), a[5]), a[6])
  {
    assert a[..6][..5] == a[..5] && a[..5][..4] == a[..4] && a[..4][..3] == a[..3] && a[..3][..2] == a[..2];
    assert a[..2][..1] == a[..1] && a[..1][..0] == [];
    OneMore(y, a, 0); OneMore(y, a, 1); OneMore(y, a, 2); OneMore(y, a, 3);
    OneMore(y, a, 4); OneMore(y, a, 5); OneMore(y, a, 6);
    assert a[..7] == a && RunSystem(y, a[..0]) == y;
    hide Next, RunSystem;
  }

  lemma OneMore(y: System, a: seq<Action>, i: nat)
    requires i < |a|
    ensures RunSystem(y, a[..i + 1]) == Next(RunSystem(y, a[..i]), a[i])
  {
    assert a[..i + 1][..i] == a[..i];
    hide Next;
  }

  /**
   A well-formed request to an enabled scope with a free slot, no deadline and a sufficient balance, when
   no Signal is lost, is granted in the next pass and its caller ends up holding exactly its own grant.
   */
  lemma UncontendedRequestIsGranted(q: QuotaState, r: PermitRequest, now: int)
    requires Inv(q) && Uncontended(q, r.cost) && Wellformed(q, r) && r.requestId !in q.terminal.ids
    ensures var z := RunSystem(Start(q), Path(q, r, now));
            && z.callers.held == map[r.requestId := GrantOf(q, r)]
            && r.requestId in z.quota.reservations
  {
    var y1 := Next(Start(q), Ask(r));
    AskedAlone(q, r);
    AdmittedAlone(q, r);
    var s := Step(q, RequestPermit(r)).state;
    StepInv(q, RequestPermit(r));
    assert q.inFlight == 0 by { FlightPart(q); }
    GrantedAlone(s, r, now);
    var g := GrantOf(q, r);
    assert GrantOf(s, r) == g && Exact(r, g);
    var path := Path(q, r, now);
    assert path == [Ask(r), Deliver(RequestMsg(r)), StartTurn(now), BeginSend, SendArrives,
                    ReceiveReply(GrantMsg(r.requester, g)), TakeReply(r.requestId)];
    PathUnfolds(Start(q), path);
    hide *;
    DeliveredAlone(y1, r);
    var y2 := Next(y1, Deliver(RequestMsg(r)));
    IdleCourier(y2);
    TurnAlone(y2, now);
    var y3 := Next(y2, StartTurn(now));
    SentAlone(y3, g);
    var y5 := Next(Next(y3, BeginSend), SendArrives);
    assert GrantMsg(r.requester, g) in y5.net;
    TakenAlone(y5, r, g);
  }

  lemma IdleCourier(y: System)
    ensures y.courier == Courier([], None) ==> Idle(y.courier)
  {
  }
}
