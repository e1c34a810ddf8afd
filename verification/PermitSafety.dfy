/** Every action of the permit protocol keeps its invariant; callers only hold backed grants. */
module PermitSafety {
  import opened Collections
  import opened QuotaModel
  import opened QuotaInvariant
  import opened QuotaWaiter
  import opened PermitProtocol

  // ---- coordinator actions ----

  /** Only replies that carry no permit are new on the network. */
  ghost predicate OnlyDenialsAdded(net: set<Message>, next: set<Message>) {
    net <= next && forall m :: m in next && m !in net ==> m.DenialMsg?
  }

  lemma CoordinateNet(y: System, e: Event)
    ensures OnlyDenialsAdded(y.net, Coordinate(y, e).net)
    ensures var z := Coordinate(y, e);
            z.(cancelled := y.cancelled, courier := y.courier) == z
  {
    hide Step;
  }

  lemma DenialsKeepInboxes(c: Callers, net: set<Message>, next: set<Message>)
    requires InboxesOk(c, net) && net <= next
    ensures InboxesOk(c, next)
  {
    forall who | who in c.inboxes ensures InboxFor(c.inboxes[who], who, c.issued, next) {
      assert InboxFor(c.inboxes[who], who, c.issued, net);
      hide InboxOk;
    }
  }

  lemma DenialsKeepNet(c: Callers, net: set<Message>, next: set<Message>)
    requires NetOk(net, c) && OnlyDenialsAdded(net, next)
    ensures NetOk(next, c)
  {
  }

  lemma DenialsKeepHeld(c: Callers, net: set<Message>, next: set<Message>)
    requires HeldOk(c, net) && net <= next
    ensures HeldOk(c, next)
  {
    hide Waiting;
  }

  lemma DenialsKeepCallers(c: Callers, net: set<Message>, next: set<Message>)
    requires CallersOk(c, net) && OnlyDenialsAdded(net, next)
    ensures CallersOk(c, next)
  {
    hide NetOk, InboxesOk, WithdrawnOk, HeldOk;
    DenialsKeepInboxes(c, net, next);
    DenialsKeepNet(c, net, next);
    DenialsKeepHeld(c, net, next);
  }

  lemma ReleasingKeepsIssued(s: QuotaState, e: Event, t: QuotaState, issued: map<Key, PermitRequest>)
    requires EntriesIssued(s, issued) && Releasing(s, e, t)
    requires e.RequestPermit? ==> e.request.requestId in issued && issued[e.request.requestId] == e.request
    ensures EntriesIssued(t, issued)
  {
    hide Releases;
  }

  /** A reservation `e` releases has a dead request, or nothing was ever sent or is queued for it. */
  ghost predicate ReleasesSafely(y: System, e: Event, c: Callers, cancelled: set<(Key, int)>, gs: seq<PermitGrant>) {
    forall id :: id in y.quota.reservations && Releases(e, id, y.quota.reservations[id]) ==>
      Dead(c, cancelled, id) || (Unsent(y.net, id) && forall g :: g in gs ==> g.requestId != id)
  }

  lemma DeadGrows(c: Callers, cancelled: set<(Key, int)>, more: set<(Key, int)>, id: Key)
    requires Dead(c, cancelled, id) && cancelled <= more
    ensures Dead(c, more, id)
  {
  }

  lemma ReleasingKeepsNet(y: System, e: Event, t: QuotaState, more: set<(Key, int)>, gs: seq<PermitGrant>)
    requires NetBacked(y.net, y.quota.reservations, y.callers, y.cancelled) && y.cancelled <= more
    requires Releasing(y.quota, e, t) && ReleasesSafely(y, e, y.callers, more, gs)
    ensures NetBacked(y.net, t.reservations, y.callers, more)
  {
    forall to, g | GrantMsg(to, g) in y.net
      ensures Dead(y.callers, more, g.requestId) || Backed(t.reservations, g)
    {
      if Dead(y.callers, y.cancelled, g.requestId) {
        DeadGrows(y.callers, y.cancelled, more, g.requestId);
      }
      hide Dead, Releases;
    }
  }

  lemma ReleasingKeepsQueue(y: System, e: Event, t: QuotaState, more: set<(Key, int)>, gs: seq<PermitGrant>)
    requires QueueBacked(gs, y.net, y.quota.reservations, y.callers, y.cancelled) && y.cancelled <= more
    requires Releasing(y.quota, e, t) && ReleasesSafely(y, e, y.callers, more, gs)
    ensures QueueBacked(gs, y.net, t.reservations, y.callers, more)
  {
    forall g | g in gs
      ensures Dead(y.callers, more, g.requestId) || (Backed(t.reservations, g) && Unsent(y.net, g.requestId))
    {
      if Dead(y.callers, y.cancelled, g.requestId) {
        DeadGrows(y.callers, y.cancelled, more, g.requestId);
      }
      hide Dead, Releases, Unsent;
    }
  }

  lemma DenialsKeepGrants(
    net: set<Message>, next: set<Message>, gs: seq<PermitGrant>, res: map<Key, PermitReservation>, c: Callers,
    cancelled: set<(Key, int)>)
    requires OnlyDenialsAdded(net, next)
    requires NetBacked(net, res, c, cancelled) && QueueBacked(gs, net, res, c, cancelled)
    ensures NetBacked(next, res, c, cancelled) && QueueBacked(gs, next, res, c, cancelled)
  {
    hide Dead, Backed;
    assert forall to, g :: GrantMsg(to, g) in next ==> GrantMsg(to, g) in net;
  }

  /** The coordinator handles a message or an environment event while `k` is left to send. */
  lemma CoordinateInv(y: System, e: Event, more: set<(Key, int)>, k: Courier)
    requires SystemInv(y) && !e.Turn? && y.cancelled <= more
    requires e.RequestPermit? ==>
               e.request.requestId in y.callers.issued && y.callers.issued[e.request.requestId] == e.request
    requires QueueBacked(Unsents(k), y.net, y.quota.reservations, y.callers, y.cancelled) && OneEach(Unsents(k))
    requires ReleasesSafely(y, e, y.callers, more, Unsents(k))
    ensures SystemInv(Coordinate(y, e).(cancelled := more, courier := k))
  {
    var t := Step(y.quota, e).state;
    var next := Coordinate(y, e).net;
    StepInv(y.quota, e);
    StepReleasing(y.quota, e);
    CoordinateNet(y, e);
    hide Inv, Step, Releasing, EntriesIssued, CallersOk, NetBacked, QueueBacked, OneEach, ReleasesSafely,
         OnlyDenialsAdded, Unsents;
    ReleasingKeepsIssued(y.quota, e, t, y.callers.issued);
    DenialsKeepCallers(y.callers, y.net, next);
    ReleasingKeepsNet(y, e, t, more, Unsents(k));
    ReleasingKeepsQueue(y, e, t, more, Unsents(k));
    DenialsKeepGrants(y.net, next, Unsents(k), t.reservations, y.callers, more);
  }

  /** A delivered cancel or completion was sent by a caller that has withdrawn its request. */
  lemma DeliveredReleasesSafely(y: System, m: Message, gs: seq<PermitGrant>)
    requires NetOk(y.net, y.callers) && m in y.net && (m.RequestMsg? || m.CancelMsg? || m.CompleteMsg?)
    ensures ReleasesSafely(y, EventOf(m), y.callers, y.cancelled, gs)
    ensures m.RequestMsg? ==>
              m.request.requestId in y.callers.issued && y.callers.issued[m.request.requestId] == m.request
  {
    hide Unsent;
  }

  lemma NetIsOk(y: System)
    requires SystemInv(y)
    ensures NetOk(y.net, y.callers)
    ensures QueueBacked(Unsents(y.courier), y.net, y.quota.reservations, y.callers, y.cancelled)
    ensures OneEach(Unsents(y.courier))
  {
    hide Inv, EntriesIssued, NetOk, InboxesOk, WithdrawnOk, HeldOk, NetBacked, QueueBacked, OneEach, Unsents;
  }

  lemma DeliverInv(y: System, m: Message)
    requires SystemInv(y) && Enabled(y, Deliver(m))
    ensures SystemInv(Coordinate(y, EventOf(m)))
  {
    assert m in y.net && (m.RequestMsg? || m.CancelMsg? || m.CompleteMsg?);
    var e := EventOf(m);
    assert !e.Turn? && (e.RequestPermit? ==> m.RequestMsg? && e.request == m.request);
    hide *;
    NetIsOk(y);
    DeliveredReleasesSafely(y, m, Unsents(y.courier));
    CoordinateNet(y, e);
    CoordinateInv(y, e, y.cancelled, y.courier);
  }

  lemma CancelStoreInv(y: System, store: Key, g: int)
    requires SystemInv(y)
    ensures SystemInv(Coordinate(y, CancelGenerationPermits(store, g)).(cancelled := y.cancelled + {(store, g)}))
  {
    var e := CancelGenerationPermits(store, g);
    hide Inv, CallersOk, NetBacked, QueueBacked, OneEach, Unsents, Coordinate;
    assert ReleasesSafely(y, e, y.callers, y.cancelled + {(store, g)}, Unsents(y.courier));
    hide EntriesIssued, ReleasesSafely;
    CoordinateNet(y, e);
    CoordinateInv(y, e, y.cancelled + {(store, g)}, y.courier);
  }

  lemma QuietInv(y: System, e: Event)
    requires SystemInv(y) && (e.ObserveQuota? || e.DisableScope? || e.ContinueAsNew?)
    ensures SystemInv(Coordinate(y, e))
  {
    hide Inv, CallersOk, NetBacked, QueueBacked, OneEach, Unsents, Coordinate, EntriesIssued;
    assert ReleasesSafely(y, e, y.callers, y.cancelled, Unsents(y.courier));
    hide ReleasesSafely;
    CoordinateNet(y, e);
    CoordinateInv(y, e, y.cancelled, y.courier);
  }

  lemma RestBacked(gs: seq<PermitGrant>, net: set<Message>, res: map<Key, PermitReservation>, c: Callers,
                   cancelled: set<(Key, int)>)
    requires gs != [] && QueueBacked(gs, net, res, c, cancelled) && OneEach(gs)
    ensures QueueBacked(gs[1..], net, res, c, cancelled) && OneEach(gs[1..])
    ensures forall g :: g in gs[1..] ==> g.requestId != gs[0].requestId
  {
    hide Dead, Backed, Unsent;
    assert forall g :: g in gs[1..] ==> g in gs;
    forall i, j | 0 <= i < j < |gs[1..]| ensures gs[1..][i].requestId != gs[1..][j].requestId {
      assert gs[1..][i] == gs[i + 1] && gs[1..][j] == gs[j + 1];
    }
  }

  lemma SendingIsHead(k: Courier)
    requires k.sending.Some? && !k.sending.value.delivered
    ensures Unsents(k) != [] && Unsents(k)[0] == k.sending.value.grant
    ensures Unsents(k)[1..] == k.outbox
  {
  }

  lemma FailInv(y: System)
    requires SystemInv(y) && Enabled(y, SendFails)
    ensures SystemInv(FailStep(y))
  {
    var g := y.courier.sending.value.grant;
    var e := CancelPermit(g.requestId);
    var k := y.courier.(sending := None);
    var gs := Unsents(y.courier);
    SendingIsHead(y.courier);
    assert Unsents(k) == y.courier.outbox;
    RestBacked(gs, y.net, y.quota.reservations, y.callers, y.cancelled);
    assert gs[0] in gs;
    assert Dead(y.callers, y.cancelled, g.requestId) || Unsent(y.net, g.requestId);
    hide Inv, CallersOk, NetBacked, QueueBacked, OneEach, Coordinate, EntriesIssued, Dead, Unsent, Unsents;
    assert ReleasesSafely(y, e, y.callers, y.cancelled, Unsents(k));
    hide ReleasesSafely;
    CoordinateInv(y, e, y.cancelled, k);
  }

  // ---- turns and sending ----

  lemma GrantedKeepsIssued(s: QuotaState, t: QuotaState, grants: seq<PermitGrant>, issued: map<Key, PermitRequest>)
    requires EntriesIssued(s, issued) && Grants(s, t, grants)
    ensures EntriesIssued(t, issued)
  {
    hide OneEach, Backed;
  }

  lemma GrantedKeepsNet(y: System, t: QuotaState, grants: seq<PermitGrant>)
    requires NetBacked(y.net, y.quota.reservations, y.callers, y.cancelled) && Grants(y.quota, t, grants)
    ensures NetBacked(y.net, t.reservations, y.callers, y.cancelled)
  {
    hide OneEach, Dead;
  }

  /** Whatever was sent for a request that was still queued is dead, so a new grant for it is the first. */
  lemma GrantsFirstSent(y: System, t: QuotaState, grants: seq<PermitGrant>)
    requires ApartOk(y.quota) && Grants(y.quota, t, grants)
    requires NetBacked(y.net, y.quota.reservations, y.callers, y.cancelled)
    ensures QueueBacked(grants, y.net, t.reservations, y.callers, y.cancelled) && OneEach(grants)
  {
    hide Dead, OneEach;
    forall g | g in grants
      ensures Dead(y.callers, y.cancelled, g.requestId) || (Backed(t.reservations, g) && Unsent(y.net, g.requestId))
    {
      if !Unsent(y.net, g.requestId) {
        var to, sent :| GrantMsg(to, sent) in y.net && sent.requestId == g.requestId;
      }
    }
  }

  lemma TurnParts(y: System, now: int)
    requires Inv(y.quota)
    ensures var o := Step(y.quota, Turn(now));
            && TurnStep(y, now) == y.(quota := o.state, courier := Courier(o.grants, None))
            && Inv(o.state) && Grants(y.quota, o.state, o.grants) && ApartOk(y.quota)
  {
    StepInv(y.quota, Turn(now));
    TurnGranted(y.quota, now);
    hide Inv, GrantAvailable, Grants;
    assert Step(y.quota, Turn(now)).denials == [];
    assert y.net + DenialMessages([]) == y.net;
  }

  lemma TurnKeepsInv(y: System, now: int)
    requires SystemInv(y) && Idle(y.courier)
    ensures SystemInv(TurnStep(y, now))
  {
    hide Inv, Step, Grants, EntriesIssued, CallersOk, NetBacked, QueueBacked, OneEach, ApartOk, TurnStep;
    var o := Step(y.quota, Turn(now));
    TurnParts(y, now);
    assert Unsents(Courier(o.grants, None)) == o.grants;
    hide Unsents;
    GrantedKeepsIssued(y.quota, o.state, o.grants, y.callers.issued);
    GrantedKeepsNet(y, o.state, o.grants);
    GrantsFirstSent(y, o.state, o.grants);
  }

  lemma CourierInv(y: System, k: Courier)
    requires SystemInv(y)
    requires Unsents(k) == Unsents(y.courier) || (Unsents(y.courier) != [] && Unsents(k) == Unsents(y.courier)[1..])
    ensures SystemInv(y.(courier := k))
  {
    var gs := Unsents(y.courier);
    hide Inv, EntriesIssued, CallersOk, NetBacked, QueueBacked, OneEach, Unsents;
    if gs != [] {
      RestBacked(gs, y.net, y.quota.reservations, y.callers, y.cancelled);
    }
  }

  lemma BeginSendInv(y: System)
    requires SystemInv(y) && Enabled(y, BeginSend)
    ensures SystemInv(BeginSendStep(y))
  {
    hide SystemInv;
    var gs, k := Unsents(y.courier), BeginSendStep(y).courier;
    assert gs == y.courier.outbox;
    assert Unsents(k) == gs || Unsents(k) == gs[1..];
    hide Unsents;
    CourierInv(y, k);
  }

  lemma ArriveCallers(c: Callers, net: set<Message>, to: Key, g: PermitGrant)
    requires CallersOk(c, net)
    ensures CallersOk(c, net + {GrantMsg(to, g)})
  {
    hide NetOk, InboxesOk, WithdrawnOk, HeldOk;
    DenialsKeepInboxes(c, net, net + {GrantMsg(to, g)});
    DenialsKeepHeld(c, net, net + {GrantMsg(to, g)});
    ArriveNet(c, net, to, g);
  }

  lemma ArriveNet(c: Callers, net: set<Message>, to: Key, g: PermitGrant)
    requires NetOk(net, c)
    ensures NetOk(net + {GrantMsg(to, g)}, c)
  {
  }

  lemma ArriveGrants(gs: seq<PermitGrant>, net: set<Message>, res: map<Key, PermitReservation>, c: Callers,
                     cancelled: set<(Key, int)>, to: Key)
    requires gs != [] && QueueBacked(gs, net, res, c, cancelled) && OneEach(gs)
    requires NetBacked(net, res, c, cancelled)
    ensures NetBacked(net + {GrantMsg(to, gs[0])}, res, c, cancelled)
    ensures QueueBacked(gs[1..], net + {GrantMsg(to, gs[0])}, res, c, cancelled)
  {
    RestBacked(gs, net, res, c, cancelled);
    hide Dead, Backed, OneEach;
    assert gs[0] in gs;
  }

  lemma ArriveInv(y: System)
    requires SystemInv(y) && Enabled(y, SendArrives)
    ensures SystemInv(ArriveStep(y))
  {
    var s := y.courier.sending.value;
    var gs := Unsents(y.courier);
    SendingIsHead(y.courier);
    assert Unsents(ArriveStep(y).courier) == gs[1..];
    hide Inv, EntriesIssued, CallersOk, NetBacked, QueueBacked, OneEach, Unsents;
    ArriveCallers(y.callers, y.net, s.to, s.grant);
    ArriveGrants(gs, y.net, y.quota.reservations, y.callers, y.cancelled, s.to);
    RestBacked(gs, y.net, y.quota.reservations, y.callers, y.cancelled);
  }

  lemma AcknowledgeInv(y: System)
    requires SystemInv(y) && Enabled(y, SendAcknowledged)
    ensures SystemInv(y.(courier := y.courier.(sending := None)))
  {
    CourierInv(y, y.courier.(sending := None));
  }

  // ---- callers ----

  /** The callers learn of more requests and withdraw more; nothing else about them matters to grants. */
  ghost predicate CallersGrow(c: Callers, d: Callers) {
    && c.withdrawn <= d.withdrawn
    && forall id :: id in c.issued ==> id in d.issued && d.issued[id] == c.issued[id]
  }

  ghost predicate NoGrantsAdded(net: set<Message>, next: set<Message>) {
    forall m :: m in next && m !in net ==> !m.GrantMsg?
  }

  lemma CallersKeepGrants(y: System, d: Callers, next: set<Message>)
    requires GrantsOk(y) && EntriesIssued(y.quota, y.callers.issued)
    requires CallersGrow(y.callers, d) && NoGrantsAdded(y.net, next)
    ensures GrantsOk(y.(callers := d, net := next)) && EntriesIssued(y.quota, d.issued)
  {
    hide OneEach, Unsents, Backed;
    assert forall to, g :: GrantMsg(to, g) in next ==> GrantMsg(to, g) in y.net;
    assert forall id :: Dead(y.callers, y.cancelled, id) ==> Dead(d, y.cancelled, id);
  }

  lemma CallerInv(y: System, d: Callers, next: set<Message>)
    requires SystemInv(y) && CallersOk(d, next)
    requires CallersGrow(y.callers, d) && NoGrantsAdded(y.net, next)
    ensures SystemInv(y.(callers := d, net := next))
  {
    hide Inv, CallersOk, GrantsOk, EntriesIssued, CallersGrow, NoGrantsAdded;
    CallersKeepGrants(y, d, next);
  }

  lemma MyInbox(c: Callers, net: set<Message>, who: Key)
    requires InboxesOk(c, net)
    ensures InboxFor(InboxOf(c, who), who, c.issued, net)
  {
    if who !in c.inboxes {
      assert Distinct<Key>([]);
    }
  }

  lemma OneInboxChanges(c: Callers, net: set<Message>, who: Key, b: Inbox, d: Callers, next: set<Message>)
    requires InboxesOk(c, net) && net <= next
    requires d.inboxes == c.inboxes[who := b] && InboxFor(b, who, d.issued, next)
    requires forall id :: id in c.issued ==> id in d.issued && d.issued[id] == c.issued[id]
    ensures InboxesOk(d, next)
  {
    forall other | other in d.inboxes ensures InboxFor(d.inboxes[other], other, d.issued, next) {
      if other != who {
        assert InboxFor(c.inboxes[other], other, c.issued, net);
        hide InboxOk;
      }
    }
  }

  // Asking: the new request is unknown to everyone, so no withdrawal or grant concerns it.

  lemma AskInbox(c: Callers, net: set<Message>, r: PermitRequest)
    requires InboxesOk(c, net) && r.requestId !in c.issued
    requires RequestRefusal(InboxOf(c, r.requester), r).None?
    ensures InboxFor(Expect(InboxOf(c, r.requester), r), r.requester, c.issued[r.requestId := r],
                     net + {RequestMsg(r)})
  {
    MyInbox(c, net, r.requester);
  }

  lemma AskWaiting(c: Callers, r: PermitRequest, id: Key)
    requires r.requestId !in c.issued && id != r.requestId
    ensures var d := WithInbox(c, r.requester, Expect(InboxOf(c, r.requester), r)).(
                       issued := c.issued[r.requestId := r]);
            Waiting(d, id) <==> Waiting(c, id)
  {
  }

  lemma AskCallers(c: Callers, net: set<Message>, r: PermitRequest)
    requires CallersOk(c, net) && r.requestId !in c.issued
    requires RequestRefusal(InboxOf(c, r.requester), r).None?
    ensures CallersOk(WithInbox(c, r.requester, Expect(InboxOf(c, r.requester), r)).(
                        issued := c.issued[r.requestId := r]), net + {RequestMsg(r)})
  {
    var d := WithInbox(c, r.requester, Expect(InboxOf(c, r.requester), r)).(issued := c.issued[r.requestId := r]);
    var next := net + {RequestMsg(r)};
    AskInbox(c, net, r);
    OneInboxChanges(c, net, r.requester, Expect(InboxOf(c, r.requester), r), d, next);
    AskNet(c, net, r);
    AskOthers(c, net, r, d);
    assert d.issued == c.issued[r.requestId := r];
    hide InboxesOk, InboxFor, Expect, InboxOf;
    NetSeesIssued(c, d, next);
  }

  lemma AskNet(c: Callers, net: set<Message>, r: PermitRequest)
    requires NetOk(net, c) && r.requestId !in c.issued
    ensures NetOk(net + {RequestMsg(r)}, c.(issued := c.issued[r.requestId := r]))
  {
  }

  lemma NetSeesIssued(c: Callers, d: Callers, next: set<Message>)
    requires NetOk(next, c.(issued := d.issued)) && d.withdrawn == c.withdrawn
    ensures NetOk(next, d)
  {
  }

  lemma AskOthers(c: Callers, net: set<Message>, r: PermitRequest, d: Callers)
    requires WithdrawnOk(c) && HeldOk(c, net) && r.requestId !in c.issued
    requires d == WithInbox(c, r.requester, Expect(InboxOf(c, r.requester), r)).(
                    issued := c.issued[r.requestId := r])
    ensures WithdrawnOk(d) && HeldOk(d, net + {RequestMsg(r)})
  {
    forall id | id in c.issued ensures Waiting(d, id) <==> Waiting(c, id) {
      AskWaiting(c, r, id);
    }
    hide Waiting, Expect, InboxOf;
  }

  lemma AskInv(y: System, r: PermitRequest)
    requires SystemInv(y) && Enabled(y, Ask(r))
    ensures SystemInv(AskStep(y, r))
  {
    hide Inv, EntriesIssued, CallersOk, GrantsOk, InboxOf, Expect, RequestRefusal;
    var d := AskStep(y, r).callers;
    AskCallers(y.callers, y.net, r);
    assert CallersGrow(y.callers, d);
    hide CallersGrow;
    CallerInv(y, d, y.net + {RequestMsg(r)});
  }

  // Leaving the wait, with a reply or after a failure.

  lemma FinishInbox(c: Callers, net: set<Message>, who: Key, id: Key)
    requires InboxesOk(c, net)
    ensures InboxFor(Finish(InboxOf(c, who), id), who, c.issued, net)
  {
    MyInbox(c, net, who);
    FinishKeepsInbox(InboxOf(c, who), id);
    hide InboxOk, MarkConsumed, InboxesOk, InboxOf;
  }

  lemma FinishWaiting(c: Callers, id: Key, x: Key)
    requires id in c.issued
    ensures var who := c.issued[id].requester;
            Waiting(WithInbox(c, who, Finish(InboxOf(c, who), id)), x)
            <==> Waiting(c, x) && !(x == id)
  {
    hide MarkConsumed;
  }

  lemma TakenGrant(c: Callers, net: set<Message>, id: Key)
    requires InboxesOk(c, net) && Waiting(c, id) && id in InboxOf(c, c.issued[id].requester).grants
    ensures var who := c.issued[id].requester; var g := InboxOf(c, who).grants[id];
            g.requestId == id && Exact(c.issued[id], g) && GrantMsg(who, g) in net
  {
    MyInbox(c, net, c.issued[id].requester);
  }

  lemma SameInboxes(c: Callers, d: Callers, net: set<Message>)
    requires InboxesOk(c, net) && d.inboxes == c.inboxes && d.issued == c.issued
    ensures InboxesOk(d, net)
  {
    hide InboxFor;
  }

  lemma TakeHeld(c: Callers, net: set<Message>, id: Key, d: Callers)
    requires WithdrawnOk(c) && HeldOk(c, net) && id in c.issued && Waiting(c, id) && id !in c.leaving
    requires forall x :: Waiting(d, x) <==> Waiting(c, x) && x != id
    requires d.issued == c.issued && d.withdrawn == c.withdrawn && d.leaving == c.leaving
    requires forall x :: x in c.held ==> x in d.held && (x != id ==> d.held[x] == c.held[x])
    requires forall x :: x in d.held ==> x in c.held || x == id
    requires id in d.held ==> d.held[id].requestId == id && Exact(c.issued[id], d.held[id])
                              && GrantMsg(c.issued[id].requester, d.held[id]) in net
    ensures WithdrawnOk(d) && HeldOk(d, net)
  {
    hide Waiting, Exact;
    assert id !in c.withdrawn;
  }

  lemma TakeStepHeld(y: System, id: Key)
    requires InboxesOk(y.callers, y.net) && HeldOk(y.callers, y.net) && CanTake(y, id)
    ensures var c, d := y.callers, TakeStep(y, id).callers;
            && (forall x :: x in c.held ==> x in d.held && (x != id ==> d.held[x] == c.held[x]))
            && (forall x :: x in d.held ==> x in c.held || x == id)
            && (id in d.held ==> d.held[id].requestId == id && Exact(c.issued[id], d.held[id])
                                 && GrantMsg(c.issued[id].requester, d.held[id]) in y.net)
  {
    var c := y.callers;
    var b := InboxOf(c, c.issued[id].requester);
    assert id !in c.held;
    if ReplyFor(b, id).GrantReply? {
      TakenGrant(c, y.net, id);
    }
    hide InboxesOk, HeldOk, Finish, Exact, InboxOf;
  }

  lemma TakeWaiting(y: System, id: Key)
    requires CanTake(y, id)
    ensures forall x :: Waiting(TakeStep(y, id).callers, x) <==> Waiting(y.callers, x) && x != id
  {
    forall x ensures Waiting(TakeStep(y, id).callers, x) <==> Waiting(y.callers, x) && x != id {
      FinishWaiting(y.callers, id, x);
      hide Finish, Answered;
    }
  }

  lemma TakeCallers(y: System, id: Key)
    requires CallersOk(y.callers, y.net) && CanTake(y, id)
    ensures CallersOk(TakeStep(y, id).callers, y.net)
  {
    hide InboxesOk, InboxFor, Exact, NetOk, HeldOk, WithdrawnOk, Finish, InboxOf;
    var c, d := y.callers, TakeStep(y, id).callers;
    assert id in c.issued;
    hide Waiting;
    var who := c.issued[id].requester;
    FinishInbox(c, y.net, who, id);
    OneInboxChanges(c, y.net, who, Finish(InboxOf(c, who), id), d, y.net);
    TakeWaiting(y, id);
    TakeStepHeld(y, id);
    TakeHeld(c, y.net, id, d);
    TakeNet(c, d, y.net);
  }

  lemma TakeNet(c: Callers, d: Callers, net: set<Message>)
    requires NetOk(net, c) && d.issued == c.issued && d.withdrawn == c.withdrawn
    ensures NetOk(net, d)
  {
  }

  lemma TakeInv(y: System, id: Key)
    requires SystemInv(y) && CanTake(y, id)
    ensures SystemInv(TakeStep(y, id))
  {
    hide Inv, EntriesIssued, CallersOk, GrantsOk, InboxOf, Finish, Answered, ReplyFor, Waiting;
    TakeCallers(y, id);
    var d := TakeStep(y, id).callers;
    assert CallersGrow(y.callers, d);
    hide CallersGrow, CanTake;
    CallerInv(y, d, y.net);
  }

  lemma EndHeld(c: Callers, net: set<Message>, id: Key, d: Callers)
    requires WithdrawnOk(c) && HeldOk(c, net)
    requires forall x :: Waiting(d, x) <==> Waiting(c, x) && x != id
    requires d.issued == c.issued && d.withdrawn == c.withdrawn && d.leaving == c.leaving - {id} && d.held == c.held
    ensures WithdrawnOk(d) && HeldOk(d, net)
  {
    hide Waiting, Exact;
  }

  lemma EndAbandonCallers(y: System, id: Key)
    requires CallersOk(y.callers, y.net) && id in y.callers.issued
    ensures CallersOk(EndAbandonStep(y, id).callers, y.net)
  {
    var c, d := y.callers, EndAbandonStep(y, id).callers;
    var who := c.issued[id].requester;
    FinishInbox(c, y.net, who, id);
    OneInboxChanges(c, y.net, who, Finish(InboxOf(c, who), id), d, y.net);
    forall x ensures Waiting(d, x) <==> Waiting(c, x) && x != id {
      FinishWaiting(c, id, x);
    }
    hide InboxesOk, InboxFor, Finish, Waiting, Exact;
    EndHeld(c, y.net, id, d);
    hide WithdrawnOk, HeldOk;
  }

  lemma EndAbandonInv(y: System, id: Key)
    requires SystemInv(y) && Enabled(y, EndAbandon(id))
    ensures SystemInv(EndAbandonStep(y, id))
  {
    EndAbandonCallers(y, id);
    var d := EndAbandonStep(y, id).callers;
    assert CallersGrow(y.callers, d);
    hide Inv, EntriesIssued, CallersOk, GrantsOk, CallersGrow, InboxOf, Finish;
    CallerInv(y, d, y.net);
  }

  lemma WithdrawNet(c: Callers, net: set<Message>, id: Key, m: Message, d: Callers)
    requires NetOk(net, c) && (m == CancelMsg(id) || (m.CompleteMsg? && m.requestId == id))
    requires d.issued == c.issued && d.withdrawn == c.withdrawn + {id}
    ensures NetOk(net + {m}, d)
  {
  }

  lemma AbandonCallers(y: System, id: Key)
    requires CallersOk(y.callers, y.net) && Waiting(y.callers, id)
    ensures CallersOk(AbandonStep(y, id).callers, AbandonStep(y, id).net)
  {
    var c, d, next := y.callers, AbandonStep(y, id).callers, AbandonStep(y, id).net;
    forall x ensures Waiting(d, x) <==> Waiting(c, x) {
    }
    hide Waiting, InboxesOk, NetOk, Exact;
    WithdrawNet(c, y.net, id, CancelMsg(id), d);
    DenialsKeepInboxes(c, y.net, next);
    SameInboxes(c, d, next);
  }

  lemma AbandonInv(y: System, id: Key)
    requires SystemInv(y) && Enabled(y, Abandon(id))
    ensures SystemInv(AbandonStep(y, id))
  {
    AbandonCallers(y, id);
    var d := AbandonStep(y, id).callers;
    hide Inv, EntriesIssued, CallersOk, GrantsOk, Waiting;
    CallerInv(y, d, AbandonStep(y, id).net);
  }

  lemma CompleteCallers(y: System, id: Key)
    requires CallersOk(y.callers, y.net) && id in y.callers.held
    ensures CallersOk(CompleteStep(y, id).callers, CompleteStep(y, id).net)
  {
    var c, d, next := y.callers, CompleteStep(y, id).callers, CompleteStep(y, id).net;
    forall x ensures Waiting(d, x) <==> Waiting(c, x) {
    }
    hide Waiting, InboxesOk, NetOk, Exact;
    WithdrawNet(c, y.net, id, CompleteMsg(id, c.held[id].permitId), d);
    DenialsKeepInboxes(c, y.net, next);
    SameInboxes(c, d, next);
  }

  lemma CompleteActionInv(y: System, id: Key)
    requires SystemInv(y) && Enabled(y, CompletePermit(id))
    ensures SystemInv(CompleteStep(y, id))
  {
    CompleteCallers(y, id);
    var d := CompleteStep(y, id).callers;
    hide Inv, EntriesIssued, CallersOk, GrantsOk;
    CallerInv(y, d, CompleteStep(y, id).net);
  }

  lemma ReceiveInbox(c: Callers, net: set<Message>, m: Message)
    requires InboxesOk(c, net) && m in net && (m.GrantMsg? || m.DenialMsg?)
    ensures m.GrantMsg? ==> InboxFor(ReceiveGrant(InboxOf(c, m.to), m.grant), m.to, c.issued, net)
    ensures m.DenialMsg? ==>
              InboxFor(ReceiveDenial(InboxOf(c, m.denial.requester), m.denial.denial), m.denial.requester,
                       c.issued, net)
  {
    if m.GrantMsg? {
      MyInbox(c, net, m.to);
    } else {
      MyInbox(c, net, m.denial.requester);
    }
  }

  lemma SameExpected(c: Callers, d: Callers, who: Key, b: Inbox)
    requires d == WithInbox(c, who, b) && b.expected == InboxOf(c, who).expected
    ensures forall x :: Waiting(d, x) <==> Waiting(c, x)
  {
  }

  lemma SameWaiting(c: Callers, d: Callers, net: set<Message>)
    requires WithdrawnOk(c) && HeldOk(c, net) && NetOk(net, c) && forall x :: Waiting(d, x) <==> Waiting(c, x)
    requires d == c.(inboxes := d.inboxes)
    ensures WithdrawnOk(d) && HeldOk(d, net) && NetOk(net, d)
  {
    hide Waiting, Exact;
  }

  lemma ReceiveCallers(y: System, m: Message)
    requires CallersOk(y.callers, y.net) && m in y.net && (m.GrantMsg? || m.DenialMsg?)
    ensures CallersOk(ReceiveStep(y, m).callers, y.net)
  {
    var c, d := y.callers, ReceiveStep(y, m).callers;
    var who := if m.GrantMsg? then m.to else m.denial.requester;
    ReceiveInbox(c, y.net, m);
    SameExpected(c, d, who, d.inboxes[who]);
    hide Waiting, InboxesOk, InboxFor, ReceiveGrant, ReceiveDenial, NetOk, HeldOk, WithdrawnOk;
    OneInboxChanges(c, y.net, who, d.inboxes[who], d, y.net);
    SameWaiting(c, d, y.net);
  }

  lemma ReceiveInv(y: System, m: Message)
    requires SystemInv(y) && Enabled(y, ReceiveReply(m))
    ensures SystemInv(ReceiveStep(y, m))
  {
    ReceiveCallers(y, m);
    var d := ReceiveStep(y, m).callers;
    assert CallersGrow(y.callers, d);
    hide Inv, EntriesIssued, CallersOk, GrantsOk, CallersGrow, InboxOf, ReceiveGrant, ReceiveDenial;
    CallerInv(y, d, y.net);
  }

  // ---- runs ----

  lemma NextInv(y: System, a: Action)
    requires SystemInv(y)
    ensures SystemInv(Next(y, a))
  {
    hide SystemInv, Coordinate, AskStep, TakeStep, AbandonStep, EndAbandonStep, CompleteStep, ReceiveStep, TurnStep,
         BeginSendStep, ArriveStep, FailStep;
    if Enabled(y, a) {
      match a
      case Ask(r) => AskInv(y, r);
      case TakeReply(id) => TakeInv(y, id);
      case Abandon(id) => AbandonInv(y, id);
      case EndAbandon(id) => EndAbandonInv(y, id);
      case CompletePermit(id) => CompleteActionInv(y, id);
      case ReceiveReply(m) => ReceiveInv(y, m);
      case Deliver(m) => DeliverInv(y, m);
      case CancelStoreGeneration(store, g) => CancelStoreInv(y, store, g);
      case ObserveResponse(o, now) => QuietInv(y, ObserveQuota(o, now));
      case DisableCredential => QuietInv(y, DisableScope);
      case StartTurn(now) => TurnKeepsInv(y, now);
      case BeginSend => BeginSendInv(y);
      case SendArrives => ArriveInv(y);
      case SendAcknowledged => AcknowledgeInv(y);
      case SendFails => FailInv(y);
      case CarryOver(carried) => QuietInv(y, ContinueAsNew(carried));
    }
  }

  lemma StartInv(q: QuotaState)
    requires Inv(q) && q.pending == map[] && q.reservations == map[]
    ensures SystemInv(Start(q))
  {
    hide Inv;
  }

  lemma {:induction false} RunSystemInv(q: QuotaState, actions: seq<Action>)
    requires Inv(q) && q.pending == map[] && q.reservations == map[]
    ensures SystemInv(RunSystem(Start(q), actions))
  {
    hide Next, SystemInv, Inv;
    StartInv(q);
    if actions != [] {
      RunSystemInv(q, actions[..|actions| - 1]);
      NextInv(RunSystem(Start(q), actions[..|actions| - 1]), actions[|actions| - 1]);
    }
  }

  /** Callers that hold a grant whose store generation was not cancelled. */
  function Holders(y: System): set<Key> {
    set id | id in y.callers.held
             && !(id in y.callers.issued
                  && (y.callers.issued[id].storeKey, y.callers.issued[id].generation) in y.cancelled)
  }

  /** The grant `id` was returned with is exact and its reservation is live under the same permit ID. */
  ghost predicate Secured(y: System, id: Key) {
    && id in y.callers.held && id in y.callers.issued
    && y.callers.held[id].scope == y.callers.issued[id].scope
    && y.callers.held[id].cost == y.callers.issued[id].cost
    && id in y.quota.reservations && y.quota.reservations[id].permitId == y.callers.held[id].permitId
  }

  lemma HolderBacked(y: System, id: Key)
    requires HeldOk(y.callers, y.net) && WithdrawnOk(y.callers)
    requires NetBacked(y.net, y.quota.reservations, y.callers, y.cancelled)
    requires id in Holders(y)
    ensures Secured(y, id)
  {
    hide Waiting;
    assert GrantMsg(y.callers.issued[id].requester, y.callers.held[id]) in y.net;
    assert !Dead(y.callers, y.cancelled, id);
  }

  lemma HoldersSecured(y: System)
    requires SystemInv(y)
    ensures forall id :: id in Holders(y) ==> Secured(y, id)
  {
    hide Inv, EntriesIssued, QueueBacked, OneEach, NetOk, InboxesOk, Holders, Secured, HeldOk, WithdrawnOk, NetBacked;
    forall id | id in Holders(y) ensures Secured(y, id) {
      HolderBacked(y, id);
    }
  }

  /**
   Over every run, with Signals delayed, duplicated, reordered or lost, a caller that holds a
   returned, uncompleted grant of a store generation that was not cancelled has a live reservation
   with exactly that permit ID, for exactly the scope and cost it asked for.
   */
  lemma HeldGrantsAreBacked(q: QuotaState, actions: seq<Action>)
    requires Inv(q) && q.pending == map[] && q.reservations == map[]
    ensures var y := RunSystem(Start(q), actions);
            forall id :: id in Holders(y) ==> Secured(y, id)
  {
    hide SystemInv, RunSystem, Inv, Holders, Secured;
    RunSystemInv(q, actions);
    HoldersSecured(RunSystem(Start(q), actions));
  }

  lemma {:induction false} SettingsStay(q: QuotaState, actions: seq<Action>)
    ensures RunSystem(Start(q), actions).quota.settings == q.settings
  {
    if actions != [] {
      SettingsStay(q, actions[..|actions| - 1]);
      NextSettings(RunSystem(Start(q), actions[..|actions| - 1]), actions[|actions| - 1]);
      hide Next, Start;
    }
  }

  lemma CoordinateSettings(y: System, e: Event)
    ensures Coordinate(y, e).quota.settings == y.quota.settings
  {
    StepKeepsSettings(y.quota, e);
    hide Step;
  }

  lemma NextSettings(y: System, a: Action)
    ensures Next(y, a).quota.settings == y.quota.settings
  {
    forall e ensures Coordinate(y, e).quota.settings == y.quota.settings {
      CoordinateSettings(y, e);
    }
    hide Coordinate, Step, ReplyFor, ReceiveGrant, ReceiveDenial, Finish, Expect, InboxOf;
  }

  lemma HoldersCount(y: System)
    requires SystemInv(y)
    ensures |Holders(y)| <= Max(0, y.quota.settings.maxInFlight)
  {
    HoldersSecured(y);
    assert FlightOk(y.quota);
    hide SystemInv, Inv, Holders;
    assert forall id :: id in Holders(y) ==> id in y.quota.reservations.Keys;
    SubsetSize(Holders(y), y.quota.reservations.Keys);
  }

  /** So the callers working under live grants never outnumber the scope's in-flight limit. */
  lemma HoldersWithinLimit(q: QuotaState, actions: seq<Action>)
    requires Inv(q) && q.pending == map[] && q.reservations == map[]
    ensures |Holders(RunSystem(Start(q), actions))| <= Max(0, q.settings.maxInFlight)
  {
    hide SystemInv, RunSystem, Inv, Holders;
    RunSystemInv(q, actions);
    SettingsStay(q, actions);
    HoldersCount(RunSystem(Start(q), actions));
  }

  /**
   Why request IDs must be unique to their caller: with a late cancel for the same ID on the network,
   delivering it takes a live reservation away from the caller that holds it.
   */
  lemma SharedIdLosesReservation(y: System, id: Key)
    requires Inv(y.quota) && Secured(y, id) && CancelMsg(id) in y.net
    ensures !Secured(Next(y, Deliver(CancelMsg(id))), id)
  {
    assert ApartOk(y.quota);
    hide Inv, MarkAll, Without;
  }

  /** Why a failed delivery must mean that the Signal did not arrive: otherwise the holder loses its slot. */
  lemma FailureAfterArrivalLosesReservation(y: System, id: Key)
    requires Inv(y.quota) && Secured(y, id)
    requires y.courier.sending.Some? && y.courier.sending.value.grant.requestId == id
    ensures !Secured(FailStep(y), id)
  {
    assert ApartOk(y.quota);
    hide Inv, MarkAll, Without;
  }
}
