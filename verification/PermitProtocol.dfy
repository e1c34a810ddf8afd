/**
 The permit protocol end to end: callers, the coordinator and a network that may delay, reorder,
 duplicate or lose every Signal.  Each action is one atomic step between two awaits of some workflow.
 */
module PermitProtocol {
  import opened Collections
  import opened QuotaModel
  import opened QuotaInvariant
  import opened QuotaGrants
  import opened QuotaWaiter

  datatype Message =
    | RequestMsg(request: PermitRequest)
    | CancelMsg(requestId: Key)
    | CompleteMsg(requestId: Key, permitId: PermitId)
    | GrantMsg(to: Key, grant: PermitGrant)
    | DenialMsg(denial: Denial)

  /**
   `issued` names every request ever made, by its ID; `leaving` the requests whose caller is on an
   error path; `withdrawn` those whose caller ever sent a cancel or a completion; `held` the grants
   that were returned to a caller and not completed.
   */
  datatype Callers = Callers(
    issued: map<Key, PermitRequest>, inboxes: map<Key, Inbox>,
    leaving: set<Key>, withdrawn: set<Key>, held: map<Key, PermitGrant>)

  datatype Sending = Sending(grant: PermitGrant, to: Key, delivered: bool)

  /** Grants of the current turn not sent yet, and the one whose Signal is being awaited. */
  datatype Courier = Courier(outbox: seq<PermitGrant>, sending: Option<Sending>)

  /** Messages on the network stay there, so that each can be delivered late and more than once. */
  datatype System = System(
    quota: QuotaState, courier: Courier, callers: Callers, net: set<Message>, cancelled: set<(Key, int)>)

  datatype Action =
    | Ask(request: PermitRequest)
    | TakeReply(id: Key)
    | Abandon(id: Key)                  // the cancel Signal is sent
    | EndAbandon(id: Key)
    | CompletePermit(id: Key)
    | ReceiveReply(message: Message)
    | Deliver(message: Message)
    | CancelStoreGeneration(storeKey: Key, generation: int)
    | ObserveResponse(observation: QuotaObservation, now: int)
    | DisableCredential
    | StartTurn(now: int)
    | BeginSend
    | SendArrives
    | SendAcknowledged
    | SendFails                         // reported only when the Signal did not arrive
    | CarryOver(carried: seq<Key>)

  function InboxOf(c: Callers, who: Key): Inbox {
    if who in c.inboxes then c.inboxes[who] else EMPTY_INBOX
  }

  function WithInbox(c: Callers, who: Key, b: Inbox): Callers {
    c.(inboxes := c.inboxes[who := b])
  }

  predicate Waiting(c: Callers, id: Key) {
    id in c.issued && id in InboxOf(c, c.issued[id].requester).expected
  }

  predicate Idle(k: Courier) {
    k.outbox == [] && k.sending.None?
  }

  function DenialMessages(ds: seq<Denial>): (r: set<Message>)
    ensures forall m :: m in r ==> m.DenialMsg?
  {
    set d | d in ds :: DenialMsg(d)
  }

  function Coordinate(y: System, e: Event): System {
    var o := Step(y.quota, e);
    y.(quota := o.state, net := y.net + DenialMessages(o.denials))
  }

  predicate CanTake(y: System, id: Key) {
    Waiting(y.callers, id) && id !in y.callers.leaving
    && Answered(InboxOf(y.callers, y.callers.issued[id].requester), id)
  }

  predicate Enabled(y: System, a: Action) {
    match a
    case Ask(r) =>
      // The caller's own checks, and request IDs that no other request of the scope has used.
      r.requestId !in y.callers.issued && RequestRefusal(InboxOf(y.callers, r.requester), r).None?
    case TakeReply(id) => CanTake(y, id)
    case Abandon(id) => Waiting(y.callers, id) && id !in y.callers.leaving
    case EndAbandon(id) => Waiting(y.callers, id) && id in y.callers.leaving
    case CompletePermit(id) => id in y.callers.held
    case ReceiveReply(m) => m in y.net && (m.GrantMsg? || m.DenialMsg?)
    case Deliver(m) => m in y.net && (m.RequestMsg? || m.CancelMsg? || m.CompleteMsg?)
    case StartTurn(_) => Idle(y.courier)
    case BeginSend => y.courier.sending.None? && y.courier.outbox != []
    case SendArrives => y.courier.sending.Some? && !y.courier.sending.value.delivered
    case SendAcknowledged => y.courier.sending.Some? && y.courier.sending.value.delivered
    case SendFails => y.courier.sending.Some? && !y.courier.sending.value.delivered
    case CarryOver(_) => Idle(y.courier)
    case _ => true
  }

  function EventOf(m: Message): Event
    requires m.RequestMsg? || m.CancelMsg? || m.CompleteMsg?
  {
    match m
    case RequestMsg(r) => RequestPermit(r)
    case CancelMsg(id) => CancelPermit(id)
    case CompleteMsg(id, p) => PermitCompleted(id, p)
  }

  function AskStep(y: System, r: PermitRequest): System {
    var c := y.callers;
    y.(callers := WithInbox(c, r.requester, Expect(InboxOf(c, r.requester), r)).(issued := c.issued[r.requestId := r]),
       net := y.net + {RequestMsg(r)})
  }

  function TakeStep(y: System, id: Key): System
    requires CanTake(y, id)
  {
    var c := y.callers;
    var who := c.issued[id].requester;
    var reply := ReplyFor(InboxOf(c, who), id);
    var after := WithInbox(c, who, Finish(InboxOf(c, who), id));
    y.(callers := if reply.GrantReply? then after.(held := c.held[id := reply.grant]) else after)
  }

  function AbandonStep(y: System, id: Key): System {
    y.(callers := y.callers.(leaving := y.callers.leaving + {id}, withdrawn := y.callers.withdrawn + {id}),
       net := y.net + {CancelMsg(id)})
  }

  function EndAbandonStep(y: System, id: Key): System
    requires id in y.callers.issued
  {
    var c := y.callers;
    var who := c.issued[id].requester;
    y.(callers := WithInbox(c, who, Finish(InboxOf(c, who), id)).(leaving := c.leaving - {id}))
  }

  function CompleteStep(y: System, id: Key): System
    requires id in y.callers.held
  {
    var c := y.callers;
    y.(callers := c.(held := c.held - {id}, withdrawn := c.withdrawn + {id}),
       net := y.net + {CompleteMsg(id, c.held[id].permitId)})
  }

  function ReceiveStep(y: System, m: Message): System
    requires m.GrantMsg? || m.DenialMsg?
  {
    var c := y.callers;
    y.(callers :=
         if m.GrantMsg? then WithInbox(c, m.to, ReceiveGrant(InboxOf(c, m.to), m.grant))
         else WithInbox(c, m.denial.requester, ReceiveDenial(InboxOf(c, m.denial.requester), m.denial.denial)))
  }

  function TurnStep(y: System, now: int): System {
    var z := Coordinate(y, Turn(now));
    z.(courier := Courier(Step(y.quota, Turn(now)).grants, None))
  }

  /** A grant whose reservation is already gone is not sent. */
  function BeginSendStep(y: System): System
    requires y.courier.outbox != []
  {
    var g, rest := y.courier.outbox[0], y.courier.outbox[1..];
    if g.requestId !in y.quota.reservations then y.(courier := Courier(rest, None))
    else y.(courier := Courier(rest, Some(Sending(g, y.quota.reservations[g.requestId].requester, false))))
  }

  function ArriveStep(y: System): System
    requires y.courier.sending.Some?
  {
    var s := y.courier.sending.value;
    y.(courier := y.courier.(sending := Some(s.(delivered := true))), net := y.net + {GrantMsg(s.to, s.grant)})
  }

  function FailStep(y: System): System
    requires y.courier.sending.Some?
  {
    Coordinate(y, CancelPermit(y.courier.sending.value.grant.requestId)).(
      courier := y.courier.(sending := None))
  }

  function Next(y: System, a: Action): System {
    if !Enabled(y, a) then y
    else
      match a
      case Ask(r) => AskStep(y, r)
      case TakeReply(id) => TakeStep(y, id)
      case Abandon(id) => AbandonStep(y, id)
      case EndAbandon(id) => EndAbandonStep(y, id)
      case CompletePermit(id) => CompleteStep(y, id)
      case ReceiveReply(m) => ReceiveStep(y, m)
      case Deliver(m) => Coordinate(y, EventOf(m))
      case CancelStoreGeneration(store, g) =>
        Coordinate(y, CancelGenerationPermits(store, g)).(cancelled := y.cancelled + {(store, g)})
      case ObserveResponse(o, now) => Coordinate(y, ObserveQuota(o, now))
      case DisableCredential => Coordinate(y, DisableScope)
      case StartTurn(now) => TurnStep(y, now)
      case BeginSend => BeginSendStep(y)
      case SendArrives => ArriveStep(y)
      case SendAcknowledged => y.(courier := y.courier.(sending := None))
      case SendFails => FailStep(y)
      case CarryOver(carried) => Coordinate(y, ContinueAsNew(carried))
  }

  function RunSystem(y: System, actions: seq<Action>): System {
    if actions == [] then y else Next(RunSystem(y, actions[..|actions| - 1]), actions[|actions| - 1])
  }

  function Start(q: QuotaState): System {
    System(q, Courier([], None), Callers(map[], map[], {}, {}, map[]), {}, {})
  }

  // ---- the invariant ----

  /** The caller gave the request up or finished it, or its generation was cancelled. */
  predicate Dead(c: Callers, cancelled: set<(Key, int)>, id: Key) {
    id in c.withdrawn
    || (id in c.issued && (c.issued[id].storeKey, c.issued[id].generation) in cancelled)
  }

  /** The coordinator still holds the reservation this very grant was made for. */
  predicate Backed(reservations: map<Key, PermitReservation>, g: PermitGrant) {
    g.requestId in reservations && reservations[g.requestId].permitId == g.permitId
  }

  ghost predicate NetOk(net: set<Message>, c: Callers) {
    && (forall r :: RequestMsg(r) in net ==> r.requestId in c.issued && c.issued[r.requestId] == r)
    && (forall id :: CancelMsg(id) in net ==> id in c.withdrawn)
    && (forall id, p :: CompleteMsg(id, p) in net ==> id in c.withdrawn)
  }

  ghost predicate EntriesIssued(q: QuotaState, issued: map<Key, PermitRequest>) {
    && (forall id :: id in q.pending ==> id in issued && q.pending[id] == issued[id])
    && (forall id :: id in q.reservations ==>
          id in issued && q.reservations[id].requester == issued[id].requester
          && q.reservations[id].storeKey == issued[id].storeKey
          && q.reservations[id].generation == issued[id].generation)
  }

  ghost predicate NetBacked(
    net: set<Message>, reservations: map<Key, PermitReservation>, c: Callers, cancelled: set<(Key, int)>)
  {
    forall to, g :: GrantMsg(to, g) in net ==> Dead(c, cancelled, g.requestId) || Backed(reservations, g)
  }

  ghost predicate Unsent(net: set<Message>, id: Key) {
    forall to, g :: GrantMsg(to, g) in net ==> g.requestId != id
  }

  /** Grants that no caller can have received: still to be sent, or on the way out. */
  function Unsents(k: Courier): seq<PermitGrant> {
    (if k.sending.Some? && !k.sending.value.delivered then [k.sending.value.grant] else []) + k.outbox
  }

  ghost predicate QueueBacked(
    gs: seq<PermitGrant>, net: set<Message>, reservations: map<Key, PermitReservation>, c: Callers,
    cancelled: set<(Key, int)>)
  {
    forall g :: g in gs ==>
      Dead(c, cancelled, g.requestId) || (Backed(reservations, g) && Unsent(net, g.requestId))
  }

  ghost predicate OneEach(gs: seq<PermitGrant>) {
    forall i, j :: 0 <= i < j < |gs| ==> gs[i].requestId != gs[j].requestId
  }

  ghost predicate InboxFor(b: Inbox, who: Key, issued: map<Key, PermitRequest>, net: set<Message>) {
    && InboxOk(b)
    && (forall id :: id in b.expected ==> id in issued && issued[id] == b.expected[id] && issued[id].requester == who)
    && (forall id :: id in b.grants ==> GrantMsg(who, b.grants[id]) in net)
  }

  ghost predicate InboxesOk(c: Callers, net: set<Message>) {
    forall who :: who in c.inboxes ==> InboxFor(c.inboxes[who], who, c.issued, net)
  }

  ghost predicate WithdrawnOk(c: Callers) {
    forall id :: id in c.withdrawn ==> id in c.issued && id !in c.held && (id in c.leaving || !Waiting(c, id))
  }

  ghost predicate HeldOk(c: Callers, net: set<Message>) {
    forall id :: id in c.held ==>
      id in c.issued && !Waiting(c, id) && c.held[id].requestId == id && Exact(c.issued[id], c.held[id])
      && GrantMsg(c.issued[id].requester, c.held[id]) in net
  }

  ghost predicate CallersOk(c: Callers, net: set<Message>) {
    NetOk(net, c) && InboxesOk(c, net) && WithdrawnOk(c) && HeldOk(c, net)
  }

  ghost predicate GrantsOk(y: System) {
    && NetBacked(y.net, y.quota.reservations, y.callers, y.cancelled)
    && QueueBacked(Unsents(y.courier), y.net, y.quota.reservations, y.callers, y.cancelled)
    && OneEach(Unsents(y.courier))
  }

  ghost predicate SystemInv(y: System) {
    Inv(y.quota) && EntriesIssued(y.quota, y.callers.issued) && CallersOk(y.callers, y.net) && GrantsOk(y)
  }

  // ---- what the coordinator does to the reservations ----

  predicate Releases(e: Event, id: Key, r: PermitReservation) {
    match e
    case CancelPermit(x) => x == id
    case PermitCompleted(x, _) => x == id
    case CancelGenerationPermits(store, g) => r.storeKey == store && r.generation == g
    case _ => false
  }

  /** Reservations only leave, and only for the reasons `e` gives; at most the request of `e` is admitted. */
  ghost predicate Releasing(s: QuotaState, e: Event, t: QuotaState) {
    && (forall id :: id in t.reservations ==> id in s.reservations && t.reservations[id] == s.reservations[id])
    && (forall id :: id in s.reservations ==> id in t.reservations || Releases(e, id, s.reservations[id]))
    && (forall id :: id in t.pending ==>
          (id in s.pending && t.pending[id] == s.pending[id])
          || (e.RequestPermit? && id == e.request.requestId && t.pending[id] == e.request))
  }

  lemma CancelReleasing(s: QuotaState, id: Key)
    ensures Releasing(s, CancelPermit(id), Cancel(s, id))
  {
    hide MarkAll, Without;
  }

  lemma GenerationReleasing(s: QuotaState, store: Key, g: int)
    requires ApartOk(s)
    ensures Releasing(s, CancelGenerationPermits(store, g), CancelGeneration(s, store, g))
  {
    hide MarkAll, Without, Released, GenerationMarks;
  }

  lemma CompleteReleasing(s: QuotaState, id: Key, p: PermitId)
    ensures Releasing(s, PermitCompleted(id, p), Complete(s, id, p))
  {
    hide MarkAll;
  }

  lemma AdmitReleasing(s: QuotaState, r: PermitRequest)
    ensures Releasing(s, RequestPermit(r), Admit(s, r))
  {
    hide RequestDenial;
  }

  lemma DisableReleasing(s: QuotaState)
    ensures Releasing(s, DisableScope, Disable(s))
  {
    hide MarkAll, DisableMarks;
  }

  lemma StepReleasing(s: QuotaState, e: Event)
    requires Inv(s) && !e.Turn?
    ensures Releasing(s, e, Step(s, e).state)
  {
    assert ApartOk(s);
    match e
    case RequestPermit(r) => AdmitReleasing(s, r); hide Releasing, Inv;
    case CancelPermit(id) => CancelReleasing(s, id); hide Releasing, Inv;
    case CancelGenerationPermits(store, g) => GenerationReleasing(s, store, g); hide Releasing, Inv;
    case PermitCompleted(id, p) => CompleteReleasing(s, id, p); hide Releasing, Inv;
    case ObserveQuota(o, now) => hide Inv, ObserveWindow;
    case DisableScope => DisableReleasing(s); hide Releasing, Inv;
    case ContinueAsNew(carried) => CompactIsIdentity(s, carried); hide Inv, Compact;
  }

  /** What a turn does: reservations stay, and each grant is backed by a request taken off the queue. */
  ghost predicate Grants(s: QuotaState, t: QuotaState, grants: seq<PermitGrant>) {
    && (forall id :: id in s.reservations ==> id in t.reservations && t.reservations[id] == s.reservations[id])
    && (forall id :: id in t.reservations && id !in s.reservations ==>
          id in s.pending && t.reservations[id].requester == s.pending[id].requester
          && t.reservations[id].storeKey == s.pending[id].storeKey
          && t.reservations[id].generation == s.pending[id].generation)
    && (forall id :: id in t.pending ==> id in s.pending && t.pending[id] == s.pending[id])
    && (forall g :: g in grants ==> g.requestId in s.pending && Backed(t.reservations, g))
    && OneEach(grants)
  }

  lemma GrantsDistinct(s: QuotaState, grants: seq<PermitGrant>)
    requires QueueOk(s) && EntriesOk(s) && GrantsPrefix(s, grants)
    ensures OneEach(grants)
  {
    DistinctIndices(s.pendingOrder);
    hide Distinct;
    forall i, j | 0 <= i < j < |grants| ensures grants[i].requestId != grants[j].requestId {
      assert s.pendingOrder[i] in s.pending && s.pendingOrder[j] in s.pending;
      assert grants[i].requestId == s.pendingOrder[i] && grants[j].requestId == s.pendingOrder[j];
    }
  }

  lemma GrantsBacked(s: QuotaState, t: QuotaState, grants: seq<PermitGrant>, now: int)
    requires ApartOk(s) && QueueOk(t) && EntriesOk(s) && GrantsPrefix(s, grants) && MovesEntries(s, t, now)
    requires QueueOk(s) && t.pendingOrder == s.pendingOrder[|grants|..]
    ensures forall g :: g in grants ==> g.requestId in s.pending && Backed(t.reservations, g)
  {
    forall g | g in grants ensures g.requestId in s.pending && Backed(t.reservations, g) {
      var i :| 0 <= i < |grants| && grants[i] == g;
      var id := s.pendingOrder[i];
      DistinctParts(s.pendingOrder, |grants|);
      assert id in s.pendingOrder[..|grants|];
      hide Distinct;
      assert id !in t.pending;
    }
  }

  lemma MovedIsGranted(s: QuotaState, t: QuotaState, grants: seq<PermitGrant>, now: int)
    requires MovesEntries(s, t, now) && OneEach(grants)
    requires forall g :: g in grants ==> g.requestId in s.pending && Backed(t.reservations, g)
    ensures Grants(s, t, grants)
  {
    hide OneEach, Backed;
  }

  lemma ActiveTurnGranted(s: QuotaState, now: int)
    requires Inv(s) && !IsBlocked(Advance(s, now), now)
    ensures var r := GrantAvailable(s, now); Grants(Advance(s, now), r.state, r.grants)
  {
    var r := GrantAvailable(s, now);
    var a := Advance(s, now);
    GreedyIsLongestPrefix(s, now);
    TurnInv(s, now);
    AdvanceInv(s, now);
    InvParts(a);
    InvParts(r.state);
    hide Inv, Longest, GrantAvailable, Advance, GrantsPrefix, MovesEntries, QueueOk, EntriesOk, ApartOk, Grants,
         IsBlocked;
    GrantsDistinct(a, r.grants);
    GrantsBacked(a, r.state, r.grants, now);
    MovedIsGranted(a, r.state, r.grants, now);
  }

  lemma TurnGranted(s: QuotaState, now: int)
    requires Inv(s)
    ensures var o := Step(s, Turn(now)); Grants(s, o.state, o.grants)
  {
    var a := Advance(s, now);
    if IsBlocked(a, now) {
      BlockedGrantsNothing(s, now);
    } else {
      ActiveTurnGranted(s, now);
    }
    hide Inv, GrantAvailable, IsBlocked, OneEach, AdvanceWindow;
  }
}
