/**
 The shared quota coordinator on values: its durable state, the messages it reads, and one
 function per transition.  The classes in QuotaCoordinator.dfy are proved against these functions.

 Hashed identifiers (permit IDs, window IDs) are free constructors: equal exactly when the hashed
 components are equal.  Times and delays are microseconds on one integer clock.
 */
module QuotaModel {
  import opened Collections

  const MAX_QUOTA_PENDING_REQUESTS: nat := 350
  const UNKNOWN_RESET_PROBE_DELAY: int := 60_000_000

  // Fairness weight takes no part in scope equality, so it is not a component here.
  datatype QuotaScope = QuotaScope(provider: Key, credentialKey: Key, quotaClass: Key)

  datatype PermitStatus = Pending | Granted | Completed | Canceled

  datatype WindowId = NamedWindow(name: Key) | NextWindow(previous: WindowId, boundary: int)

  datatype PermitId = PermitId(requestId: Key, window: WindowId)

  datatype PermitRequest = PermitRequest(
    requestId: Key, requester: Key, storeKey: Key, generation: int, scope: QuotaScope, cost: int)

  datatype PermitReservation = PermitReservation(
    requestId: Key, permitId: PermitId, requester: Key, cost: int, window: WindowId,
    grantedAt: Option<int>, status: PermitStatus, storeKey: Key, generation: int)

  datatype PermitGrant = PermitGrant(
    requestId: Key, permitId: PermitId, scope: QuotaScope, window: WindowId, cost: int)

  datatype DenialReason =
    | EmptyRequestId | CostNotPositive | ScopeMismatch | NoRequester | ScopeDisabled | AtCapacity
    | DisabledWhilePending

  datatype PermitDenied = PermitDenied(
    requestId: Key, scope: QuotaScope, reason: DenialReason, retryable: bool)

  datatype Denial = Denial(requester: Key, denial: PermitDenied)

  datatype QuotaObservation = QuotaObservation(
    scope: QuotaScope, limit: Option<int>, remaining: Option<int>, resetAt: Option<int>,
    retryAfter: Option<int>, exhausted: bool)

  /** The two lists that hold the recent terminal request IDs. */
  datatype TerminalWindow = TerminalWindow(ids: seq<Key>, order: seq<Key>)

  /** Settings fixed when the scope's coordinator is first started. */
  datatype QuotaSettings = QuotaSettings(
    scope: QuotaScope, maxInFlight: int, maxPendingRequests: int, dedupWindowSize: int)

  /** Balance, deadlines and identity of the current quota window. */
  datatype QuotaWindow = QuotaWindow(
    limit: Option<int>, remaining: Option<int>, resetAt: Option<int>, blockedUntil: Option<int>, id: WindowId)

  /** The durable state, with its settings and its window fields grouped. */
  datatype QuotaState = QuotaState(
    settings: QuotaSettings,
    window: QuotaWindow,
    inFlight: int,
    disabled: bool,
    pending: map<Key, PermitRequest>,
    pendingOrder: seq<Key>,
    reservations: map<Key, PermitReservation>,
    terminal: TerminalWindow,
    processedMessages: int)

  // ---- bounded terminal window ----

  function Evict(w: TerminalWindow, overflow: int): TerminalWindow
    requires overflow <= |w.order|
  {
    if overflow <= 0 then w
    else TerminalWindow(RemoveEach(w.ids, w.order[..overflow]), w.order[overflow..])
  }

  function MarkTerminal(w: TerminalWindow, size: int, id: Key): TerminalWindow {
    if size <= 0 then TerminalWindow([], [])
    else if id in w.ids then w
    else Evict(TerminalWindow(w.ids + [id], w.order + [id]), |w.order| + 1 - size)
  }

  function MarkAll(w: TerminalWindow, size: int, ids: seq<Key>): TerminalWindow {
    if ids == [] then w else MarkTerminal(MarkAll(w, size, ids[..|ids| - 1]), size, ids[|ids| - 1])
  }

  // ---- admission ----

  function PendingCap(s: QuotaSettings): int {
    Min(Max(1, s.maxPendingRequests), MAX_QUOTA_PENDING_REQUESTS)
  }

  predicate Known(s: QuotaState, id: Key) {
    id in s.pending || id in s.reservations || id in s.terminal.ids
  }

  function RequestDenial(s: QuotaState, r: PermitRequest): Option<PermitDenied> {
    if Known(s, r.requestId) then None
    else if r.requestId == NO_KEY then Some(PermitDenied(r.requestId, r.scope, EmptyRequestId, false))
    else if r.cost <= 0 then Some(PermitDenied(r.requestId, r.scope, CostNotPositive, false))
    else if r.scope != s.settings.scope then Some(PermitDenied(r.requestId, r.scope, ScopeMismatch, false))
    else if r.requester == NO_KEY then Some(PermitDenied(r.requestId, r.scope, NoRequester, false))
    else if s.disabled then Some(PermitDenied(r.requestId, r.scope, ScopeDisabled, false))
    else if |s.pending| >= PendingCap(s.settings) then Some(PermitDenied(r.requestId, r.scope, AtCapacity, true))
    else None
  }

  predicate Admits(s: QuotaState, r: PermitRequest) {
    !Known(s, r.requestId) && RequestDenial(s, r) == None
  }

  function Counted(s: QuotaState): QuotaState {
    s.(processedMessages := s.processedMessages + 1)
  }

  function Admit(s: QuotaState, r: PermitRequest): QuotaState {
    if Admits(s, r) then
      Counted(s).(pending := s.pending[r.requestId := r], pendingOrder := s.pendingOrder + [r.requestId])
    else Counted(s)
  }

  // ---- cancellation and completion ----

  function Released(inFlight: int, count: nat): int {
    if count == 0 then inFlight else Max(0, inFlight - count)
  }

  function Mark(s: QuotaState, ids: seq<Key>): QuotaState {
    s.(terminal := MarkAll(s.terminal, s.settings.dedupWindowSize, ids))
  }

  function CancelMarks(s: QuotaState, id: Key): seq<Key> {
    if id in s.terminal.ids || (id !in s.pending && id !in s.reservations && id == NO_KEY) then [] else [id]
  }

  function Cancel(s: QuotaState, id: Key): QuotaState {
    var t := Counted(s);
    if id in s.terminal.ids then t
    else if id in s.pending then
      Mark(t.(pending := s.pending - {id}, pendingOrder := Without(s.pendingOrder, {id})), [id])
    else if id in s.reservations then
      Mark(t.(reservations := s.reservations - {id}, inFlight := Max(0, s.inFlight - 1)), [id])
    else if id != NO_KEY then Mark(t, [id])
    else t
  }

  function PendingOf(s: QuotaState, store: Key, generation: int): set<Key> {
    set id | id in s.pending && s.pending[id].storeKey == store && s.pending[id].generation == generation
  }

  function ReservedOf(s: QuotaState, store: Key, generation: int): set<Key> {
    set id | id in s.reservations && s.reservations[id].storeKey == store
             && s.reservations[id].generation == generation
  }

  function GenerationMarks(s: QuotaState, store: Key, generation: int): seq<Key> {
    SortedKeys(PendingOf(s, store, generation) + ReservedOf(s, store, generation))
  }

  function CancelGeneration(s: QuotaState, store: Key, generation: int): QuotaState {
    var gone := PendingOf(s, store, generation) + ReservedOf(s, store, generation);
    if gone == {} then Counted(s)
    else
      Mark(Counted(s).(pending := s.pending - gone,
                       reservations := s.reservations - gone,
                       inFlight := Released(s.inFlight, |s.reservations.Keys * gone|),
                       pendingOrder := Without(s.pendingOrder, gone)),
           GenerationMarks(s, store, generation))
  }

  predicate Completes(s: QuotaState, id: Key, permit: PermitId) {
    id !in s.terminal.ids && id in s.reservations && s.reservations[id].permitId == permit
  }

  function Complete(s: QuotaState, id: Key, permit: PermitId): QuotaState {
    if Completes(s, id, permit) then
      Mark(Counted(s).(reservations := s.reservations - {id}, inFlight := Max(0, s.inFlight - 1)), [id])
    else Counted(s)
  }

  // ---- observations, disabling, windows ----

  function Later(a: Option<int>, b: Option<int>): Option<int> {
    match (a, b)
    case (None, _) => b
    case (_, None) => a
    case (Some(x), Some(y)) => if x >= y then a else b
  }

  function RetryAt(o: QuotaObservation, now: int): Option<int> {
    if o.retryAfter.Some? then Some(now + Max(0, o.retryAfter.value))
    else if o.resetAt.None? then Some(now + UNKNOWN_RESET_PROBE_DELAY)
    else None
  }

  function ObserveWindow(w: QuotaWindow, o: QuotaObservation, now: int): QuotaWindow {
    w.(limit := if o.limit.Some? then Some(Max(0, o.limit.value)) else w.limit,
       remaining :=
         if o.exhausted then Some(0)
         else if o.remaining.None? then w.remaining
         else if w.remaining.None? then Some(Max(0, o.remaining.value))
         else Some(Min(w.remaining.value, Max(0, o.remaining.value))),
       resetAt := if o.resetAt.Some? then Later(w.resetAt, o.resetAt) else w.resetAt,
       blockedUntil :=
         if o.exhausted then Later(w.blockedUntil, Later(o.resetAt, RetryAt(o, now))) else w.blockedUntil)
  }

  function Observe(s: QuotaState, o: QuotaObservation, now: int): QuotaState {
    if o.scope != s.settings.scope then Counted(s)
    else Counted(s).(window := ObserveWindow(s.window, o, now))
  }

  /** The queued requests in queue order, as the disable handler collects them. */
  function QueuedRequests(s: QuotaState): (r: seq<PermitRequest>)
    ensures |r| == |Keep(s.pendingOrder, s.pending.Keys)|
  {
    var queued := Keep(s.pendingOrder, s.pending.Keys);
    KeepElements(s.pendingOrder, s.pending.Keys);
    assert forall i :: 0 <= i < |queued| ==> queued[i] in queued;
    seq(|queued|, i requires 0 <= i < |queued| => s.pending[queued[i]])
  }

  function RequestIds(rs: seq<PermitRequest>): seq<Key> {
    seq(|rs|, i requires 0 <= i < |rs| => rs[i].requestId)
  }

  function DisableMarks(s: QuotaState): seq<Key> {
    if s.disabled then [] else RequestIds(QueuedRequests(s))
  }

  function Disable(s: QuotaState): QuotaState {
    if s.disabled then Counted(s)
    else Mark(Counted(s).(disabled := true, pending := map[], pendingOrder := []), DisableMarks(s))
  }

  function DisableDenials(s: QuotaState): seq<Denial> {
    if s.disabled then []
    else
      var rs := QueuedRequests(s);
      seq(|rs|, i requires 0 <= i < |rs| =>
        Denial(rs[i].requester, PermitDenied(rs[i].requestId, rs[i].scope, DisabledWhilePending, false)))
  }

  predicate Due(deadline: Option<int>, now: int) {
    deadline.Some? && deadline.value <= now
  }

  /** Carried state: an exhaustion block never ends before a known, later reset. */
  predicate BlockHeldByReset(w: QuotaWindow, now: int) {
    Due(w.blockedUntil, now) && w.resetAt.Some? && !Due(w.resetAt, now)
  }

  predicate WindowDue(w: QuotaWindow, now: int) {
    Due(w.resetAt, now) || (Due(w.blockedUntil, now) && !BlockHeldByReset(w, now))
  }

  function AdvanceWindow(w: QuotaWindow, now: int): QuotaWindow {
    if BlockHeldByReset(w, now) then w.(blockedUntil := w.resetAt)
    else if !WindowDue(w, now) then w
    else
      var blockDue := Due(w.blockedUntil, now);
      var resetDue := Due(w.resetAt, now);
      var boundary := Later(if blockDue then w.blockedUntil else None, if resetDue then w.resetAt else None);
      QuotaWindow(
        w.limit,
        w.limit,
        if resetDue then None else w.resetAt,
        if blockDue then None else w.blockedUntil,
        NextWindow(w.id, boundary.value))
  }

  function Advance(s: QuotaState, now: int): QuotaState {
    s.(window := AdvanceWindow(s.window, now))
  }

  predicate IsBlocked(s: QuotaState, now: int) {
    s.disabled || (s.window.blockedUntil.Some? && !Due(s.window.blockedUntil, now))
  }

  // ---- grants ----

  function ReservationFor(s: QuotaState, r: PermitRequest, now: int): PermitReservation {
    PermitReservation(r.requestId, PermitId(r.requestId, s.window.id), r.requester, r.cost, s.window.id,
                      Some(now), Granted, r.storeKey, r.generation)
  }

  function GrantFor(s: QuotaState, r: PermitRequest): PermitGrant {
    PermitGrant(r.requestId, PermitId(r.requestId, s.window.id), s.settings.scope, s.window.id, r.cost)
  }

  predicate Affordable(balance: Option<int>, cost: int) {
    balance.Some? ==> balance.value >= cost
  }

  function Debit(balance: Option<int>, cost: int): Option<int> {
    if balance.Some? then Some(balance.value - cost) else None
  }

  /** Moves the head of the queue, known to be pending, into the reservations. */
  function GrantHead(s: QuotaState, now: int): QuotaState
    requires s.pendingOrder != [] && s.pendingOrder[0] in s.pending
  {
    var id := s.pendingOrder[0];
    var r := s.pending[id].(requestId := id);
    s.(pendingOrder := s.pendingOrder[1..],
       pending := s.pending - {id},
       reservations := s.reservations[id := ReservationFor(s, r, now)],
       inFlight := s.inFlight + 1,
       window := s.window.(remaining := Debit(s.window.remaining, r.cost)))
  }

  datatype Granting = Granting(state: QuotaState, grants: seq<PermitGrant>)

  function GrantLoop(s: QuotaState, now: int): Granting
    decreases |s.pendingOrder|
  {
    if s.pendingOrder == [] || s.inFlight >= s.settings.maxInFlight then Granting(s, [])
    else
      var id := s.pendingOrder[0];
      if id !in s.pending then GrantLoop(s.(pendingOrder := s.pendingOrder[1..]), now)
      else if !Affordable(s.window.remaining, s.pending[id].cost) then Granting(s, [])
      else
        var rest := GrantLoop(GrantHead(s, now), now);
        Granting(rest.state, [GrantFor(s, s.pending[id].(requestId := id))] + rest.grants)
  }

  function GrantAvailable(s: QuotaState, now: int): Granting {
    var t := Advance(s, now);
    if IsBlocked(t, now) || t.settings.maxInFlight <= 0 then Granting(t, []) else GrantLoop(t, now)
  }

  function MinDeadline(a: Option<int>, b: Option<int>): Option<int> {
    match (a, b)
    case (None, _) => b
    case (_, None) => a
    case (Some(x), Some(y)) => if y < x then b else a
  }

  function NextTimerDelay(s: QuotaState, now: int): Option<int> {
    var deadline := MinDeadline(s.window.blockedUntil, s.window.resetAt);
    if deadline.None? then None else Some(Max(deadline.value - now, 0))
  }

  // ---- compaction ----

  predicate Stale(s: QuotaState, id: Key) {
    id in s.reservations && s.reservations[id].status != Granted
  }

  function StaleIds(s: QuotaState): set<Key> {
    set id | id in s.reservations && Stale(s, id)
  }

  function CompactOrder(order: seq<Key>, ids: set<Key>): seq<Key> {
    FirstOccurrences(order, ids) + SortedKeys(ids - Elements(order))
  }

  function CompactTerminal(w: TerminalWindow, size: int): TerminalWindow {
    var order := CompactOrder(w.order, Elements(w.ids));
    Evict(TerminalWindow(w.ids, order), |order| - Max(0, size))
  }

  /** `carried` is the iteration order of the reservations dictionary. */
  function Compact(s: QuotaState, carried: seq<Key>): QuotaState {
    var active := s.reservations - StaleIds(s);
    s.(reservations := active,
       inFlight := |active|,
       pendingOrder := CompactOrder(s.pendingOrder, s.pending.Keys),
       terminal := CompactTerminal(
         MarkAll(s.terminal, s.settings.dedupWindowSize, Keep(carried, StaleIds(s))), s.settings.dedupWindowSize))
  }

  /** The state handed to the next run at a Continue-As-New boundary. */
  function Continued(s: QuotaState, carried: seq<Key>): QuotaState {
    Compact(s, carried).(processedMessages := 0)
  }

  // ---- one coordinator step ----

  datatype Event =
    | RequestPermit(request: PermitRequest)
    | CancelPermit(requestId: Key)            // also the reaction to a failed grant delivery
    | CancelGenerationPermits(storeKey: Key, generation: int)
    | PermitCompleted(requestId: Key, permitId: PermitId)
    | ObserveQuota(observation: QuotaObservation, now: int)
    | DisableScope
    | Turn(now: int)                             // one pass of the run loop up to grant delivery
    | ContinueAsNew(carried: seq<Key>)        // compaction, then a fresh run on the carried state

  datatype Outcome = Outcome(state: QuotaState, grants: seq<PermitGrant>, denials: seq<Denial>, marks: seq<Key>)

  function RequestDenials(s: QuotaState, r: PermitRequest): seq<Denial> {
    var d := RequestDenial(s, r);
    if d.Some? && r.requester != NO_KEY then [Denial(r.requester, d.value)] else []
  }

  function Step(s: QuotaState, e: Event): Outcome {
    match e
    case RequestPermit(r) => Outcome(Admit(s, r), [], RequestDenials(s, r), [])
    case CancelPermit(id) => Outcome(Cancel(s, id), [], [], CancelMarks(s, id))
    case CancelGenerationPermits(store, g) =>
      Outcome(CancelGeneration(s, store, g), [], [], GenerationMarks(s, store, g))
    case PermitCompleted(id, p) =>
      Outcome(Complete(s, id, p), [], [], if Completes(s, id, p) then [id] else [])
    case ObserveQuota(o, now) => Outcome(Observe(s, o, now), [], [], [])
    case DisableScope => Outcome(Disable(s), [], DisableDenials(s), DisableMarks(s))
    case Turn(now) =>
      var g := GrantAvailable(s, now);
      Outcome(g.state, g.grants, [], [])
    case ContinueAsNew(carried) =>
      Outcome(Continued(s, carried), [], [], Keep(carried, StaleIds(s)))
  }
}
