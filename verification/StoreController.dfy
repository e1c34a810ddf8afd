/** The command-serialised store controller: one envelope of its queue is handled at a time. */
module StoreController {
  import opened Collections
  import opened StoreRepository
  import opened StoreDeactivation

  datatype OperationKind = SyncOperation | DeactivationOperation

  datatype CommandStatus = AcceptedStatus | RejectedStatus | CompletedStatus | FailedStatus

  datatype CommandResult = CommandResult(
    commandId: Key, operation: OpId, kind: OperationKind, status: CommandStatus, generation: int)

  datatype Controller = Controller(
    lifecycle: LifecycleState, generation: int, syncs: set<OpId>, remediations: set<OpId>,
    deactivation: Option<OpId>, fenced: bool, recent: seq<CommandResult>, windowSize: int, initialized: bool)

  datatype Envelope =
    | RequestSync(commandId: Key, expected: int, sequence: Key)
    | CancelSync(commandId: Key, operation: OpId)
    | StartDeactivation(commandId: Key, expected: int)
    | OperationStatus(operation: OpId, generation: int, terminal: bool, succeeded: bool)
    | RemediationStarted(operation: OpId)
    | RemediationFinished(operation: OpId, generation: int, terminal: bool, succeeded: bool)
    | DeactivationFenced(operation: OpId, generation: int)

  datatype Refusal =
    | StaleLifecycleGeneration | StoreNotSyncable | SyncAlreadyRunning | RemediationAlreadyRunning
    | ExternalCallFailed

  datatype Response =
    | NoResponse
    | Accepted(result: CommandResult, duplicate: bool)
    | Refused(reason: Refusal)

  datatype Effect =
    | StartSyncChild(operation: OpId)
    | StartDeactivationChild(operation: OpId, input: RunInput)
    | RequestCancel(operation: OpId)
    | ForwardDrained(target: OpId, operation: OpId)

  datatype Handled = Handled(controller: Controller, response: Response, effects: seq<Effect>)

  predicate Fenced(s: LifecycleState) {
    s == Deactivating || s == Inactive || s == DeactivationFailed
  }

  // ---- the bounded window of command results ----

  function Find(recent: seq<CommandResult>, id: Key): Option<CommandResult> {
    if recent == [] then None
    else if recent[|recent| - 1].commandId == id then Some(recent[|recent| - 1])
    else Find(recent[..|recent| - 1], id)
  }

  function Replace(recent: seq<CommandResult>, r: CommandResult): (t: seq<CommandResult>)
    ensures |t| == |recent|
  {
    seq(|recent|, i requires 0 <= i < |recent| => if recent[i].commandId == r.commandId then r else recent[i])
  }

  /** Assigning a known key of the dictionary keeps its place; a new key goes last, and the oldest leave. */
  function Remember(c: Controller, r: CommandResult): Controller {
    var recorded := if Find(c.recent, r.commandId).Some? then Replace(c.recent, r) else c.recent + [r];
    c.(recent := Newest(recorded, Max(1, c.windowSize)))
  }

  // ---- commands ----

  function HandleRequestSync(c: Controller, id: Key, expected: int, sequence: Key, ok: bool): Handled {
    var known := Find(c.recent, id);
    if known.Some? then Handled(c, Accepted(known.value, true), [])
    else if expected != c.generation then Handled(c, Refused(StaleLifecycleGeneration), [])
    else if c.deactivation.Some? || Fenced(c.lifecycle) then Handled(c, Refused(StoreNotSyncable), [])
    else if c.syncs != {} then Handled(c, Refused(SyncAlreadyRunning), [])
    else if c.remediations != {} then Handled(c, Refused(RemediationAlreadyRunning), [])
    else if !ok then Handled(c, Refused(ExternalCallFailed), [])
    else
      var op := SyncId(expected, sequence);
      var r := CommandResult(id, op, SyncOperation, AcceptedStatus, expected);
      Handled(Remember(c.(syncs := c.syncs + {op}, lifecycle := Syncing), r), Accepted(r, false), [StartSyncChild(op)])
  }

  function HandleCancelSync(c: Controller, id: Key, op: OpId, ok: bool): Handled {
    var known := Find(c.recent, id);
    if known.Some? then Handled(c, Accepted(known.value, true), [])
    else if op in c.syncs && !ok then Handled(c, Refused(ExternalCallFailed), [RequestCancel(op)])
    else
      var r := CommandResult(id, op, SyncOperation, if op in c.syncs then AcceptedStatus else RejectedStatus,
                             c.generation);
      Handled(Remember(c, r), Accepted(r, false), if op in c.syncs then [RequestCancel(op)] else [])
  }

  /** Answers a command whose deactivation is already under way or over. */
  function AlreadyDeactivating(c: Controller, expected: int): Option<(OpId, CommandStatus, int)> {
    if c.deactivation.Some? then
      Some((c.deactivation.value, AcceptedStatus, if c.fenced then c.generation else c.generation + 1))
    else if c.lifecycle == Inactive && (expected == c.generation || expected + 1 == c.generation) then
      Some((DeactivationId(c.generation), CompletedStatus, c.generation))
    else if c.lifecycle == DeactivationFailed && expected + 1 == c.generation then
      Some((DeactivationId(c.generation), FailedStatus, c.generation))
    else None
  }

  predicate Resumes(c: Controller) {
    c.lifecycle == Deactivating || c.lifecycle == DeactivationFailed
  }

  function DeactivationInput(c: Controller, expected: int): RunInput {
    RunInput(expected, Resumes(c), c.syncs + c.remediations)
  }

  function HandleStartDeactivation(c: Controller, id: Key, expected: int, ok: bool): Handled {
    var known := Find(c.recent, id);
    var already := AlreadyDeactivating(c, expected);
    if known.Some? then Handled(c, Accepted(known.value, true), [])
    else if already.Some? then
      var r := CommandResult(id, already.value.0, DeactivationOperation, already.value.1, already.value.2);
      Handled(Remember(c, r), Accepted(r, true), [])
    else if expected != c.generation then Handled(c, Refused(StaleLifecycleGeneration), [])
    else if !ok then Handled(c, Refused(ExternalCallFailed), [])
    else
      var input := DeactivationInput(c, expected);
      var op := DeactivationId(FencedGeneration(input));
      var r := CommandResult(id, op, DeactivationOperation, AcceptedStatus, FencedGeneration(input));
      Handled(Remember(c.(deactivation := Some(op), fenced := Resumes(c), lifecycle := Deactivating), r),
              Accepted(r, false), [StartDeactivationChild(op, input)])
  }

  // ---- signals ----

  function DrainTo(c: Controller, op: OpId): seq<Effect> {
    if c.deactivation.Some? then [ForwardDrained(c.deactivation.value, op)] else []
  }

  function Released(c: Controller, op: OpId): Controller {
    c.(syncs := c.syncs - {op}, remediations := c.remediations - {op})
  }

  function EndDeactivation(c: Controller, generation: int, succeeded: bool): Controller {
    var d := c.(deactivation := None, fenced := false);
    if c.fenced || generation > c.generation then
      d.(generation := Max(c.generation, generation), lifecycle := if succeeded then Inactive else DeactivationFailed)
    else
      d.(lifecycle := if c.syncs != {} || c.remediations != {} then Syncing else Active)
  }

  function HandleOperationStatus(c: Controller, op: OpId, generation: int, terminal: bool, succeeded: bool): Handled {
    var d := if terminal then Released(c, op) else c;
    var effects := (if terminal && op in c.syncs then DrainTo(c, op) else [])
                   + (if terminal && op in c.remediations then DrainTo(c, op) else []);
    Handled(
      if terminal && d.deactivation == Some(op) then EndDeactivation(d, generation, succeeded)
      else if d.syncs == {} && d.remediations == {} && d.lifecycle == Syncing then d.(lifecycle := Active)
      else d,
      NoResponse, effects)
  }

  function HandleRemediationStarted(c: Controller, op: OpId): Handled {
    if op in c.remediations then Handled(c, NoResponse, [])
    else
      Handled(c.(remediations := c.remediations + {op},
                 lifecycle := if c.lifecycle == Active then Syncing else c.lifecycle),
              NoResponse, if Fenced(c.lifecycle) then [RequestCancel(op)] else [])
  }

  function HandleDeactivationFenced(c: Controller, op: OpId, generation: int): Handled {
    if c.deactivation != Some(op) || generation < c.generation then Handled(c, NoResponse, [])
    else Handled(c.(generation := generation, lifecycle := Deactivating, fenced := true), NoResponse, [])
  }

  /** `ok` tells whether the child start or the cancel request of the command went through. */
  function Handle(c: Controller, e: Envelope, ok: bool): Handled {
    match e
    case RequestSync(id, expected, sequence) => HandleRequestSync(c, id, expected, sequence, ok)
    case CancelSync(id, op) => HandleCancelSync(c, id, op, ok)
    case StartDeactivation(id, expected) => HandleStartDeactivation(c, id, expected, ok)
    case OperationStatus(op, g, terminal, succeeded) => HandleOperationStatus(c, op, g, terminal, succeeded)
    case RemediationStarted(op) => HandleRemediationStarted(c, op)
    case RemediationFinished(op, g, terminal, succeeded) =>
      if terminal then HandleOperationStatus(c, op, g, true, succeeded) else Handled(c, NoResponse, [])
    case DeactivationFenced(op, g) => HandleDeactivationFenced(c, op, g)
  }

  /** The repository's answer at the start of a run replaces generation and lifecycle state. */
  function Initialize(c: Controller, state: LifecycleState, generation: int): Controller {
    if c.initialized then c
    else
      c.(generation := generation,
         lifecycle := if state == Active && (c.syncs != {} || c.remediations != {}) then Syncing else state,
         initialized := true)
  }

  function CarriedOver(c: Controller): Controller {
    c.(initialized := false)
  }

  // ---- what every envelope keeps ----

  ghost predicate IdsOk(c: Controller) {
    && (forall op :: op in c.syncs ==> op.SyncId?)
    && (forall op :: op in c.remediations ==> op.RemediationId?)
    && (c.deactivation.Some? ==> c.deactivation.value.DeactivationId?)
  }

  /** Outside the fenced states, SYNCING says that an operation is registered and ACTIVE that none is. */
  ghost predicate StatusOk(c: Controller) {
    !Fenced(c.lifecycle) ==> (c.lifecycle == Syncing <==> c.syncs != {} || c.remediations != {})
  }

  ghost predicate ControllerOk(c: Controller) {
    IdsOk(c) && StatusOk(c) && |c.syncs| <= 1
  }

  /** Signals about remediations carry remediation IDs. */
  predicate WellAddressed(e: Envelope) {
    (e.RemediationStarted? || e.RemediationFinished?) ==> e.operation.RemediationId?
  }

  lemma CommandKeepsOk(c: Controller, e: Envelope, ok: bool)
    requires ControllerOk(c) && (e.RequestSync? || e.CancelSync? || e.StartDeactivation?)
    ensures ControllerOk(Handle(c, e, ok).controller)
  {
    hide Find, Replace, Newest, Max, AlreadyDeactivating;
  }

  lemma RemediationKeepsOk(c: Controller, op: OpId)
    requires ControllerOk(c) && op.RemediationId?
    ensures ControllerOk(HandleRemediationStarted(c, op).controller)
  {
  }

  lemma FenceKeepsOk(c: Controller, op: OpId, generation: int)
    requires ControllerOk(c)
    ensures ControllerOk(HandleDeactivationFenced(c, op, generation).controller)
  {
  }

  lemma HandleOk(c: Controller, e: Envelope, ok: bool)
    requires ControllerOk(c) && WellAddressed(e)
    ensures ControllerOk(Handle(c, e, ok).controller)
  {
    hide ControllerOk, HandleRequestSync, HandleCancelSync, HandleStartDeactivation, HandleOperationStatus,
         HandleRemediationStarted, HandleDeactivationFenced;
    match e
    case OperationStatus(op, g, terminal, succeeded) => StatusKeepsOk(c, op, g, terminal, succeeded);
    case RemediationStarted(op) => RemediationKeepsOk(c, op);
    case RemediationFinished(op, g, terminal, succeeded) => StatusKeepsOk(c, op, g, true, succeeded);
    case DeactivationFenced(op, g) => FenceKeepsOk(c, op, g);
    case _ => CommandKeepsOk(c, e, ok);
  }

  lemma StatusKeepsIds(c: Controller, op: OpId, generation: int, terminal: bool, succeeded: bool)
    requires IdsOk(c)
    ensures IdsOk(HandleOperationStatus(c, op, generation, terminal, succeeded).controller)
  {
    hide StatusOk, Max;
  }

  lemma StatusKeepsSyncs(c: Controller, op: OpId, generation: int, terminal: bool, succeeded: bool)
    requires |c.syncs| <= 1
    ensures |HandleOperationStatus(c, op, generation, terminal, succeeded).controller.syncs| <= 1
  {
    SubsetSize(c.syncs - {op}, c.syncs);
    hide Max;
  }

  lemma StatusShowsRegistry(c: Controller, op: OpId, generation: int, terminal: bool, succeeded: bool)
    requires StatusOk(c)
    ensures StatusOk(HandleOperationStatus(c, op, generation, terminal, succeeded).controller)
  {
    hide Max, DrainTo;
  }

  lemma StatusKeepsOk(c: Controller, op: OpId, generation: int, terminal: bool, succeeded: bool)
    requires ControllerOk(c)
    ensures ControllerOk(HandleOperationStatus(c, op, generation, terminal, succeeded).controller)
  {
    hide IdsOk, StatusOk, HandleOperationStatus;
    StatusKeepsIds(c, op, generation, terminal, succeeded);
    StatusKeepsSyncs(c, op, generation, terminal, succeeded);
    StatusShowsRegistry(c, op, generation, terminal, succeeded);
  }

  lemma InitializeOk(c: Controller, state: LifecycleState, generation: int)
    requires IdsOk(c) && |c.syncs| <= 1 && (c.initialized ==> StatusOk(c)) && state != Syncing
    ensures ControllerOk(Initialize(c, state, generation))
  {
  }

  /** No envelope moves the generation back. */
  lemma GenerationGrows(c: Controller, e: Envelope, ok: bool)
    ensures Handle(c, e, ok).controller.generation >= c.generation
  {
    hide Find, Replace, Newest;
  }

  /** A sync starts only on an ACTIVE store with nothing registered and no deactivation under way. */
  lemma SyncStartsOnIdleStore(c: Controller, e: Envelope, ok: bool, op: OpId)
    requires ControllerOk(c) && StartSyncChild(op) in Handle(c, e, ok).effects
    ensures c.lifecycle == Active && c.syncs == {} && c.remediations == {} && c.deactivation.None?
    ensures Handle(c, e, ok).controller.syncs == {op} && op.generation == c.generation
  {
    hide Find, Replace, Newest, Max;
  }

  /** The store is fenced, and so will be whatever the active deactivation reports. */
  predicate Absorbed(c: Controller) {
    Fenced(c.lifecycle) && (c.deactivation.None? || c.fenced)
  }

  lemma AbsorbedStays(c: Controller, e: Envelope, ok: bool)
    requires Absorbed(c)
    ensures Absorbed(Handle(c, e, ok).controller)
  {
    hide Find, Replace, Newest, Max;
  }

  lemma FenceIsAbsorbed(c: Controller, op: OpId, generation: int)
    requires c.deactivation == Some(op) && generation >= c.generation
    ensures Absorbed(Handle(c, DeactivationFenced(op, generation), true).controller)
  {
  }

  /**
   A fenced controller can be returned to ACTIVE or SYNCING by some envelope exactly when it has an
   active deactivation whose fence it has not processed.
   */
  lemma AbsorbedExactly(c: Controller)
    requires Fenced(c.lifecycle)
    ensures (forall e, ok :: Fenced(Handle(c, e, ok).controller.lifecycle)) <==> Absorbed(c)
  {
    if Absorbed(c) {
      forall e, ok ensures Fenced(Handle(c, e, ok).controller.lifecycle) {
        AbsorbedStays(c, e, ok);
        hide Handle;
      }
    } else {
      var failed := OperationStatus(c.deactivation.value, c.generation, true, false);
      assert !Fenced(Handle(c, failed, true).controller.lifecycle);
    }
  }

  /**
   The documented gap: Continue-As-New before the fence Signal is processed, a repository found
   fenced, and then the failure of that fenced deactivation put the controller back to ACTIVE.
   */
  lemma ContinueAsNewGap(c: Controller)
    requires c.initialized && c.lifecycle == Deactivating && c.deactivation.Some? && !c.fenced
    requires c.deactivation.value.DeactivationId? && c.syncs == {} && c.remediations == {}
    ensures var d := Initialize(CarriedOver(c), Deactivating, c.generation + 1);
            var failed := OperationStatus(c.deactivation.value, c.generation + 1, true, false);
            && Handle(d, failed, true).controller.lifecycle == Active
            && Handle(c, failed, true).controller.lifecycle == DeactivationFailed
  {
  }

  // ---- repeated commands ----

  predicate IsCommand(e: Envelope) {
    e.RequestSync? || e.CancelSync? || e.StartDeactivation?
  }

  /** Command IDs in the window are different, and the window is no longer than its size. */
  ghost predicate WindowOk(c: Controller) {
    && |c.recent| <= Max(1, c.windowSize)
    && forall i, j :: 0 <= i < j < |c.recent| ==> c.recent[i].commandId != c.recent[j].commandId
  }

  lemma {:induction false} FindsNone(recent: seq<CommandResult>, id: Key)
    ensures Find(recent, id).None? <==> forall i :: 0 <= i < |recent| ==> recent[i].commandId != id
  {
    if recent != [] {
      FindsNone(recent[..|recent| - 1], id);
    }
  }

  /** A remembered command repeats its answer as a duplicate and changes and starts nothing. */
  lemma RememberedCommandIsIdempotent(c: Controller, e: Envelope, ok: bool)
    requires IsCommand(e) && Find(c.recent, e.commandId).Some?
    ensures Handle(c, e, ok) == Handled(c, Accepted(Find(c.recent, e.commandId).value, true), [])
  {
  }

  lemma RememberFresh(c: Controller, r: CommandResult)
    requires WindowOk(c) && Find(c.recent, r.commandId).None?
    ensures WindowOk(Remember(c, r)) && Remember(c, r).recent == Newest(c.recent + [r], Max(1, c.windowSize))
  {
    FindsNone(c.recent, r.commandId);
  }

  /** A result under a known command ID takes the place of the old one, and nothing leaves the window. */
  lemma RememberReplaces(c: Controller, r: CommandResult, i: nat)
    requires WindowOk(c) && i < |c.recent| && c.recent[i].commandId == r.commandId
    ensures Remember(c, r) == c.(recent := c.recent[i := r])
  {
    FindsNone(c.recent, r.commandId);
    assert Replace(c.recent, r) == c.recent[i := r];
  }

  /** The result an envelope adds to the window: that of a command answered for the first time. */
  function NewResult(c: Controller, e: Envelope, ok: bool): seq<CommandResult> {
    var h := Handle(c, e, ok);
    if IsCommand(e) && Find(c.recent, e.commandId).None? && h.response.Accepted? then [h.response.result] else []
  }

  lemma RecentAfter(c: Controller, e: Envelope, ok: bool)
    ensures var d := Handle(c, e, ok).controller; var added := NewResult(c, e, ok);
            && d.windowSize == c.windowSize
            && (added == [] ==> d.recent == c.recent)
            && (added != [] ==> added == [added[0]] && Find(c.recent, added[0].commandId).None?
                                && d.recent == Remember(c, added[0]).recent)
  {
    hide Find, Replace, Newest, Max, AlreadyDeactivating;
  }

  lemma SameWindow(c: Controller, d: Controller)
    requires WindowOk(c) && d.recent == c.recent && d.windowSize == c.windowSize
    ensures WindowOk(d) && d.recent == Newest(c.recent + [], Max(1, c.windowSize))
  {
    assert c.recent + [] == c.recent;
  }

  lemma SameWindowAs(c: Controller, d: Controller)
    requires WindowOk(c) && d.recent == c.recent && d.windowSize == c.windowSize
    ensures WindowOk(d)
  {
  }

  lemma HandleRemembers(c: Controller, e: Envelope, ok: bool)
    requires WindowOk(c)
    ensures var d := Handle(c, e, ok).controller;
            WindowOk(d) && d.windowSize == c.windowSize
            && d.recent == Newest(c.recent + NewResult(c, e, ok), Max(1, c.windowSize))
  {
    hide *;
    RecentAfter(c, e, ok);
    var d, added := Handle(c, e, ok).controller, NewResult(c, e, ok);
    if added == [] {
      SameWindow(c, d);
    } else {
      RememberFresh(c, added[0]);
      SameSize(c, added[0]);
      SameWindowAs(Remember(c, added[0]), d);
    }
  }

  lemma SameSize(c: Controller, r: CommandResult)
    ensures Remember(c, r).windowSize == c.windowSize
  {
  }

  /** An envelope with the outcome of its external call. */
  datatype Delivery = Delivery(envelope: Envelope, ok: bool)

  function HandleAll(c: Controller, ds: seq<Delivery>): Controller {
    if ds == [] then c
    else Handle(HandleAll(c, ds[..|ds| - 1]), ds[|ds| - 1].envelope, ds[|ds| - 1].ok).controller
  }

  function NewResults(c: Controller, ds: seq<Delivery>): seq<CommandResult> {
    if ds == [] then []
    else
      var d := ds[|ds| - 1];
      NewResults(c, ds[..|ds| - 1]) + NewResult(HandleAll(c, ds[..|ds| - 1]), d.envelope, d.ok)
  }

  /** Over any queue of envelopes the window holds exactly the newest results, as many as its size. */
  lemma {:induction false} WindowHoldsNewest(c: Controller, ds: seq<Delivery>)
    requires c.recent == []
    ensures var d := HandleAll(c, ds);
            WindowOk(d) && d.windowSize == c.windowSize
            && d.recent == Newest(NewResults(c, ds), Max(1, c.windowSize))
  {
    if ds != [] {
      var n := |ds| - 1;
      hide WindowOk, Find, Newest, Max, Handle, NewResult;
      WindowHoldsNewest(c, ds[..n]);
      HandleRemembers(HandleAll(c, ds[..n]), ds[n].envelope, ds[n].ok);
      NewestConcatenation(NewResults(c, ds[..n]), NewResult(HandleAll(c, ds[..n]), ds[n].envelope, ds[n].ok),
                   Max(1, c.windowSize));
    }
  }

  // ---- repeating a command ----

  lemma {:induction false} FindsTheOne(recent: seq<CommandResult>, i: nat)
    requires i < |recent|
    requires forall j, k :: 0 <= j < k < |recent| ==> recent[j].commandId != recent[k].commandId
    ensures Find(recent, recent[i].commandId) == Some(recent[i])
  {
    if i < |recent| - 1 {
      FindsTheOne(recent[..|recent| - 1], i);
    }
  }

  lemma {:induction false} HandleAllJoins(c: Controller, ds: seq<Delivery>, more: seq<Delivery>)
    ensures HandleAll(c, ds + more) == HandleAll(HandleAll(c, ds), more)
    ensures NewResults(c, ds + more) == NewResults(c, ds) + NewResults(HandleAll(c, ds), more)
  {
    hide Handle, NewResult;
    if more == [] {
      assert ds + more == ds;
    } else {
      var n := |more| - 1;
      assert (ds + more)[..|ds + more| - 1] == ds + more[..n];
      HandleAllJoins(c, ds, more[..n]);
    }
  }

  /** A result stays in the window while fewer than `size` newer ones were remembered. */
  lemma StaysNewest(older: seq<CommandResult>, r: CommandResult, newer: seq<CommandResult>, size: nat)
    returns (i: nat)
    requires |newer| < size
    ensures i < |Newest(older + [r] + newer, size)| && Newest(older + [r] + newer, size)[i] == r
  {
    var all := older + [r] + newer;
    assert all[|older|] == r;
    i := |older| - (|all| - |Newest(all, size)|);
  }

  lemma FoundAgain(c: Controller, older: seq<CommandResult>, r: CommandResult, newer: seq<CommandResult>)
    requires WindowOk(c) && |newer| < Max(1, c.windowSize)
    requires c.recent == Newest(older + [r] + newer, Max(1, c.windowSize))
    ensures Find(c.recent, r.commandId) == Some(r)
  {
    var i := StaysNewest(older, r, newer, Max(1, c.windowSize));
    hide Newest, Max;
    FindsTheOne(c.recent, i);
  }

  lemma OneDelivery(c: Controller, d: Delivery)
    ensures NewResults(c, [d]) == NewResult(c, d.envelope, d.ok)
    ensures HandleAll(c, [d]) == Handle(c, d.envelope, d.ok).controller
  {
    assert [d][..0] == [];
    hide Handle, NewResult;
  }

  /**
   Over any queue: a command that was answered, sent again under the same ID before a full window of
   other results was remembered, gets the same answer as a duplicate, changes nothing and starts nothing,
   whatever the command now says and whatever happened in between.
   */
  lemma RepeatedCommandGetsFirstAnswer(
    c: Controller, before: seq<Delivery>, d: Delivery, after: seq<Delivery>, e: Envelope, ok: bool)
    requires c.recent == [] && IsCommand(e)
    requires var first := HandleAll(c, before);
             && |NewResult(first, d.envelope, d.ok)| == 1
             && NewResult(first, d.envelope, d.ok)[0].commandId == e.commandId
             && |NewResults(HandleAll(first, [d]), after)| < Max(1, c.windowSize)
    ensures var r := NewResult(HandleAll(c, before), d.envelope, d.ok)[0];
            var z := HandleAll(c, before + [d] + after);
            Handle(z, e, ok) == Handled(z, Accepted(r, true), [])
  {
    hide *;
    var first := HandleAll(c, before);
    var z := HandleAll(c, before + [d] + after);
    var r := NewResult(first, d.envelope, d.ok)[0];
    HandleAllJoins(c, before, [d]);
    HandleAllJoins(c, before + [d], after);
    OneDelivery(first, d);
    assert NewResult(first, d.envelope, d.ok) == [r];
    WindowHoldsNewest(c, before + [d] + after);
    FoundAgain(z, NewResults(c, before), r, NewResults(HandleAll(c, before + [d]), after));
    RememberedCommandIsIdempotent(z, e, ok);
  }

  // ---- the workflow object ----

  class StoreControllerWorkflow {
    var lifecycle: LifecycleState
    var generation: int
    var activeSyncs: set<OpId>
    var activeRemediations: set<OpId>
    var activeDeactivation: Option<OpId>
    var activeDeactivationFenced: bool
    var recentCommandResults: seq<CommandResult>
    const commandWindowSize: int
    var authorityInitialized: bool

    function View(): Controller
      reads this
    {
      Controller(lifecycle, generation, activeSyncs, activeRemediations, activeDeactivation,
                 activeDeactivationFenced, recentCommandResults, commandWindowSize, authorityInitialized)
    }

    constructor (c: Controller)
      ensures View() == c
    {
      lifecycle, generation, activeSyncs, activeRemediations := c.lifecycle, c.generation, c.syncs, c.remediations;
      activeDeactivation, activeDeactivationFenced := c.deactivation, c.fenced;
      recentCommandResults, commandWindowSize, authorityInitialized := c.recent, c.windowSize, c.initialized;
    }

    method RememberResult(r: CommandResult)
      modifies this`recentCommandResults
      ensures View() == Remember(old(View()), r)
    {
      if Find(recentCommandResults, r.commandId).Some? {
        recentCommandResults := Replace(recentCommandResults, r);
      } else {
        recentCommandResults := recentCommandResults + [r];
      }
      var overflow := |recentCommandResults| - Max(1, commandWindowSize);
      if overflow > 0 {
        recentCommandResults := recentCommandResults[overflow..];
      }
    }

    method ProcessRequestSync(id: Key, expected: int, sequence: Key, ok: bool)
      returns (response: Response, effects: seq<Effect>)
      modifies this
      ensures Handled(View(), response, effects) == HandleRequestSync(old(View()), id, expected, sequence, ok)
    {
      hide Find, Remember;
      var known := Find(recentCommandResults, id);
      if known.Some? {
        return Accepted(known.value, true), [];
      }
      if expected != generation {
        return Refused(StaleLifecycleGeneration), [];
      }
      if activeDeactivation.Some? || Fenced(lifecycle) {
        return Refused(StoreNotSyncable), [];
      }
      if activeSyncs != {} {
        return Refused(SyncAlreadyRunning), [];
      }
      if activeRemediations != {} {
        return Refused(RemediationAlreadyRunning), [];
      }
      if !ok {
        return Refused(ExternalCallFailed), [];
      }
      var op := SyncId(expected, sequence);
      activeSyncs := activeSyncs + {op};
      lifecycle := Syncing;
      var r := CommandResult(id, op, SyncOperation, AcceptedStatus, expected);
      RememberResult(r);
      return Accepted(r, false), [StartSyncChild(op)];
    }

    method ProcessCancelSync(id: Key, op: OpId, ok: bool) returns (response: Response, effects: seq<Effect>)
      modifies this`recentCommandResults
      ensures Handled(View(), response, effects) == HandleCancelSync(old(View()), id, op, ok)
    {
      hide Find, Remember;
      var known := Find(recentCommandResults, id);
      if known.Some? {
        return Accepted(known.value, true), [];
      }
      var accepted := op in activeSyncs;
      effects := [];
      if accepted {
        effects := [RequestCancel(op)];
        if !ok {
          return Refused(ExternalCallFailed), effects;
        }
      }
      var r := CommandResult(id, op, SyncOperation, if accepted then AcceptedStatus else RejectedStatus, generation);
      RememberResult(r);
      response := Accepted(r, false);
    }

    method ProcessStartDeactivation(id: Key, expected: int, ok: bool)
      returns (response: Response, effects: seq<Effect>)
      modifies this
      ensures Handled(View(), response, effects) == HandleStartDeactivation(old(View()), id, expected, ok)
    {
      hide Find, Remember;
      var known := Find(recentCommandResults, id);
      if known.Some? {
        return Accepted(known.value, true), [];
      }
      var already := AlreadyDeactivating(View(), expected);
      if already.Some? {
        var r := CommandResult(id, already.value.0, DeactivationOperation, already.value.1, already.value.2);
        RememberResult(r);
        return Accepted(r, true), [];
      }
      if expected != generation {
        return Refused(StaleLifecycleGeneration), [];
      }
      if !ok {
        return Refused(ExternalCallFailed), [];
      }
      var resume := lifecycle == Deactivating || lifecycle == DeactivationFailed;
      var input := RunInput(expected, resume, activeSyncs + activeRemediations);
      var op := DeactivationId(FencedGeneration(input));
      activeDeactivation := Some(op);
      activeDeactivationFenced := resume;
      lifecycle := Deactivating;
      var r := CommandResult(id, op, DeactivationOperation, AcceptedStatus, FencedGeneration(input));
      RememberResult(r);
      return Accepted(r, false), [StartDeactivationChild(op, input)];
    }

    method ProcessOperationStatus(op: OpId, g: int, terminal: bool, succeeded: bool)
      returns (effects: seq<Effect>)
      modifies this
      ensures Handled(View(), NoResponse, effects) == HandleOperationStatus(old(View()), op, g, terminal, succeeded)
    {
      hide EndDeactivation;
      effects := [];
      if op in activeSyncs && terminal {
        activeSyncs := activeSyncs - {op};
        effects := effects + DrainTo(View(), op);
      }
      if op in activeRemediations && terminal {
        activeRemediations := activeRemediations - {op};
        effects := effects + DrainTo(View(), op);
      }
      assert terminal ==> activeSyncs == old(activeSyncs) - {op}
                          && activeRemediations == old(activeRemediations) - {op};
      if activeDeactivation == Some(op) && terminal {
        EndActiveDeactivation(g, succeeded);
      } else if activeSyncs == {} && activeRemediations == {} && lifecycle == Syncing {
        lifecycle := Active;
      }
    }

    method EndActiveDeactivation(g: int, succeeded: bool)
      modifies this`activeDeactivation, this`activeDeactivationFenced, this`generation, this`lifecycle
      ensures View() == EndDeactivation(old(View()), g, succeeded)
    {
      var fenced := activeDeactivationFenced || g > generation;
      activeDeactivation := None;
      activeDeactivationFenced := false;
      if fenced {
        generation := Max(generation, g);
        lifecycle := if succeeded then Inactive else DeactivationFailed;
      } else {
        // Neither the flag nor the event shows a committed fence.
        lifecycle := if activeSyncs != {} || activeRemediations != {} then Syncing else Active;
      }
    }

    method ProcessRemediationStarted(op: OpId) returns (effects: seq<Effect>)
      modifies this`activeRemediations, this`lifecycle
      ensures Handled(View(), NoResponse, effects) == HandleRemediationStarted(old(View()), op)
    {
      if op in activeRemediations {
        return [];
      }
      activeRemediations := activeRemediations + {op};
      if lifecycle == Active {
        lifecycle := Syncing;
      }
      // A remediation that arrives after the fence is asked to stop.
      effects := if Fenced(lifecycle) then [RequestCancel(op)] else [];
    }

    method ProcessDeactivationFenced(op: OpId, g: int)
      modifies this`generation, this`lifecycle, this`activeDeactivationFenced
      ensures Handled(View(), NoResponse, []) == HandleDeactivationFenced(old(View()), op, g)
    {
      if activeDeactivation != Some(op) || g < generation {
        return;
      }
      generation := g;
      lifecycle := Deactivating;
      activeDeactivationFenced := true;
    }

    method Process(e: Envelope, ok: bool) returns (response: Response, effects: seq<Effect>)
      modifies this
      ensures Handled(View(), response, effects) == Handle(old(View()), e, ok)
    {
      hide HandleRequestSync, HandleCancelSync, HandleStartDeactivation, HandleOperationStatus,
           HandleRemediationStarted, HandleDeactivationFenced;
      response, effects := NoResponse, [];
      match e {
        case RequestSync(id, expected, sequence) =>
          response, effects := ProcessRequestSync(id, expected, sequence, ok);
        case CancelSync(id, op) =>
          response, effects := ProcessCancelSync(id, op, ok);
        case StartDeactivation(id, expected) =>
          response, effects := ProcessStartDeactivation(id, expected, ok);
        case OperationStatus(op, g, terminal, succeeded) =>
          effects := ProcessOperationStatus(op, g, terminal, succeeded);
        case RemediationStarted(op) =>
          effects := ProcessRemediationStarted(op);
        case RemediationFinished(op, g, terminal, succeeded) =>
          if terminal {
            effects := ProcessOperationStatus(op, g, true, succeeded);
          }
        case DeactivationFenced(op, g) =>
          ProcessDeactivationFenced(op, g);
      }
    }

    method InitializeAuthority(state: LifecycleState, g: int)
      modifies this`generation, this`lifecycle, this`authorityInitialized
      ensures View() == Initialize(old(View()), state, g)
    {
      if authorityInitialized {
        return;
      }
      generation := g;
      lifecycle := if state == Active && (activeSyncs != {} || activeRemediations != {}) then Syncing else state;
      authorityInitialized := true;
    }
  }
}
