/**
 What the controller does with each envelope and what a deactivation achieves, stated on their inputs.
 */
module StoreEffects {
  import opened Collections
  import opened StoreRepository
  import opened StoreDeactivation
  import opened StoreController
  import opened StoreSystem

  /** Nothing but the window of command results differs. */
  predicate OnlyRecent(c: Controller, d: Controller) {
    d == c.(recent := d.recent)
  }

  /** No command with this ID is in the window of results. */
  ghost predicate NewCommand(c: Controller, id: Key) {
    forall i :: 0 <= i < |c.recent| ==> c.recent[i].commandId != id
  }

  ghost predicate Remembers(c: Controller, d: Controller, r: CommandResult) {
    d.recent == Newest(c.recent + [r], Max(1, c.windowSize))
  }

  lemma NewIsRemembered(c: Controller, d: Controller, id: Key)
    requires NewCommand(c, id)
    ensures Find(c.recent, id).None?
    ensures forall r: CommandResult :: r.commandId == id && d.recent == c.recent && d.windowSize == c.windowSize ==>
              Remembers(c, Remember(d, r), r)
  {
    FindsNone(c.recent, id);
    hide Newest, Max;
  }

  /**
   A sync starts exactly under the controller's generation, outside the fenced states, with nothing
   registered and no deactivation active; the refusals come in this order and change nothing.
   */
  lemma SyncRequestEffect(c: Controller, id: Key, expected: int, sequence: Key, ok: bool)
    requires NewCommand(c, id)
    ensures var h := Handle(c, RequestSync(id, expected, sequence), ok); var d := h.controller;
            var closed := c.deactivation.Some? || c.lifecycle in {Deactivating, Inactive, DeactivationFailed};
            var idle := c.syncs == {} && c.remediations == {};
            && (expected != c.generation ==> h == Handled(c, Refused(StaleLifecycleGeneration), []))
            && (expected == c.generation && closed ==> h == Handled(c, Refused(StoreNotSyncable), []))
            && (expected == c.generation && !closed && c.syncs != {} ==>
                  h == Handled(c, Refused(SyncAlreadyRunning), []))
            && (expected == c.generation && !closed && c.syncs == {} && c.remediations != {} ==>
                  h == Handled(c, Refused(RemediationAlreadyRunning), []))
            && (expected == c.generation && !closed && idle && !ok ==>
                  h == Handled(c, Refused(ExternalCallFailed), []))
            && (expected == c.generation && !closed && idle && ok ==>
                  var op := SyncId(expected, sequence);
                  var r := CommandResult(id, op, SyncOperation, AcceptedStatus, expected);
                  && h.response == Accepted(r, false) && h.effects == [StartSyncChild(op)]
                  && Remembers(c, d, r) && OnlyRecent(c.(syncs := {op}, lifecycle := Syncing), d))
  {
    NewIsRemembered(c, c.(syncs := c.syncs + {SyncId(expected, sequence)}, lifecycle := Syncing), id);
    hide Find, Newest, Max, Replace, NewCommand;
  }

  /** A cancel asks exactly a registered sync to stop; it registers and releases nothing itself. */
  lemma SyncCancelEffect(c: Controller, id: Key, op: OpId, ok: bool)
    requires NewCommand(c, id)
    ensures var h := Handle(c, CancelSync(id, op), ok);
            && h.effects == (if op in c.syncs then [RequestCancel(op)] else [])
            && if op in c.syncs && !ok then h.controller == c && h.response == Refused(ExternalCallFailed)
               else
                 var status := if op in c.syncs then AcceptedStatus else RejectedStatus;
                 var r := CommandResult(id, op, SyncOperation, status, c.generation);
                 h.response == Accepted(r, false) && Remembers(c, h.controller, r) && OnlyRecent(c, h.controller)
  {
    NewIsRemembered(c, c, id);
    hide Find, Newest, Max, Replace, NewCommand;
  }

  /** What a deactivation command finds: one that is active, one that ended, or neither. */
  ghost predicate FindsDeactivation(c: Controller, expected: int, r: CommandResult) {
    if c.deactivation.Some? then
      r.operation == c.deactivation.value && r.status == AcceptedStatus
      && r.generation == c.generation + (if c.fenced then 0 else 1)
    else
      && r.operation == DeactivationId(c.generation) && r.generation == c.generation
      && ((c.lifecycle == Inactive && expected in {c.generation, c.generation - 1} && r.status == CompletedStatus)
          || (c.lifecycle == DeactivationFailed && expected == c.generation - 1 && r.status == FailedStatus))
  }

  predicate AlreadyFenced(c: Controller, expected: int) {
    || c.deactivation.Some?
    || (c.lifecycle == Inactive && (expected == c.generation || expected == c.generation - 1))
    || (c.lifecycle == DeactivationFailed && expected == c.generation - 1)
  }

  /**
   A deactivation command answers with the one that is active or over; otherwise, under the controller's
   generation, it starts a child that has to drain everything registered, and that resumes the present
   generation when the store is already fenced and fences the next one when it is not.
   */
  lemma DeactivationEffect(c: Controller, id: Key, expected: int, ok: bool)
    requires NewCommand(c, id)
    ensures var h := Handle(c, StartDeactivation(id, expected), ok); var d := h.controller;
            && (AlreadyFenced(c, expected) ==>
                  && h.response.Accepted? && h.response.duplicate && h.effects == [] && OnlyRecent(c, d)
                  && FindsDeactivation(c, expected, h.response.result) && Remembers(c, d, h.response.result))
            && (!AlreadyFenced(c, expected) && expected != c.generation ==>
                  h == Handled(c, Refused(StaleLifecycleGeneration), []))
            && (!AlreadyFenced(c, expected) && expected == c.generation && !ok ==>
                  h == Handled(c, Refused(ExternalCallFailed), []))
            && (!AlreadyFenced(c, expected) && expected == c.generation && ok ==>
                  var resumed := c.lifecycle in {Deactivating, DeactivationFailed};
                  var g := if resumed then expected else expected + 1;
                  var r := CommandResult(id, DeactivationId(g), DeactivationOperation, AcceptedStatus, g);
                  && h.response == Accepted(r, false) && Remembers(c, d, r)
                  && h.effects == [StartDeactivationChild(
                       DeactivationId(g), RunInput(expected, resumed, c.syncs + c.remediations))]
                  && OnlyRecent(c.(deactivation := Some(DeactivationId(g)), fenced := resumed,
                                   lifecycle := Deactivating), d))
  {
    NewIsRemembered(c, c, id);
    NewIsRemembered(c, c.(deactivation := Some(DeactivationId(if Resumes(c) then expected else expected + 1)),
                          fenced := Resumes(c), lifecycle := Deactivating), id);
    hide Find, Newest, Max, Replace, NewCommand;
  }

  /** The registry without one operation, and the drain Signals that its leaving sends. */
  predicate Leaves(c: Controller, op: OpId, d: Controller, effects: seq<Effect>) {
    && d.syncs == c.syncs - {op} && d.remediations == c.remediations - {op}
    && (forall e :: e in effects ==> c.deactivation.Some? && e == ForwardDrained(c.deactivation.value, op))
    && |effects| == if c.deactivation.None? then 0
                    else (if op in c.syncs then 1 else 0) + (if op in c.remediations then 1 else 0)
  }

  /**
   The end of the active deactivation.  When its fence is known, by the fence Signal or by the event's
   newer generation, the controller shows INACTIVE exactly when it succeeded and DEACTIVATION_FAILED
   otherwise, at the later generation; when it is not, it shows again what is registered.
   */
  lemma DeactivationEndEffect(c: Controller, op: OpId, generation: int, succeeded: bool, ok: bool)
    requires c.deactivation == Some(op)
    ensures var h := Handle(c, OperationStatus(op, generation, true, succeeded), ok); var d := h.controller;
            && h.response == NoResponse && d.deactivation.None? && !d.fenced && Leaves(c, op, d, h.effects)
            && d.recent == c.recent && d.initialized == c.initialized
            && if c.fenced || generation > c.generation then
                 && (d.lifecycle == Inactive <==> succeeded) && (d.lifecycle == DeactivationFailed <==> !succeeded)
                 && d.generation >= c.generation && d.generation >= generation
                 && d.generation in {c.generation, generation}
               else
                 && d.generation == c.generation
                 && d.lifecycle == if d.syncs == {} && d.remediations == {} then Active else Syncing
  {
  }

  /** The end of another operation releases it, and with the last one a SYNCING store is ACTIVE again. */
  lemma OperationEndEffect(c: Controller, op: OpId, generation: int, succeeded: bool, ok: bool)
    requires c.deactivation != Some(op)
    ensures var h := Handle(c, OperationStatus(op, generation, true, succeeded), ok); var d := h.controller;
            && h.response == NoResponse && Leaves(c, op, d, h.effects)
            && d == c.(syncs := d.syncs, remediations := d.remediations, lifecycle := d.lifecycle)
            && d.lifecycle == if c.lifecycle == Syncing && d.syncs == {} && d.remediations == {} then Active
                              else c.lifecycle
  {
  }

  /** A progress report, and one of a remediation, releases nothing. */
  lemma ProgressEffect(c: Controller, op: OpId, generation: int, succeeded: bool, ok: bool)
    requires c.lifecycle == Syncing ==> c.syncs != {} || c.remediations != {}
    ensures Handle(c, OperationStatus(op, generation, false, succeeded), ok) == Handled(c, NoResponse, [])
    ensures Handle(c, RemediationFinished(op, generation, false, succeeded), ok) == Handled(c, NoResponse, [])
    ensures Handle(c, RemediationFinished(op, generation, true, succeeded), ok)
            == Handle(c, OperationStatus(op, generation, true, succeeded), ok)
  {
  }

  /** A remediation is registered once; on a fenced store it is asked to stop at once. */
  lemma RemediationEffect(c: Controller, op: OpId, ok: bool)
    ensures var h := Handle(c, RemediationStarted(op), ok);
            && h.response == NoResponse
            && if op in c.remediations then h.controller == c && h.effects == []
               else
                 && h.controller == c.(remediations := c.remediations + {op},
                                       lifecycle := if c.lifecycle == Active then Syncing else c.lifecycle)
                 && h.effects == if c.lifecycle in {Deactivating, Inactive, DeactivationFailed}
                                 then [RequestCancel(op)] else []
  {
  }

  /** The fence Signal counts exactly for the active deactivation and a generation that is not older. */
  lemma FenceEffect(c: Controller, op: OpId, generation: int, ok: bool)
    ensures var h := Handle(c, DeactivationFenced(op, generation), ok);
            && h.response == NoResponse && h.effects == []
            && h.controller == if c.deactivation == Some(op) && generation >= c.generation
                               then c.(generation := generation, lifecycle := Deactivating, fenced := true) else c
  {
  }

  /** The first repository answer of a run is taken over once, and shown as SYNCING while work is registered. */
  lemma AuthorityEffect(c: Controller, state: LifecycleState, generation: int)
    ensures var d := Initialize(c, state, generation);
            if c.initialized then d == c
            else
              && d == c.(generation := generation, lifecycle := d.lifecycle, initialized := true)
              && d.lifecycle == if state == Active && !(c.syncs == {} && c.remediations == {}) then Syncing else state
  {
  }

  // ---- a deactivation from its start to its end ----

  lemma {:induction false} RunFleetJoins(f: Fleet, a: seq<FleetAction>, b: seq<FleetAction>)
    ensures RunFleet(f, a + b) == RunFleet(RunFleet(f, a), b)
  {
    hide FleetStep;
    if b == [] {
      assert a + b == a;
    } else {
      var n := |b| - 1;
      assert (a + b)[..|a + b| - 1] == a + b[..n];
      RunFleetJoins(f, a, b[..n]);
    }
  }

  lemma TwoSteps(f: Fleet, a: FleetAction, b: FleetAction)
    ensures RunFleet(f, [a, b]) == FleetStep(FleetStep(f, a), b)
  {
    RunFleetAppend(f, [], a);
    RunFleetAppend(f, [a], b);
    assert [] + [a] == [a] && [a] + [b] == [a, b];
    hide FleetStep;
  }

  /** One run of the plan in which no activity fails, and nobody reports a drained operation. */
  function CleanPlan(input: RunInput, warning: bool): seq<FleetAction> {
    [StartRun(input), Execute(0, FenceOperation(input))]
    + [Act(0, PassFence), Act(0, Proceed(false))] + [Act(0, Proceed(false)), Act(0, Proceed(false))]
    + [Act(0, FinishDrainWait), Execute(0, CleanUsers(input))] + [Act(0, PassCleanup), Execute(0, RemoveObjects(input))]
    + [Act(0, PassCleanup), Execute(0, CommitInactive(input))] + [Act(0, PassCleanup), Act(0, Report(warning))]
  }

  /** The fleet while its only run has come to `position`. */
  ghost predicate RunAt(f: Fleet, input: RunInput, position: nat, record: Record, warned: bool) {
    f.record == record && f.runs == [NewRun(input).(position := position, warned := warned)]
  }

  /** A first run meets an open store, a resumed one a store whose deactivation failed or was interrupted. */
  predicate CanFence(r: Record, input: RunInput) {
    input.expected == r.generation
    && if input.resume then r.generation > 0 && r.state in {Deactivating, DeactivationFailed}
       else r.state in {Active, Syncing}
  }

  lemma FenceSteps(r: Record, input: RunInput)
    requires CanFence(r, input)
    ensures var f := RunFleet(Provisioned(r), [StartRun(input), Execute(0, FenceOperation(input))]);
            RunAt(f, input, 0, r.(state := Deactivating, generation := FencedGeneration(input)), false)
            && (0, FenceOperation(input)) in f.replies
  {
    TwoSteps(Provisioned(r), StartRun(input), Execute(0, FenceOperation(input)));
  }

  lemma PassSteps(f: Fleet, input: RunInput, record: Record)
    requires RunAt(f, input, 0, record, false) && (0, FenceOperation(input)) in f.replies
    ensures RunAt(RunFleet(f, [Act(0, PassFence), Act(0, Proceed(false))]), input, 2, record, false)
  {
    TwoSteps(f, Act(0, PassFence), Act(0, Proceed(false)));
  }

  lemma ProceedSteps(f: Fleet, input: RunInput, record: Record)
    requires RunAt(f, input, 2, record, false)
    ensures RunAt(RunFleet(f, [Act(0, Proceed(false)), Act(0, Proceed(false))]), input, 4, record, false)
  {
    TwoSteps(f, Act(0, Proceed(false)), Act(0, Proceed(false)));
  }

  lemma UsersSteps(f: Fleet, input: RunInput, record: Record)
    requires RunAt(f, input, 4, record, false)
    requires record.state == Deactivating && record.generation == FencedGeneration(input)
    ensures var g := RunFleet(f, [Act(0, FinishDrainWait), Execute(0, CleanUsers(input))]);
            RunAt(g, input, 5, record.(activeUsers := {}), input.operations != {})
            && (0, CleanUsers(input)) in g.replies
  {
    TwoSteps(f, Act(0, FinishDrainWait), Execute(0, CleanUsers(input)));
    assert input.operations - {} == input.operations;
  }

  lemma ObjectsSteps(f: Fleet, input: RunInput, record: Record, warned: bool)
    requires RunAt(f, input, 5, record, warned) && (0, CleanUsers(input)) in f.replies
    requires record.state == Deactivating && record.generation == FencedGeneration(input)
    ensures var g := RunFleet(f, [Act(0, PassCleanup), Execute(0, RemoveObjects(input))]);
            RunAt(g, input, 6, record.(documents := map[], retrievalState := map[]), warned)
            && (0, RemoveObjects(input)) in g.replies
  {
    TwoSteps(f, Act(0, PassCleanup), Execute(0, RemoveObjects(input)));
  }

  lemma InactiveSteps(f: Fleet, input: RunInput, record: Record, warned: bool)
    requires RunAt(f, input, 6, record, warned) && (0, RemoveObjects(input)) in f.replies
    requires record.state == Deactivating && record.generation == FencedGeneration(input)
    ensures var g := RunFleet(f, [Act(0, PassCleanup), Execute(0, CommitInactive(input))]);
            RunAt(g, input, 7, record.(state := Inactive), warned) && (0, CommitInactive(input)) in g.replies
  {
    TwoSteps(f, Act(0, PassCleanup), Execute(0, CommitInactive(input)));
  }

  lemma ReportSteps(f: Fleet, input: RunInput, record: Record, warned: bool, warning: bool)
    requires RunAt(f, input, 7, record, warned) && (0, CommitInactive(input)) in f.replies
    ensures var g := RunFleet(f, [Act(0, PassCleanup), Act(0, Report(warning))]);
            g.record == record && |g.runs| == 1 && g.runs[0].position == 9
            && g.runs[0].status == if warned || warning then Partial else Succeeded
  {
    TwoSteps(f, Act(0, PassCleanup), Act(0, Report(warning)));
  }

  /**
   A deactivation in which nothing fails leaves its store INACTIVE and empty: an open one under the next
   generation, a failed one, when it is resumed, under its own.  It reports SUCCEEDED exactly when its
   terminal Signal was delivered and it had nothing to drain, and PARTIAL when operations that it was
   never told about were still open.
   */
  lemma CleanRunDeactivates(r: Record, input: RunInput, warning: bool)
    requires CanFence(r, input)
    ensures var f := RunFleet(Provisioned(r), CleanPlan(input, warning));
            && f.record == Record(Inactive, r.generation + (if input.resume then 0 else 1), {}, map[], map[])
            && |f.runs| == 1 && f.runs[0].position == |DEACTIVATION_PLAN|
            && f.runs[0].status == if input.operations == {} && !warning then Succeeded else Partial
  {
    var w, g := input.operations != {}, FencedGeneration(input);
    var a1 := [StartRun(input), Execute(0, FenceOperation(input))];
    var a2 := [Act(0, PassFence), Act(0, Proceed(false))];
    var a3 := [Act(0, Proceed(false)), Act(0, Proceed(false))];
    var a4 := [Act(0, FinishDrainWait), Execute(0, CleanUsers(input))];
    var a5 := [Act(0, PassCleanup), Execute(0, RemoveObjects(input))];
    var a6 := [Act(0, PassCleanup), Execute(0, CommitInactive(input))];
    var a7 := [Act(0, PassCleanup), Act(0, Report(warning))];
    assert CleanPlan(input, warning) == a1 + a2 + a3 + a4 + a5 + a6 + a7;
    assert g == r.generation + (if input.resume then 0 else 1) && |DEACTIVATION_PLAN| == 9;
    hide *;
    var f := Provisioned(r);
    RunFleetJoins(f, a1 + a2 + a3 + a4 + a5 + a6, a7);
    RunFleetJoins(f, a1 + a2 + a3 + a4 + a5, a6);
    RunFleetJoins(f, a1 + a2 + a3 + a4, a5);
    RunFleetJoins(f, a1 + a2 + a3, a4);
    RunFleetJoins(f, a1 + a2, a3);
    RunFleetJoins(f, a1, a2);
    var r1 := r.(state := Deactivating, generation := g);
    var r4 := r1.(activeUsers := {});
    var r5 := r4.(documents := map[], retrievalState := map[]);
    FenceSteps(r, input);
    var f1 := RunFleet(f, a1);
    PassSteps(f1, input, r1);
    var f2 := RunFleet(f1, a2);
    ProceedSteps(f2, input, r1);
    var f3 := RunFleet(f2, a3);
    UsersSteps(f3, input, r1);
    var f4 := RunFleet(f3, a4);
    ObjectsSteps(f4, input, r4, w);
    var f5 := RunFleet(f4, a5);
    InactiveSteps(f5, input, r5, w);
    var f6 := RunFleet(f5, a6);
    ReportSteps(f6, input, r5.(state := Inactive), w, warning);
  }

  /** Run `k` handles the drain Signals of some operations, in the order of their arrival. */
  function Drains(k: nat, ops: seq<OpId>): seq<FleetAction> {
    if ops == [] then [] else Drains(k, ops[..|ops| - 1]) + [Act(k, Drain(ops[|ops| - 1]))]
  }

  lemma DrainStep(f: Fleet, k: nat, op: OpId)
    requires CanAct(f, k, Drain(op))
    ensures var r := f.runs[k];
            FleetStep(f, Act(k, Drain(op))) == f.(runs := f.runs[k := r.(drained := r.drained + {op})])
  {
    assert f.tasks + Tasks(k, {}) == f.tasks;
  }

  lemma {:induction false} DrainsAreKept(f: Fleet, k: nat, ops: seq<OpId>)
    requires k < |f.runs| && f.runs[k].status == Running && Elements(ops) <= f.runs[k].forwarded
    ensures var r := f.runs[k];
            RunFleet(f, Drains(k, ops)) == f.(runs := f.runs[k := r.(drained := r.drained + Elements(ops))])
  {
    var r := f.runs[k];
    hide RunFleet, FleetStep;
    if ops == [] {
      assert r.drained + Elements(ops) == r.drained;
      assert f.runs[k := r] == f.runs;
      NoSteps(f);
    } else {
      var n := |ops| - 1;
      assert Elements(ops) == Elements(ops[..n]) + {ops[n]};
      assert r.drained + Elements(ops[..n]) + {ops[n]} == r.drained + Elements(ops);
      DrainsAreKept(f, k, ops[..n]);
      var g := RunFleet(f, Drains(k, ops[..n]));
      RunFleetAppend(f, Drains(k, ops[..n]), Act(k, Drain(ops[n])));
      DrainStep(g, k, ops[n]);
      hide Elements, CanAct;
      assert g.runs[k := g.runs[k].(drained := g.runs[k].drained + {ops[n]})]
             == f.runs[k := r.(drained := r.drained + Elements(ops))];
    }
  }

  lemma NoSteps(f: Fleet)
    ensures RunFleet(f, []) == f
  {
  }

  /**
   The wait for old work is clean exactly when every operation the run was to stop has been reported
   drained by the end of it; then it adds no warning of its own.
   */
  lemma DrainWaitIsExact(f: Fleet, k: nat, ops: seq<OpId>)
    requires CanAct(f, k, FinishDrainWait) && Elements(ops) <= f.runs[k].forwarded
    ensures var r := f.runs[k]; var g := RunFleet(f, Drains(k, ops) + [Act(k, FinishDrainWait)]);
            && |g.runs| == |f.runs| && g.runs[k].position == 5 && g.runs[k].status == Running
            && g.record == f.record
            && (g.runs[k].warned <==> r.warned || exists x :: x in r.input.operations && x !in r.drained && x !in ops)
  {
    var r := f.runs[k];
    DrainsAreKept(f, k, ops);
    RunFleetAppend(f, Drains(k, ops), Act(k, FinishDrainWait));
    var g := RunFleet(f, Drains(k, ops));
    assert g.runs[k] == r.(drained := r.drained + Elements(ops));
    assert FleetStep(g, Act(k, FinishDrainWait)) == ActStep(g, k, FinishDrainWait);
    var open := r.input.operations - (r.drained + Elements(ops));
    assert forall x :: x in open <==> x in r.input.operations && x !in r.drained && x !in ops;
  }

  /**
   A run that fails after its fence first schedules the record of its failure, which leaves the store in
   DEACTIVATION_FAILED under the run's generation, and then ends as failed.
   */
  lemma FailureIsRecorded(f: Fleet, k: nat)
    requires CanAct(f, k, FailAfterFence) && f.record.state == Deactivating
    requires f.record.generation == FencedGeneration(f.runs[k].input)
    ensures var g := RunFleet(f, [Act(k, FailAfterFence), Execute(k, RecordFailure(f.runs[k].input))]);
            var z := FleetStep(g, Act(k, FinishFailure));
            && z.record == f.record.(state := DeactivationFailed)
            && |z.runs| == |f.runs| && z.runs[k].status == FailedAfterFence
  {
    TwoSteps(f, Act(k, FailAfterFence), Execute(k, RecordFailure(f.runs[k].input)));
  }

  // ---- what the controller shows of it ----

  lemma ReportSends(y: System, k: nat, warning: bool)
    requires CanAct(y.fleet, k, Report(warning))
    ensures var r := y.fleet.runs[k]; var z := SystemStep(y, Progress(Act(k, Report(warning))));
            && OperationStatus(DeactivationId(FencedGeneration(r.input)), FencedGeneration(r.input), true, true)
               in z.mail
            && z.controller == y.controller && z.fleet.record == y.fleet.record
  {
  }

  lemma ReceivedEnd(z: System, op: OpId, generation: int, succeeded: bool)
    requires z.controller.initialized && OperationStatus(op, generation, true, succeeded) in z.mail
    requires z.controller.deactivation == Some(op) && (z.controller.fenced || generation > z.controller.generation)
    ensures var w := SystemStep(z, Receive(OperationStatus(op, generation, true, succeeded)));
            && w.controller.lifecycle == (if succeeded then Inactive else DeactivationFailed)
            && w.controller.deactivation.None? && w.controller.generation >= generation
            && w.controller.generation in {z.controller.generation, generation}
  {
    DeactivationEndEffect(z.controller, op, generation, succeeded, true);
    hide Handle, PerformAll, Leaves;
  }

  lemma CompletedRecord(f: Fleet, k: nat)
    requires FleetInv(f) && k < |f.runs| && f.runs[k].position >= 8
    ensures f.record.state == Inactive && Empty(f.record) && f.record.generation == FencedGeneration(f.runs[k].input)
  {
    RunsParts(f);
    assert RunOk(f.runs[k], k, f.replies);
    assert Achieved(f.record, f.runs[k].input, CommitInactive(f.runs[k].input));
    hide FleetInv, TasksOk;
  }

  lemma FleetPart(y: System)
    requires SystemInv(y)
    ensures FleetInv(y.fleet)
  {
  }

  /**
   In every reachable state: when the active deactivation's run reports its end and the controller, which
   knows of its fence, receives the Signal, the controller shows INACTIVE at exactly the generation of the
   repository, which is INACTIVE and empty.
   */
  lemma CompletedDeactivationIsShown(y: System, actions: seq<SystemAction>, k: nat, warning: bool)
    requires Fresh(y)
    requires var z := RunSystem(y, actions);
             && CanAct(z.fleet, k, Report(warning)) && z.controller.initialized && z.controller.fenced
             && z.controller.deactivation == Some(WorkflowId(z.fleet.runs[k]))
    ensures var z := RunSystem(y, actions); var g := FencedGeneration(z.fleet.runs[k].input);
            var end := OperationStatus(WorkflowId(z.fleet.runs[k]), g, true, true);
            var w := SystemStep(SystemStep(z, Progress(Act(k, Report(warning)))), Receive(end));
            && w.controller.lifecycle == Inactive && w.controller.deactivation.None?
            && w.controller.generation == g == z.fleet.record.generation
            && z.fleet.record.state == Inactive && Empty(z.fleet.record)
  {
    var z := RunSystem(y, actions);
    var g := FencedGeneration(z.fleet.runs[k].input);
    assert WorkflowId(z.fleet.runs[k]) == DeactivationId(g) && z.fleet.runs[k].position >= 8;
    hide *;
    RunSystemInv(y, actions);
    FleetPart(z);
    CompletedRecord(z.fleet, k);
    InvAuthority(z);
    ReportSends(z, k, warning);
    var after := SystemStep(z, Progress(Act(k, Report(warning))));
    ReceivedEnd(after, DeactivationId(g), g, true);
  }

  lemma FailureSends(y: System, k: nat)
    requires CanAct(y.fleet, k, FinishFailure)
    ensures var r := y.fleet.runs[k]; var z := SystemStep(y, Progress(Act(k, FinishFailure)));
            && OperationStatus(DeactivationId(FencedGeneration(r.input)), FencedGeneration(r.input), true, false)
               in z.mail
            && z.controller == y.controller && z.fleet.record == y.fleet.record
  {
  }

  /** The same for a failure after the fence, which the controller shows as DEACTIVATION_FAILED. */
  lemma FailedDeactivationIsShown(z: System, k: nat)
    requires CanAct(z.fleet, k, FinishFailure) && z.controller.initialized && z.controller.fenced
    requires z.controller.deactivation == Some(WorkflowId(z.fleet.runs[k]))
    ensures var g := FencedGeneration(z.fleet.runs[k].input);
            var end := OperationStatus(WorkflowId(z.fleet.runs[k]), g, true, false);
            var w := SystemStep(SystemStep(z, Progress(Act(k, FinishFailure))), Receive(end));
            w.controller.lifecycle == DeactivationFailed && w.controller.deactivation.None?
  {
    var g := FencedGeneration(z.fleet.runs[k].input);
    assert WorkflowId(z.fleet.runs[k]) == DeactivationId(g);
    hide *;
    FailureSends(z, k);
    ReceivedEnd(SystemStep(z, Progress(Act(k, FinishFailure))), DeactivationId(g), g, false);
  }

  lemma EarlyFailureSends(y: System, k: nat)
    requires CanAct(y.fleet, k, FailBeforeFence)
    ensures var r := y.fleet.runs[k]; var z := SystemStep(y, Progress(Act(k, FailBeforeFence)));
            && OperationStatus(DeactivationId(FencedGeneration(r.input)), r.input.expected, true, false) in z.mail
            && z.controller == y.controller
  {
  }

  lemma ReceivedEarlyEnd(z: System, op: OpId, generation: int)
    requires z.controller.initialized && OperationStatus(op, generation, true, false) in z.mail && op.DeactivationId?
    requires z.controller.deactivation == Some(op) && !z.controller.fenced && generation <= z.controller.generation
    requires IdsOk(z.controller)
    ensures var w := SystemStep(z, Receive(OperationStatus(op, generation, true, false)));
            && w.controller.deactivation.None? && w.controller.generation == z.controller.generation
            && w.controller.syncs == z.controller.syncs && w.controller.remediations == z.controller.remediations
            && w.controller.lifecycle == if w.controller.syncs == {} && w.controller.remediations == {} then Active
                                         else Syncing
  {
    DeactivationEndEffect(z.controller, op, generation, false, true);
    assert op !in z.controller.syncs && op !in z.controller.remediations;
    hide Handle, PerformAll;
  }

  /** A failure before the fence gives the store back: the controller shows again what is registered. */
  lemma EarlyFailureIsShown(z: System, k: nat)
    requires CanAct(z.fleet, k, FailBeforeFence) && z.controller.initialized && !z.controller.fenced
    requires z.controller.deactivation == Some(WorkflowId(z.fleet.runs[k])) && IdsOk(z.controller)
    requires z.fleet.runs[k].input.expected <= z.controller.generation
    ensures var r := z.fleet.runs[k];
            var end := OperationStatus(WorkflowId(r), r.input.expected, true, false);
            var c := SystemStep(SystemStep(z, Progress(Act(k, FailBeforeFence))), Receive(end)).controller;
            && c.deactivation.None? && c.syncs == z.controller.syncs && c.remediations == z.controller.remediations
            && c.lifecycle == if c.syncs == {} && c.remediations == {} then Active else Syncing
  {
    var r := z.fleet.runs[k];
    assert WorkflowId(r) == DeactivationId(FencedGeneration(r.input));
    hide *;
    EarlyFailureSends(z, k);
    ReceivedEarlyEnd(SystemStep(z, Progress(Act(k, FailBeforeFence))), DeactivationId(FencedGeneration(r.input)),
                     r.input.expected);
  }

  /** A run past its fence tells the controller, which from then on shows the fenced generation. */
  lemma FenceIsShown(z: System, k: nat, warning: bool)
    requires CanAct(z.fleet, k, Proceed(warning)) && z.fleet.runs[k].position == 1 && z.controller.initialized
    requires z.controller.deactivation == Some(WorkflowId(z.fleet.runs[k]))
    requires z.controller.generation <= FencedGeneration(z.fleet.runs[k].input)
    ensures var g := FencedGeneration(z.fleet.runs[k].input);
            var fence := DeactivationFenced(WorkflowId(z.fleet.runs[k]), g);
            var c := SystemStep(SystemStep(z, Progress(Act(k, Proceed(warning)))), Receive(fence)).controller;
            c == z.controller.(generation := g, lifecycle := Deactivating, fenced := true)
  {
    var g := FencedGeneration(z.fleet.runs[k].input);
    FenceSends(z, k, warning);
    FenceEffect(z.controller, WorkflowId(z.fleet.runs[k]), g, true);
    hide Handle, PerformAll, CanAct, FleetStep, Signals;
  }

  lemma FenceSends(y: System, k: nat, warning: bool)
    requires CanAct(y.fleet, k, Proceed(warning)) && y.fleet.runs[k].position == 1
    ensures var r := y.fleet.runs[k]; var z := SystemStep(y, Progress(Act(k, Proceed(warning))));
            && DeactivationFenced(WorkflowId(r), FencedGeneration(r.input)) in z.mail && z.controller == y.controller
  {
  }
}
