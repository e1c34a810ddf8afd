/**
 Deactivation runs over the repository: the guarded nine-action plan, activities that may execute
 late and more than once, lost responses, and any number of first or resumed runs side by side.
 */
module StoreDeactivation {
  import opened Collections
  import opened StoreRepository

  /** Stable hashed workflow IDs: equal exactly when what they are hashed from is equal. */
  datatype OpId =
    | SyncId(generation: int, sequence: Key)
    | RemediationId(partition: Key)
    | DeactivationId(generation: int)

  datatype DeactivationAction =
    | FenceCommitted | ControllerFenced | OwnedWorkCancelRequested | OldQuotaInvalidated | DrainWaitFinished
    | UsersCleaned | ObjectsRemoved | InactiveCommitted | ControllerTerminal

  const DEACTIVATION_PLAN: seq<DeactivationAction> :=
    [FenceCommitted, ControllerFenced, OwnedWorkCancelRequested, OldQuotaInvalidated, DrainWaitFinished,
     UsersCleaned, ObjectsRemoved, InactiveCommitted, ControllerTerminal]

  datatype OrderError = SequenceTerminal | OutOfOrder(action: DeactivationAction, expected: DeactivationAction)

  class DeactivationOrderGuard {
    var completed: seq<DeactivationAction>

    /** The completed actions are always a prefix of the plan. */
    predicate Valid()
      reads this
    {
      completed <= DEACTIVATION_PLAN
    }

    constructor ()
      ensures Valid() && completed == []
    {
      completed := [];
    }

    predicate Fenced()
      reads this
    {
      completed != [] && completed[0] == FenceCommitted
    }

    /** An action is recorded exactly when it is the next one of the plan. */
    method Advance(action: DeactivationAction) returns (error: Option<OrderError>)
      requires Valid()
      modifies this
      ensures Valid()
      ensures error.None? <==> old(completed) + [action] <= DEACTIVATION_PLAN
      ensures completed == if error.None? then old(completed) + [action] else old(completed)
      ensures error == Some(SequenceTerminal) <==> old(completed) == DEACTIVATION_PLAN
    {
      var index := |completed|;
      if index >= |DEACTIVATION_PLAN| {
        return Some(SequenceTerminal);
      }
      var expected := DEACTIVATION_PLAN[index];
      if action != expected {
        assert (completed + [action])[index] == action;
        return Some(OutOfOrder(action, expected));
      }
      completed := completed + [action];
      return None;
    }

    /** Old work is cancelled only after the fence, whatever else has been recorded. */
    method EnsureFenced() returns (ok: bool)
      requires Valid()
      ensures ok <==> completed != []
    {
      ok := Fenced();
    }
  }

  datatype RunInput = RunInput(expected: int, resume: bool, operations: set<OpId>)

  datatype RunStatus = Running | Succeeded | Partial | FailedBeforeFence | FailedAfterFence

  /**
   One workflow run.  `position` is the length of its guard's list of completed actions, which is that
   prefix of the plan; `recording` holds while its failure is being persisted.
   */
  datatype DeactivationRun = DeactivationRun(
    input: RunInput, position: nat, forwarded: set<OpId>, drained: set<OpId>, warned: bool, recording: bool,
    status: RunStatus)

  function NewRun(input: RunInput): DeactivationRun {
    DeactivationRun(input, 0, {}, {}, false, false, Running)
  }

  /** `tasks` and `replies` pair a scheduled activity with its run; an execution can happen at any time. */
  datatype Fleet = Fleet(
    record: Record, runs: seq<DeactivationRun>, tasks: set<(nat, Operation)>, replies: set<(nat, Operation)>)

  function FenceOperation(input: RunInput): Operation {
    if input.resume then ResumeDeactivation(input.expected) else BeginDeactivation(input.expected)
  }

  /** The generation a run works under once its fence committed. */
  function FencedGeneration(input: RunInput): int {
    if input.resume then input.expected else input.expected + 1
  }

  function CleanUsers(input: RunInput): Operation {
    DeactivateUsers(FencedGeneration(input), {})
  }

  function RemoveObjects(input: RunInput): Operation {
    RemoveAllObjects(FencedGeneration(input))
  }

  function CommitInactive(input: RunInput): Operation {
    MarkInactive(FencedGeneration(input))
  }

  function RecordFailure(input: RunInput): Operation {
    MarkDeactivationFailed(FencedGeneration(input))
  }

  datatype RunAction =
    | PassFence                          // the fence activity's response arrives
    | FailBeforeFence                    // it never does, whether or not the fence committed
    | Proceed(warning: bool)             // tell the controller, cancel owned work, or invalidate old quota
    | Drain(operation: OpId)             // a forwarded drain Signal is handled
    | FinishDrainWait                    // everything drained, or the timeout elapsed
    | PassCleanup                        // the awaited cleanup or commit activity succeeded
    | Report(warning: bool)              // the terminal Signal of a completed run
    | FailAfterFence
    | FinishFailure

  datatype FleetAction =
    | StartRun(input: RunInput)
    | Execute(run: nat, operation: Operation)
    | OutsideCall(operation: Operation)  // writers, and cleanup of single users, of any generation
    | Act(run: nat, action: RunAction)

  predicate IsOutside(op: Operation) {
    IsWrite(op) || (op.DeactivateUsers? && op.users != {})
  }

  /** The activity whose success lets a run take plan action `position`. */
  function AwaitedOperation(r: DeactivationRun): Operation
    requires 5 <= r.position < 8
  {
    if r.position == 5 then CleanUsers(r.input)
    else if r.position == 6 then RemoveObjects(r.input)
    else CommitInactive(r.input)
  }

  predicate CanAct(f: Fleet, k: nat, a: RunAction) {
    k < |f.runs| && f.runs[k].status == Running &&
    var r := f.runs[k];
    match a
    case PassFence => r.position == 0 && (k, FenceOperation(r.input)) in f.replies
    case FailBeforeFence => r.position == 0
    case Proceed(_) => 1 <= r.position < 4 && !r.recording
    case Drain(op) => op in r.forwarded
    case FinishDrainWait => r.position == 4 && !r.recording
    case PassCleanup => 5 <= r.position < 8 && !r.recording && (k, AwaitedOperation(r)) in f.replies
    case Report(_) => r.position == 8 && !r.recording
    case FailAfterFence => 1 <= r.position && !r.recording
    case FinishFailure => r.recording
  }

  function RunAfter(r: DeactivationRun, a: RunAction): DeactivationRun {
    match a
    case PassFence => r.(position := r.position + 1)
    case FailBeforeFence => r.(status := FailedBeforeFence)
    case Proceed(warning) => r.(position := r.position + 1, warned := r.warned || warning)
    case Drain(op) => r.(drained := r.drained + {op})
    case FinishDrainWait =>
      r.(position := r.position + 1, warned := r.warned || r.input.operations - r.drained != {})
    case PassCleanup => r.(position := r.position + 1)
    case Report(warning) =>
      r.(position := r.position + 1, status := if r.warned || warning then Partial else Succeeded)
    case FailAfterFence => r.(recording := true)
    case FinishFailure => r.(status := FailedAfterFence)
  }

  /** The activities a run schedules with an action, so that its next action can wait for them. */
  function Scheduled(r: DeactivationRun, a: RunAction): set<Operation> {
    match a
    case FinishDrainWait => {CleanUsers(r.input)}
    case PassCleanup =>
      if r.position == 5 then {RemoveObjects(r.input)}
      else if r.position == 6 then {CommitInactive(r.input)}
      else {}
    case FailAfterFence => {RecordFailure(r.input)}
    case _ => {}
  }

  function Tasks(k: nat, ops: set<Operation>): (r: set<(nat, Operation)>)
    ensures forall j, op :: (j, op) in r <==> j == k && op in ops
  {
    set op | op in ops :: (k, op)
  }

  function ExecuteStep(f: Fleet, k: nat, op: Operation): Fleet {
    var result := Apply(f.record, op);
    if result.Ok? then f.(record := result.value, replies := f.replies + {(k, op)}) else f
  }

  function ActStep(f: Fleet, k: nat, a: RunAction): Fleet
    requires k < |f.runs|
  {
    f.(runs := f.runs[k := RunAfter(f.runs[k], a)], tasks := f.tasks + Tasks(k, Scheduled(f.runs[k], a)))
  }

  function FleetStep(f: Fleet, a: FleetAction): Fleet {
    match a
    case StartRun(input) =>
      f.(runs := f.runs + [NewRun(input)], tasks := f.tasks + {(|f.runs|, FenceOperation(input))})
    case Execute(k, op) => if (k, op) in f.tasks then ExecuteStep(f, k, op) else f
    case OutsideCall(op) => if IsOutside(op) then f.(record := After(f.record, op)) else f
    case Act(k, a) => if CanAct(f, k, a) then ActStep(f, k, a) else f
  }

  function RunFleet(f: Fleet, actions: seq<FleetAction>): Fleet {
    if actions == [] then f else FleetStep(RunFleet(f, actions[..|actions| - 1]), actions[|actions| - 1])
  }

  function Provisioned(r: Record): Fleet {
    Fleet(r, [], {}, {})
  }

  // ---- the invariant ----

  /** What an activity scheduled for run `r` at its present position can be. */
  predicate Justified(r: DeactivationRun, op: Operation) {
    || op == FenceOperation(r.input)
    || (op == CleanUsers(r.input) && r.position >= 5)
    || (op == RemoveObjects(r.input) && r.position >= 6)
    || (op == CommitInactive(r.input) && r.position >= 7)
    || (op == RecordFailure(r.input) && r.position >= 1)
  }

  /** What the record must look like for good once activity `op` of a run has succeeded. */
  predicate Achieved(record: Record, input: RunInput, op: Operation) {
    && !Writable(record) && record.generation == FencedGeneration(input)
    && (op == CleanUsers(input) ==> record.activeUsers == {})
    && (op == RemoveObjects(input) ==> record.documents == map[] && record.retrievalState == map[])
    && (op == CommitInactive(input) ==> record.state == Inactive)
  }

  ghost predicate TasksOk(f: Fleet) {
    && f.replies <= f.tasks
    && forall k, op :: (k, op) in f.tasks ==> k < |f.runs| && Justified(f.runs[k], op)
  }

  ghost predicate RepliesOk(f: Fleet) {
    forall k, op :: (k, op) in f.replies ==> k < |f.runs| && Achieved(f.record, f.runs[k].input, op)
  }

  /** A completed action stands on the success of the activity it awaited. */
  predicate RunOk(r: DeactivationRun, k: nat, replies: set<(nat, Operation)>) {
    && r.position <= 9
    && (r.recording || r.status == FailedAfterFence ==> r.position >= 1)
    && (r.position >= 1 ==> (k, FenceOperation(r.input)) in replies)
    && (r.position >= 6 ==> (k, CleanUsers(r.input)) in replies)
    && (r.position >= 7 ==> (k, RemoveObjects(r.input)) in replies)
    && (r.position >= 8 ==> (k, CommitInactive(r.input)) in replies)
  }

  ghost predicate RunsOk(f: Fleet) {
    forall k :: 0 <= k < |f.runs| ==> RunOk(f.runs[k], k, f.replies)
  }

  ghost predicate FleetInv(f: Fleet) {
    TasksOk(f) && RepliesOk(f) && RunsOk(f) && (f.record.state == Inactive ==> Empty(f.record))
  }

  // ---- preservation ----

  /** An activity of a run, executed now: either refused, or it achieves what it is for. */
  lemma ExecutionAchieves(record: Record, r: DeactivationRun, op: Operation)
    requires Justified(r, op) && Apply(record, op).Ok?
    ensures Achieved(After(record, op), r.input, op)
  {
  }

  lemma AchievementsLast(record: Record, op: Operation, input: RunInput, earlier: Operation)
    requires Achieved(record, input, earlier)
    ensures Achieved(After(record, op), input, earlier)
  {
    FencedCall(record, op);
    hide Apply;
  }

  lemma RepliesLast(f: Fleet, op: Operation)
    requires RepliesOk(f)
    ensures RepliesOk(f.(record := After(f.record, op)))
  {
    forall k, earlier | (k, earlier) in f.replies
      ensures k < |f.runs| && Achieved(After(f.record, op), f.runs[k].input, earlier)
    {
      AchievementsLast(f.record, op, f.runs[k].input, earlier);
    }
    hide Achieved, After;
  }

  lemma InactiveNeedsEmpty(f: Fleet, k: nat, op: Operation)
    requires FleetInv(f) && (k, op) in f.tasks && Apply(f.record, op).Ok?
    requires After(f.record, op).state == Inactive
    ensures Empty(After(f.record, op))
  {
    var r := f.runs[k];
    assert Justified(r, op) && RunOk(r, k, f.replies);
    if op == CommitInactive(r.input) {
      assert Achieved(f.record, r.input, CleanUsers(r.input));
      assert Achieved(f.record, r.input, RemoveObjects(r.input));
    } else {
      assert f.record.state == Inactive;
      FencedCall(f.record, op);
    }
  }

  lemma ExecuteReplies(f: Fleet, k: nat, op: Operation)
    requires TasksOk(f) && RepliesOk(f) && (k, op) in f.tasks && Apply(f.record, op).Ok?
    ensures RepliesOk(ExecuteStep(f, k, op))
  {
    RepliesLast(f, op);
    ExecutionAchieves(f.record, f.runs[k], op);
    hide Achieved, Apply, Justified;
  }

  lemma ExecuteInv(f: Fleet, k: nat, op: Operation)
    requires FleetInv(f) && (k, op) in f.tasks
    ensures FleetInv(ExecuteStep(f, k, op))
  {
    if Apply(f.record, op).Ok? {
      ExecuteReplies(f, k, op);
      if After(f.record, op).state == Inactive {
        InactiveNeedsEmpty(f, k, op);
      }
    }
    hide Apply, Justified, RepliesOk, Empty;
  }

  lemma OutsideInv(f: Fleet, op: Operation)
    requires FleetInv(f) && IsOutside(op)
    ensures FleetInv(f.(record := After(f.record, op)))
  {
    RepliesLast(f, op);
    hide TasksOk, RepliesOk, RunsOk;
  }

  lemma StartRunInv(f: Fleet, input: RunInput)
    requires FleetInv(f)
    ensures FleetInv(FleetStep(f, StartRun(input)))
  {
    hide Achieved, Empty;
  }

  lemma StillJustified(r: DeactivationRun, a: RunAction, op: Operation)
    requires Justified(r, op)
    ensures Justified(RunAfter(r, a), op)
  {
  }

  lemma NewlyJustified(f: Fleet, k: nat, a: RunAction, op: Operation)
    requires CanAct(f, k, a) && op in Scheduled(f.runs[k], a)
    ensures Justified(RunAfter(f.runs[k], a), op)
  {
  }

  lemma ActTasks(f: Fleet, k: nat, a: RunAction)
    requires TasksOk(f) && CanAct(f, k, a)
    ensures TasksOk(ActStep(f, k, a))
  {
    var g := ActStep(f, k, a);
    forall j, op | (j, op) in g.tasks ensures j < |g.runs| && Justified(g.runs[j], op) {
      if (j, op) in f.tasks {
        StillJustified(f.runs[j], a, op);
      } else {
        NewlyJustified(f, k, a, op);
      }
      hide Justified, CanAct;
    }
  }

  lemma ActRun(f: Fleet, k: nat, a: RunAction)
    requires CanAct(f, k, a) && RunOk(f.runs[k], k, f.replies)
    ensures RunOk(RunAfter(f.runs[k], a), k, f.replies)
  {
  }

  lemma ActInv(f: Fleet, k: nat, a: RunAction)
    requires FleetInv(f) && CanAct(f, k, a)
    ensures FleetInv(ActStep(f, k, a))
  {
    ActTasks(f, k, a);
    ActRun(f, k, a);
    assert RunAfter(f.runs[k], a).input == f.runs[k].input;
    hide TasksOk, RunOk, Achieved, Empty, RunAfter, CanAct;
  }

  lemma FleetStepInv(f: Fleet, a: FleetAction)
    requires FleetInv(f)
    ensures FleetInv(FleetStep(f, a))
  {
    match a
    case StartRun(input) => StartRunInv(f, input);
    case Execute(k, op) => if (k, op) in f.tasks { ExecuteInv(f, k, op); }
    case OutsideCall(op) => if IsOutside(op) { OutsideInv(f, op); }
    case Act(k, act) => if CanAct(f, k, act) { ActInv(f, k, act); }
    hide FleetInv, CanAct, ExecuteStep, ActStep;
  }

  lemma {:induction false} RunFleetInv(r: Record, actions: seq<FleetAction>)
    requires Writable(r)
    ensures FleetInv(RunFleet(Provisioned(r), actions))
  {
    if actions != [] {
      hide FleetInv, FleetStep;
      RunFleetInv(r, actions[..|actions| - 1]);
      FleetStepInv(RunFleet(Provisioned(r), actions[..|actions| - 1]), actions[|actions| - 1]);
    }
  }

  lemma InactiveStep(f: Fleet, a: FleetAction)
    requires f.record.state == Inactive
    ensures FleetStep(f, a).record == f.record
  {
    if a.Execute? || a.OutsideCall? {
      FencedCall(f.record, a.operation);
    }
    hide CanAct, RunAfter, Scheduled, Apply;
  }

  lemma {:induction false} InactiveStays(f: Fleet, actions: seq<FleetAction>)
    requires f.record.state == Inactive
    ensures RunFleet(f, actions).record == f.record
  {
    if actions != [] {
      InactiveStays(f, actions[..|actions| - 1]);
      InactiveStep(RunFleet(f, actions[..|actions| - 1]), actions[|actions| - 1]);
      hide FleetStep;
    }
  }

  /**
   For a store provisioned writable, in every interleaving of deactivation runs with writers and with
   activities executed late, repeatedly or without a response, an INACTIVE record has no documents, no
   retrieval state and no active users, and nothing changes it any more.
   */
  lemma InactiveIsEmptyForever(r: Record, actions: seq<FleetAction>, more: seq<FleetAction>)
    requires Writable(r)
    ensures var f := RunFleet(Provisioned(r), actions);
            f.record.state == Inactive ==> Empty(f.record) && RunFleet(f, more).record == f.record
  {
    hide Writable, RunFleet;
    var f := RunFleet(Provisioned(r), actions);
    RunFleetInv(r, actions);
    if f.record.state == Inactive {
      InactiveStays(f, more);
    }
    hide TasksOk, RepliesOk, RunsOk, Empty;
  }

  /** A run that reports completion has really made its store INACTIVE, under its own generation. */
  lemma CompletedRunsAreInactive(r: Record, actions: seq<FleetAction>, k: nat)
    requires Writable(r)
    ensures var f := RunFleet(Provisioned(r), actions);
            k < |f.runs| && f.runs[k].position >= 8 ==>
              f.record.state == Inactive && f.record.generation == FencedGeneration(f.runs[k].input)
              && Empty(f.record)
  {
    hide Writable, RunFleet;
    var f := RunFleet(Provisioned(r), actions);
    RunFleetInv(r, actions);
    hide FleetInv;
    if k < |f.runs| && f.runs[k].position >= 8 {
      assert RunOk(f.runs[k], k, f.replies) by { RunsParts(f); }
      assert (k, CommitInactive(f.runs[k].input)) in f.replies;
      RunsParts(f);
    }
  }

  lemma RunsParts(f: Fleet)
    requires FleetInv(f)
    ensures RunsOk(f) && RepliesOk(f) && TasksOk(f) && (f.record.state == Inactive ==> Empty(f.record))
  {
  }

  lemma {:induction false} GenerationMovesOnce(r: Record, actions: seq<FleetAction>)
    requires Writable(r)
    ensures var f := RunFleet(Provisioned(r), actions);
            f.record.generation == if Writable(f.record) then r.generation else r.generation + 1
  {
    if actions != [] {
      var f := RunFleet(Provisioned(r), actions[..|actions| - 1]);
      GenerationMovesOnce(r, actions[..|actions| - 1]);
      RecordStep(f, actions[|actions| - 1]);
      hide FleetStep;
    }
  }

  lemma RecordStep(f: Fleet, a: FleetAction)
    ensures var s := FleetStep(f, a).record;
            && (!Writable(f.record) ==> !Writable(s) && s.generation == f.record.generation)
            && (Writable(f.record) ==>
                  s.generation == if Writable(s) then f.record.generation else f.record.generation + 1)
  {
    hide CanAct, RunAfter, Scheduled;
  }

  lemma RunFleetAppend(f: Fleet, actions: seq<FleetAction>, a: FleetAction)
    ensures RunFleet(f, actions + [a]) == FleetStep(RunFleet(f, actions), a)
  {
    assert (actions + [a])[..|actions|] == actions;
  }

  // ---- what a failed run says about its store ----

  /** Some run's fence activity has succeeded, whether or not its response arrived. */
  ghost predicate SomeFenceExecuted(f: Fleet) {
    exists k: nat :: k < |f.runs| && (k, FenceOperation(f.runs[k].input)) in f.replies
  }

  lemma WriterKeepsWritable(r: Record, op: Operation)
    requires IsOutside(op)
    ensures Writable(After(r, op)) <==> Writable(r)
  {
  }

  lemma FencedAfterAFence(f: Fleet)
    requires FleetInv(f) && SomeFenceExecuted(f)
    ensures !Writable(f.record)
  {
    var k: nat :| k < |f.runs| && (k, FenceOperation(f.runs[k].input)) in f.replies;
    assert Achieved(f.record, f.runs[k].input, FenceOperation(f.runs[k].input));
  }

  /** Whatever activity has succeeded, the fence of its run had succeeded too. */
  lemma RepliesNeedAFence(f: Fleet, k: nat, op: Operation)
    requires FleetInv(f) && (k, op) in f.replies
    ensures SomeFenceExecuted(f)
  {
    assert Justified(f.runs[k], op) && RunOk(f.runs[k], k, f.replies);
    assert (k, FenceOperation(f.runs[k].input)) in f.replies;
  }

  /** Only a successful activity closes a writable store. */
  lemma StepFences(f: Fleet, a: FleetAction)
    requires FleetInv(f) && Writable(f.record) && !Writable(FleetStep(f, a).record)
    ensures SomeFenceExecuted(FleetStep(f, a))
  {
    FleetStepInv(f, a);
    if a.OutsideCall? && IsOutside(a.operation) {
      WriterKeepsWritable(f.record, a.operation);
    }
    assert a.Execute? && (a.run, a.operation) in FleetStep(f, a).replies;
    hide *;
    RepliesNeedAFence(FleetStep(f, a), a.run, a.operation);
  }

  lemma FencesLast(f: Fleet, a: FleetAction)
    requires SomeFenceExecuted(f)
    ensures SomeFenceExecuted(FleetStep(f, a))
  {
    var k: nat :| k < |f.runs| && (k, FenceOperation(f.runs[k].input)) in f.replies;
    var g := FleetStep(f, a);
    assert k < |g.runs| && g.runs[k].input == f.runs[k].input;
    hide FenceOperation, CanAct, Apply, Scheduled, IsOutside;
    assert (k, FenceOperation(g.runs[k].input)) in g.replies;
  }

  /**
   The store is writable exactly as long as no fence activity has succeeded.  So a run that failed before
   its fence leaves it ACTIVE or SYNCING exactly then, and a fence that commits late still closes it.
   */
  lemma {:induction false} WritableUntilAFence(r: Record, actions: seq<FleetAction>)
    requires Writable(r)
    ensures var f := RunFleet(Provisioned(r), actions); Writable(f.record) <==> !SomeFenceExecuted(f)
  {
    hide FleetInv, FleetStep, Writable;
    var g := RunFleet(Provisioned(r), actions);
    RunFleetInv(r, actions);
    if SomeFenceExecuted(g) {
      FencedAfterAFence(g);
    } else if actions != [] {
      var f, a := RunFleet(Provisioned(r), actions[..|actions| - 1]), actions[|actions| - 1];
      hide SomeFenceExecuted;
      WritableUntilAFence(r, actions[..|actions| - 1]);
      RunFleetInv(r, actions[..|actions| - 1]);
      if SomeFenceExecuted(f) {
        FencesLast(f, a);
      } else if !Writable(g.record) {
        StepFences(f, a);
      }
    }
  }

  /** A run that passed its fence, failed or not, leaves the store fenced under the run's own generation. */
  lemma RunsPastTheFenceAreFenced(r: Record, actions: seq<FleetAction>, k: nat)
    requires Writable(r)
    ensures var f := RunFleet(Provisioned(r), actions);
            k < |f.runs| && (f.runs[k].position >= 1 || f.runs[k].status == FailedAfterFence) ==>
              !Writable(f.record) && f.record.generation == FencedGeneration(f.runs[k].input)
  {
    hide RunFleet;
    var f := RunFleet(Provisioned(r), actions);
    RunFleetInv(r, actions);
    hide FleetInv;
    RunsParts(f);
    if k < |f.runs| {
      assert RunOk(f.runs[k], k, f.replies);
    }
  }

  /**
   Witness: before the fence the FAILED result alone does not settle the record, since the same failed run
   is left behind by a fence that never executed and by one that committed but whose response was lost.
   */
  lemma FailedRunLeavesStateOpen(r: Record)
    requires Writable(r)
    ensures var input := RunInput(r.generation, false, {});
            var lost := RunFleet(Provisioned(r), [StartRun(input), Act(0, FailBeforeFence)]);
            var committed := RunFleet(Provisioned(r), [StartRun(input), Execute(0, FenceOperation(input)),
                                                       Act(0, FailBeforeFence)]);
            && lost.runs == committed.runs == [NewRun(input).(status := FailedBeforeFence)]
            && lost.record == r && committed.record.state == Deactivating
            && committed.record.generation == r.generation + 1
  {
    var input := RunInput(r.generation, false, {});
    var start, fail := StartRun(input), Act(0, FailBeforeFence);
    var fence := Execute(0, FenceOperation(input));
    var f0 := Provisioned(r);
    RunFleetAppend(f0, [], start);
    RunFleetAppend(f0, [start], fail);
    RunFleetAppend(f0, [start], fence);
    RunFleetAppend(f0, [start, fence], fail);
    assert [] + [start] == [start] && [start] + [fail] == [start, fail];
    assert [start] + [fence] == [start, fence] && [start, fence] + [fail] == [start, fence, fail];
    hide RunFleet;
    var f1 := FleetStep(f0, start);
    assert f1.runs == [NewRun(input)] && (0, FenceOperation(input)) in f1.tasks;
  }
}
