/** What a SUCCEEDED deactivation says about the operations it was started over, over whole runs. */
module StoreDrain {
  import opened StoreRepository
  import opened StoreDeactivation
  import opened StoreController
  import opened StoreSystem

  predicate Registered(c: Controller, op: OpId) {
    op in c.syncs || op in c.remediations
  }

  /** Run `k` has started, still waits for its drain, and has not even scheduled its user cleanup. */
  predicate BeforeCleanup(f: Fleet, k: nat) {
    k < |f.runs| && f.runs[k].position < 5 && (k, CleanUsers(f.runs[k].input)) !in f.tasks
  }

  /** The step from `y` to `z` takes `op` off the registry of the controller whose open deactivation is run `k`. */
  predicate Leaves(y: System, z: System, k: nat, op: OpId) {
    && y.controller.deactivation.Some? && IsOpen(y.fleet, k, y.controller.deactivation.value)
    && Registered(y.controller, op) && !Registered(z.controller, op)
    && BeforeCleanup(z.fleet, k)
  }

  predicate LeavesAt(y: System, actions: seq<SystemAction>, k: nat, op: OpId, i: nat) {
    i < |actions| && Leaves(RunSystem(y, actions[..i]), RunSystem(y, actions[..i + 1]), k, op)
  }

  ghost predicate LeftBeforeCleanup(y: System, actions: seq<SystemAction>, k: nat, op: OpId) {
    exists i: nat :: LeavesAt(y, actions, k, op, i)
  }

  lemma LongerRun(y: System, actions: seq<SystemAction>, n: nat, k: nat, op: OpId)
    requires n <= |actions| && LeftBeforeCleanup(y, actions[..n], k, op)
    ensures LeftBeforeCleanup(y, actions, k, op)
  {
    var i: nat :| LeavesAt(y, actions[..n], k, op, i);
    assert i < n;
    assert actions[..n][..i] == actions[..i] && actions[..n][..i + 1] == actions[..i + 1];
    hide RunSystem, Leaves;
    assert LeavesAt(y, actions, k, op, i);
  }

  // ---- one step of a run ----

  /** `s` is `r` one system step later: the plan only advances, and it passes its drain wait on what it saw. */
  predicate Steps(r: DeactivationRun, s: DeactivationRun) {
    && s.input == r.input && r.position <= s.position && (r.warned ==> s.warned)
    && (r.position < 5 <= s.position && !s.warned ==> r.input.operations <= r.drained)
  }

  lemma ActSteps(f: Fleet, k: nat, a: RunAction)
    requires CanAct(f, k, a)
    ensures Steps(f.runs[k], RunAfter(f.runs[k], a))
  {
    NothingLeft(f.runs[k].input.operations, f.runs[k].drained);
  }

  lemma StaysPut(r: DeactivationRun)
    ensures Steps(r, r)
  {
  }

  lemma FleetSteps(f: Fleet, a: FleetAction, k: nat)
    requires k < |f.runs|
    ensures k < |FleetStep(f, a).runs| && Steps(f.runs[k], FleetStep(f, a).runs[k])
  {
    StaysPut(f.runs[k]);
    if a.Act? && a.run == k && CanAct(f, k, a.action) {
      ActSteps(f, k, a.action);
    }
    hide Steps, CanAct, RunAfter, Apply;
  }

  lemma FleetAdds(f: Fleet, a: FleetAction, k: nat)
    requires |f.runs| <= k < |FleetStep(f, a).runs|
    ensures FleetStep(f, a).runs[k].position == 0 && FleetStep(f, a).runs[k].forwarded == {}
  {
    if a.StartRun? {
      assert FleetStep(f, a).runs[k] == NewRun(a.input);
    }
  }

  /** The two things an external call can do to the runs: start one, or hand one a drain Signal. */
  lemma PerformSteps(f: Fleet, e: Effect, k: nat)
    ensures k < |f.runs| ==> k < |Perform(f, e).runs| && Steps(f.runs[k], Perform(f, e).runs[k])
    ensures |f.runs| <= k < |Perform(f, e).runs| ==>
              Perform(f, e).runs[k].position == 0 && Perform(f, e).runs[k].forwarded == {}
  {
  }

  /** What one system step does to run `k`: it steps on, or it is new and empty. */
  predicate RunMoves(f: Fleet, g: Fleet, k: nat) {
    && (k < |f.runs| ==> k < |g.runs| && Steps(f.runs[k], g.runs[k]))
    && (|f.runs| <= k < |g.runs| ==> g.runs[k].position == 0 && g.runs[k].forwarded == {})
  }

  lemma HandleMoves(y: System, e: Envelope, ok: bool, k: nat)
    requires IdsOk(y.controller)
    ensures RunMoves(y.fleet, HandleIn(y, e, ok).fleet, k)
  {
    var es := Handle(y.controller, e, ok).effects;
    OneEffect(y.controller, e, ok);
    OneEffectPerformed(y.fleet, es);
    hide Handle, PerformAll, IdsOk, Perform, Steps;
    if es == [] {
      SameFleetMoves(y.fleet, k);
    } else {
      PerformSteps(y.fleet, es[0], k);
    }
  }

  lemma SameFleetMoves(f: Fleet, k: nat)
    ensures RunMoves(f, f, k)
  {
  }

  lemma FleetMoves(f: Fleet, a: FleetAction, k: nat)
    ensures RunMoves(f, FleetStep(f, a), k)
  {
    hide FleetStep, Steps;
    if k < |f.runs| {
      FleetSteps(f, a, k);
    } else if k < |FleetStep(f, a).runs| {
      FleetAdds(f, a, k);
    }
  }

  lemma SystemMoves(y: System, a: SystemAction, k: nat)
    requires SystemInv(y)
    ensures RunMoves(y.fleet, SystemStep(y, a).fleet, k)
  {
    assert IdsOk(y.controller);
    hide SystemInv, HandleIn, FleetStep, RunMoves, Enabled, IdsOk;
    SameFleetMoves(y.fleet, k);
    if Enabled(y, a) {
      match a
      case Submit(e, ok) => HandleMoves(y, e, ok, k);
      case Receive(e) => HandleMoves(y, e, true, k);
      case Progress(act) => FleetMoves(y.fleet, act, k);
      case _ =>
    }
  }

  // ---- whole runs ----

  lemma NotYetCleaning(y: System, k: nat)
    requires SystemInv(y) && k < |y.fleet.runs| && y.fleet.runs[k].position < 5
    ensures BeforeCleanup(y.fleet, k)
  {
    assert TasksOk(y.fleet);
    hide SystemInv;
  }

  lemma RunParts(y: System, k: nat)
    requires SystemInv(y) && k < |y.fleet.runs|
    ensures DrainOk(y.fleet.runs[k])
  {
    assert DrainsOk(y.fleet);
    hide SystemInv, DrainOk;
  }

  lemma OneMoreStep(y: System, actions: seq<SystemAction>)
    requires actions != []
    ensures var n := |actions| - 1;
            actions[..n + 1] == actions && RunSystem(y, actions) == SystemStep(RunSystem(y, actions[..n]), actions[n])
  {
    hide SystemStep;
  }

  /** What a run that still waits was told about left the registry at an earlier step of the whole run. */
  lemma {:induction false} ForwardedLeft(y: System, actions: seq<SystemAction>, k: nat, op: OpId)
    requires Fresh(y)
    ensures var f := RunSystem(y, actions).fleet;
            k < |f.runs| && f.runs[k].position < 5 && op in f.runs[k].forwarded ==>
              LeftBeforeCleanup(y, actions, k, op)
  {
    hide Fresh, SystemInv, SystemStep, LeftBeforeCleanup;
    var z := RunSystem(y, actions);
    if k < |z.fleet.runs| && z.fleet.runs[k].position < 5 && op in z.fleet.runs[k].forwarded {
      if actions == [] {
        NothingStarted(y);
      } else {
        var n := |actions| - 1;
        ForwardedLeft(y, actions[..n], k, op);
        RunSystemInv(y, actions);
        RunSystemInv(y, actions[..n]);
        OneMoreStep(y, actions);
        hide RunSystem;
        ForwardedStep(y, actions, k, op);
      }
    }
  }

  lemma NothingStarted(y: System)
    requires Fresh(y)
    ensures y.fleet.runs == []
  {
  }

  lemma ForwardedStep(y: System, actions: seq<SystemAction>, k: nat, op: OpId)
    requires actions != []
    requires var n := |actions| - 1; var before, z := RunSystem(y, actions[..n]), RunSystem(y, actions);
             && SystemInv(before) && SystemInv(z) && z == SystemStep(before, actions[n]) && actions[..n + 1] == actions
             && k < |z.fleet.runs| && z.fleet.runs[k].position < 5 && op in z.fleet.runs[k].forwarded
             && (k < |before.fleet.runs| && before.fleet.runs[k].position < 5 && op in before.fleet.runs[k].forwarded
                 ==> LeftBeforeCleanup(y, actions[..n], k, op))
    ensures LeftBeforeCleanup(y, actions, k, op)
  {
    hide SystemInv, SystemStep, RunSystem, LeftBeforeCleanup, BeforeCleanup, IsOpen;
    var n := |actions| - 1;
    var before, z := RunSystem(y, actions[..n]), RunSystem(y, actions);
    SystemMoves(before, actions[n], k);
    assert k < |before.fleet.runs| && before.fleet.runs[k].position < 5;
    if op in before.fleet.runs[k].forwarded {
      LongerRun(y, actions, n, k, op);
    } else {
      ForwardedMeansLeft(before, actions[n], k, op);
      NotYetCleaning(z, k);
      assert LeavesAt(y, actions, k, op, n);
      LeavesSomewhere(y, actions, k, op, n);
    }
  }

  lemma LeavesSomewhere(y: System, actions: seq<SystemAction>, k: nat, op: OpId, i: nat)
    requires LeavesAt(y, actions, k, op, i)
    ensures LeftBeforeCleanup(y, actions, k, op)
  {
    hide LeavesAt;
  }

  /** An operation of a run that passed its drain wait without a warning left before the run could clean up. */
  lemma {:induction false} DrainedLeft(y: System, actions: seq<SystemAction>, k: nat, op: OpId)
    requires Fresh(y)
    ensures var f := RunSystem(y, actions).fleet;
            k < |f.runs| && f.runs[k].position >= 5 && !f.runs[k].warned && op in f.runs[k].input.operations ==>
              LeftBeforeCleanup(y, actions, k, op)
  {
    hide Fresh, SystemInv, SystemStep, LeftBeforeCleanup;
    var z := RunSystem(y, actions);
    if k < |z.fleet.runs| && z.fleet.runs[k].position >= 5 && !z.fleet.runs[k].warned
       && op in z.fleet.runs[k].input.operations
    {
      if actions == [] {
        NothingStarted(y);
      } else {
        var n := |actions| - 1;
        DrainedLeft(y, actions[..n], k, op);
        ForwardedLeft(y, actions[..n], k, op);
        RunSystemInv(y, actions[..n]);
        OneMoreStep(y, actions);
        hide RunSystem;
        DrainedStep(y, actions, k, op);
      }
    }
  }

  lemma DrainedStep(y: System, actions: seq<SystemAction>, k: nat, op: OpId)
    requires actions != []
    requires var n := |actions| - 1; var before, z := RunSystem(y, actions[..n]), RunSystem(y, actions);
             && SystemInv(before) && z == SystemStep(before, actions[n])
             && k < |z.fleet.runs| && z.fleet.runs[k].position >= 5 && !z.fleet.runs[k].warned
             && op in z.fleet.runs[k].input.operations
             && (k < |before.fleet.runs| ==>
                   var r := before.fleet.runs[k];
                   && (r.position >= 5 && !r.warned && op in r.input.operations ==>
                         LeftBeforeCleanup(y, actions[..n], k, op))
                   && (r.position < 5 && op in r.forwarded ==> LeftBeforeCleanup(y, actions[..n], k, op)))
    ensures LeftBeforeCleanup(y, actions, k, op)
  {
    hide SystemInv, SystemStep, RunSystem, LeftBeforeCleanup;
    var n := |actions| - 1;
    var before := RunSystem(y, actions[..n]);
    SystemMoves(before, actions[n], k);
    RunParts(before, k);
    LongerRun(y, actions, n, k, op);
  }

  /**
   Over every run of the whole system: each operation a SUCCEEDED deactivation was started over left the
   controller's registry while that deactivation was open and active, and before it could clean up a user.
   */
  lemma SucceededMeansDrained(y: System, actions: seq<SystemAction>, k: nat, op: OpId)
    requires Fresh(y)
    ensures var f := RunSystem(y, actions).fleet;
            k < |f.runs| && f.runs[k].status == Succeeded && op in f.runs[k].input.operations ==>
              exists i: nat :: LeavesAt(y, actions, k, op, i)
  {
    hide Fresh, SystemInv, RunSystem, LeavesAt;
    RunSystemInv(y, actions);
    DrainedLeft(y, actions, k, op);
    var z := RunSystem(y, actions);
    if k < |z.fleet.runs| {
      RunParts(z, k);
    }
  }
}
