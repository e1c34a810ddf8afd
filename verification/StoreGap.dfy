/**
 The documented recovery gap as a run of the whole system: a fence commits, the controller continues
 as new before the fence Signal is processed, and the failure of the deactivation then makes the
 controller ACTIVE over a store that is fenced for good.
 */
module StoreGap {
  import opened Collections
  import opened StoreRepository
  import opened StoreDeactivation
  import opened StoreController
  import opened StoreSystem

  function Three(y: System, a: SystemAction, b: SystemAction, c: SystemAction): System {
    SystemStep(SystemStep(SystemStep(y, a), b), c)
  }

  lemma OneMore(y: System, actions: seq<SystemAction>, a: SystemAction)
    ensures RunSystem(y, actions + [a]) == SystemStep(RunSystem(y, actions), a)
  {
    hide SystemStep;
    assert (actions + [a])[..|actions|] == actions;
  }

  lemma ThreeMore(y: System, actions: seq<SystemAction>, a: SystemAction, b: SystemAction, c: SystemAction)
    ensures RunSystem(y, actions + [a, b, c]) == Three(RunSystem(y, actions), a, b, c)
  {
    hide SystemStep, RunSystem;
    OneMore(y, actions, a);
    OneMore(y, actions + [a], b);
    OneMore(y, actions + [a] + [b], c);
    assert actions + [a, b, c] == actions + [a] + [b] + [c];
  }

  /** A deactivation without operations is active, and the controller does not know that its fence committed. */
  predicate Unfenced(c: Controller, generation: int, target: OpId) {
    && c.initialized && c.lifecycle == Deactivating && c.generation == generation && !c.fenced
    && c.deactivation == Some(target) && c.syncs == {} && c.remediations == {}
  }

  /** The deactivation was started from generation `g`, and its fence is scheduled. */
  predicate Started(y: System, g: int) {
    && Unfenced(y.controller, g, DeactivationId(g + 1)) && y.answers == {}
    && y.fleet.record.state == Active && y.fleet.record.generation == g
    && y.fleet.runs == [NewRun(RunInput(g, false, {}))] && (0, BeginDeactivation(g)) in y.fleet.tasks
  }

  /** The fence committed and was signalled. */
  predicate Committed(y: System, g: int) {
    && y.answers == {} && y.fleet.record.state == Deactivating && y.fleet.record.generation == g + 1
    && y.fleet.runs == [NewRun(RunInput(g, false, {})).(position := 2, warned := true)]
    && DeactivationFenced(DeactivationId(g + 1), g + 1) in y.mail
  }

  lemma StartsDeactivation(y: System, id: Key)
    requires Fresh(y) && Find(y.controller.recent, id).None?
    ensures var g := y.fleet.record.generation;
            Started(Three(y, ReadAuthority, ApplyAnswer((Active, g)), Submit(StartDeactivation(id, g), true)), g)
  {
    var g := y.fleet.record.generation;
    var ready := SystemStep(SystemStep(y, ReadAuthority), ApplyAnswer((Active, g)));
    assert ready.controller == Initialize(y.controller, Active, g) && ready.fleet == y.fleet;
    var input := DeactivationInput(ready.controller, g);
    assert input == RunInput(g, false, {});
    var h := Handle(ready.controller, StartDeactivation(id, g), true);
    assert h.effects == [StartDeactivationChild(DeactivationId(g + 1), input)];
    OneEffectPerformed(ready.fleet, h.effects);
    hide Find, Remember;
    RememberFrame(ready.controller, h.controller, id, g);
  }

  lemma RememberFrame(c: Controller, d: Controller, id: Key, g: int)
    requires d == HandleStartDeactivation(c, id, g, true).controller && Find(c.recent, id).None?
    requires c.deactivation.None? && c.lifecycle == Active && c.generation == g && c.initialized
    requires c.syncs == {} && c.remediations == {}
    ensures Unfenced(d, g, DeactivationId(g + 1))
  {
    hide Find, Replace, Newest;
  }

  lemma CommitsFence(y: System, g: int)
    requires Started(y, g)
    ensures var z := Three(y, Progress(Execute(0, BeginDeactivation(g))), Progress(Act(0, PassFence)),
                           Progress(Act(0, Proceed(true))));
            Committed(z, g) && z.controller == y.controller
  {
    var executed := SystemStep(y, Progress(Execute(0, BeginDeactivation(g))));
    assert (0, BeginDeactivation(g)) in executed.fleet.replies && executed.fleet.runs == y.fleet.runs;
    var passed := SystemStep(executed, Progress(Act(0, PassFence)));
    assert passed.fleet.runs == [NewRun(RunInput(g, false, {})).(position := 1)];
  }

  lemma ContinuesAsNew(y: System, g: int)
    requires Committed(y, g) && Unfenced(y.controller, g, DeactivationId(g + 1))
    ensures var z := Three(y, SystemAction.ContinueAsNew, ReadAuthority, ApplyAnswer((Deactivating, g + 1)));
            Committed(z, g) && Unfenced(z.controller, g + 1, DeactivationId(g + 1))
  {
    hide FleetStep, Handle;
  }

  lemma FailsIntoActive(y: System, g: int)
    requires Committed(y, g) && Unfenced(y.controller, g + 1, DeactivationId(g + 1))
    ensures var z := Three(y, Progress(Act(0, FailAfterFence)), Progress(Act(0, FinishFailure)),
                           Receive(OperationStatus(DeactivationId(g + 1), g + 1, true, false)));
            && z.controller.initialized && z.controller.lifecycle == Active && z.controller.deactivation.None?
            && z.controller.generation == z.fleet.record.generation == g + 1 && !Writable(z.fleet.record)
  {
    var failing := SystemStep(y, Progress(Act(0, FailAfterFence)));
    assert failing.fleet.runs == [y.fleet.runs[0].(recording := true)] && failing.controller == y.controller;
    var failed := SystemStep(failing, Progress(Act(0, FinishFailure)));
    var event := OperationStatus(DeactivationId(g + 1), g + 1, true, false);
    assert event in failed.mail && failed.controller == y.controller && failed.fleet.record == y.fleet.record;
    assert Handle(failed.controller, event, true).effects == [];
  }

  /**
   From any fresh system a run leads to a controller that is ACTIVE, with no deactivation, over a record
   that is fenced under the very generation the controller shows.
   */
  lemma GapIsReachable(y: System, id: Key) returns (actions: seq<SystemAction>)
    requires Fresh(y) && Find(y.controller.recent, id).None?
    ensures var z := RunSystem(y, actions);
            && z.controller.initialized && z.controller.lifecycle == Active && z.controller.deactivation.None?
            && z.controller.generation == z.fleet.record.generation && !Writable(z.fleet.record)
  {
    var g := y.fleet.record.generation;
    var failed := OperationStatus(DeactivationId(g + 1), g + 1, true, false);
    var fence := Execute(0, BeginDeactivation(g));
    StartsDeactivation(y, id);
    assert RunSystem(y, []) == y;
    hide *;
    actions := [ReadAuthority, ApplyAnswer((Active, g)), Submit(StartDeactivation(id, g), true)];
    assert [] + actions == actions;
    ThreeMore(y, [], actions[0], actions[1], actions[2]);
    var started := RunSystem(y, actions);
    StartedIsUnfenced(started, g);

    CommitsFence(started, g);
    ThreeMore(y, actions, Progress(fence), Progress(Act(0, PassFence)), Progress(Act(0, Proceed(true))));
    actions := actions + [Progress(fence), Progress(Act(0, PassFence)), Progress(Act(0, Proceed(true)))];

    ContinuesAsNew(RunSystem(y, actions), g);
    ThreeMore(y, actions, SystemAction.ContinueAsNew, ReadAuthority, ApplyAnswer((Deactivating, g + 1)));
    actions := actions + [SystemAction.ContinueAsNew, ReadAuthority, ApplyAnswer((Deactivating, g + 1))];

    FailsIntoActive(RunSystem(y, actions), g);
    ThreeMore(y, actions, Progress(Act(0, FailAfterFence)), Progress(Act(0, FinishFailure)), Receive(failed));
    actions := actions + [Progress(Act(0, FailAfterFence)), Progress(Act(0, FinishFailure)), Receive(failed)];
  }

  lemma StartedIsUnfenced(y: System, g: int)
    requires Started(y, g)
    ensures Unfenced(y.controller, g, DeactivationId(g + 1))
  {
  }
}
