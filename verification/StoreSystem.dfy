/**
 The store end to end: the controller, its deactivation runs, the repository, and Signals that may
 arrive late, out of order, more than once or never.
 */
module StoreSystem {
  import opened Collections
  import opened StoreRepository
  import opened StoreDeactivation
  import opened StoreController

  /** `mail` holds what deactivation runs signalled; `answers` the repository reads of this controller run. */
  datatype System = System(
    fleet: Fleet, controller: Controller, mail: set<Envelope>, answers: set<(LifecycleState, int)>)

  datatype SystemAction =
    | Submit(envelope: Envelope, ok: bool)    // an Update, or a Signal of a sync or remediation
    | Receive(envelope: Envelope)             // a Signal of a deactivation run
    | Progress(action: FleetAction)           // activities, writers and deactivation runs
    | ReadAuthority                           // the initial repository read executes
    | ApplyAnswer(answer: (LifecycleState, int))
    | ContinueAsNew

  /** What the syncs, the remediations and the callers of Updates can send. */
  predicate FromOutside(e: Envelope) {
    match e
    case OperationStatus(op, _, _, _) => !op.DeactivationId?
    case RemediationStarted(op) => op.RemediationId?
    case RemediationFinished(op, _, _, _) => op.RemediationId?
    case DeactivationFenced(_, _) => false
    case _ => true
  }

  function WorkflowId(r: DeactivationRun): OpId {
    DeactivationId(FencedGeneration(r.input))
  }

  predicate IsOpen(f: Fleet, k: nat, id: OpId) {
    k < |f.runs| && WorkflowId(f.runs[k]) == id && f.runs[k].status == Running
  }

  /** A workflow ID can be started again only when its last run is closed. */
  predicate CanStart(f: Fleet, e: Envelope, c: Controller) {
    e.StartDeactivation? ==>
      forall k :: 0 <= k < |f.runs| ==>
        !IsOpen(f, k, DeactivationId(FencedGeneration(DeactivationInput(c, e.expected))))
  }

  function Forwarded(r: DeactivationRun, id: OpId, op: OpId): DeactivationRun {
    if WorkflowId(r) == id && r.status == Running then r.(forwarded := r.forwarded + {op}) else r
  }

  /** A drain Signal reaches the open run with that workflow ID, if there is one. */
  function Forward(f: Fleet, id: OpId, op: OpId): Fleet {
    f.(runs := seq(|f.runs|, k requires 0 <= k < |f.runs| => Forwarded(f.runs[k], id, op)))
  }

  function Perform(f: Fleet, e: Effect): Fleet {
    match e
    case StartDeactivationChild(_, input) => FleetStep(f, StartRun(input))
    case ForwardDrained(target, op) => Forward(f, target, op)
    case _ => f
  }

  function PerformAll(f: Fleet, es: seq<Effect>): Fleet {
    if es == [] then f else Perform(PerformAll(f, es[..|es| - 1]), es[|es| - 1])
  }

  function HandleIn(y: System, e: Envelope, ok: bool): System {
    var h := Handle(y.controller, e, ok);
    y.(controller := h.controller, fleet := PerformAll(y.fleet, h.effects))
  }

  /** The Signals a run sends with an action, whether or not it is told that they arrived. */
  function Signals(r: DeactivationRun, a: RunAction): set<Envelope> {
    var g := FencedGeneration(r.input);
    match a
    case FailBeforeFence => {OperationStatus(WorkflowId(r), r.input.expected, true, false)}
    case Proceed(_) => if r.position == 1 then {DeactivationFenced(WorkflowId(r), g)} else {}
    case Report(_) => {OperationStatus(WorkflowId(r), g, true, true)}
    case FinishFailure => {OperationStatus(WorkflowId(r), g, true, false)}
    case _ => {}
  }

  function ProgressIn(y: System, a: FleetAction): System {
    var next := FleetStep(y.fleet, a);
    y.(fleet := next,
       mail := if a.Act? && CanAct(y.fleet, a.run, a.action) then y.mail + Signals(y.fleet.runs[a.run], a.action)
               else y.mail)
  }

  predicate Enabled(y: System, a: SystemAction) {
    match a
    case Submit(e, ok) => y.controller.initialized && FromOutside(e) && (ok ==> CanStart(y.fleet, e, y.controller))
    case Receive(e) => y.controller.initialized && e in y.mail
    case Progress(act) => !act.StartRun?
    case ReadAuthority => !y.controller.initialized
    case ApplyAnswer(answer) => !y.controller.initialized && answer in y.answers
    case ContinueAsNew => y.controller.initialized
  }

  function SystemStep(y: System, a: SystemAction): System {
    if !Enabled(y, a) then y
    else
      match a
      case Submit(e, ok) => HandleIn(y, e, ok)
      case Receive(e) => HandleIn(y, e, true)
      case Progress(act) => ProgressIn(y, act)
      case ReadAuthority => y.(answers := y.answers + {(y.fleet.record.state, y.fleet.record.generation)})
      case ApplyAnswer(answer) => y.(controller := Initialize(y.controller, answer.0, answer.1), answers := {})
      case ContinueAsNew => y.(controller := CarriedOver(y.controller), answers := {})
  }

  function RunSystem(y: System, actions: seq<SystemAction>): System {
    if actions == [] then y else SystemStep(RunSystem(y, actions[..|actions| - 1]), actions[|actions| - 1])
  }

  /** A store provisioned ACTIVE whose controller has not run yet. */
  ghost predicate Fresh(y: System) {
    && y.fleet == Provisioned(y.fleet.record) && y.fleet.record.state == Active
    && y.controller.generation <= y.fleet.record.generation
    && y.controller.lifecycle != Inactive && y.controller.syncs == {} && y.controller.remediations == {}
    && y.controller.deactivation.None? && !y.controller.initialized
    && y.mail == {} && y.answers == {}
  }

  // ---- the invariant ----

  /** A Signal tells the truth about the repository, and what it tells stays true. */
  predicate Truthful(record: Record, e: Envelope) {
    match e
    case OperationStatus(op, g, terminal, succeeded) =>
      op.DeactivationId? && g <= record.generation && (succeeded ==> record.state == Inactive)
    case DeactivationFenced(op, g) => op.DeactivationId? && g <= record.generation && !Writable(record)
    case _ => false
  }

  ghost predicate MailOk(mail: set<Envelope>, record: Record) {
    forall e :: e in mail ==> Truthful(record, e)
  }

  /** What the controller holds about the repository is at worst out of date. */
  predicate Behind(lifecycle: LifecycleState, generation: int, record: Record) {
    generation <= record.generation && (lifecycle == Inactive ==> record.state == Inactive)
  }

  ghost predicate AnswersOk(y: System) {
    && (y.controller.initialized ==> y.answers == {})
    && forall s, g :: (s, g) in y.answers ==>
         Behind(s, g, y.fleet.record) && s != Syncing && y.controller.generation <= g
  }

  ghost predicate AuthorityOk(y: System) {
    && Behind(y.controller.lifecycle, y.controller.generation, y.fleet.record)
    && IdsOk(y.controller) && |y.controller.syncs| <= 1
    && (y.controller.initialized ==> StatusOk(y.controller))
  }

  /** A run was started by the controller, from a generation that was not ahead of the repository. */
  ghost predicate InputsOk(f: Fleet) {
    forall k :: 0 <= k < |f.runs| ==> f.runs[k].input.expected <= f.record.generation
  }

  /**
   Only forwarded drains are handled, a wait that ended without a warning saw all of them, and a run
   has succeeded only past its wait and without a warning.
   */
  predicate DrainOk(r: DeactivationRun) {
    && r.drained <= r.forwarded && (r.position >= 5 && !r.warned ==> r.input.operations <= r.drained)
    && (r.status == Succeeded ==> r.position >= 5 && !r.warned)
  }

  ghost predicate DrainsOk(f: Fleet) {
    forall k :: 0 <= k < |f.runs| ==> DrainOk(f.runs[k])
  }

  ghost predicate OneOpen(f: Fleet) {
    forall j, k :: 0 <= j < k < |f.runs| && WorkflowId(f.runs[j]) == WorkflowId(f.runs[k]) ==>
      f.runs[j].status != Running
  }

  /** Each operation an open run has to drain was forwarded to it or is still registered. */
  ghost predicate Accounted(f: Fleet, c: Controller) {
    c.deactivation.Some? ==>
      forall k :: 0 <= k < |f.runs| && IsOpen(f, k, c.deactivation.value) ==>
        forall op :: op in f.runs[k].input.operations ==>
          op in f.runs[k].forwarded || op in c.syncs || op in c.remediations
  }

  ghost predicate SystemInv(y: System) {
    && FleetInv(y.fleet) && y.fleet.record.state != Syncing && InputsOk(y.fleet)
    && MailOk(y.mail, y.fleet.record) && AuthorityOk(y) && AnswersOk(y)
    && DrainsOk(y.fleet) && OneOpen(y.fleet) && Accounted(y.fleet, y.controller)
  }

  // ---- the repository only moves forward ----

  predicate MovesOn(r: Record, s: Record) {
    && r.generation <= s.generation && (r.state != Syncing ==> s.state != Syncing)
    && (r.state == Inactive ==> s.state == Inactive) && (!Writable(r) ==> !Writable(s))
  }

  lemma FleetMovesOn(f: Fleet, a: FleetAction)
    ensures MovesOn(f.record, FleetStep(f, a).record)
  {
    RecordStep(f, a);
    if f.record.state == Inactive {
      InactiveStep(f, a);
    }
    hide CanAct, RunAfter, Scheduled;
  }

  lemma KnowledgeLasts(y: System, s: Record)
    requires MailOk(y.mail, y.fleet.record) && AuthorityOk(y) && AnswersOk(y) && MovesOn(y.fleet.record, s)
    ensures var z := y.(fleet := y.fleet.(record := s)); MailOk(z.mail, s) && AuthorityOk(z) && AnswersOk(z)
  {
    hide IdsOk, StatusOk;
  }

  /** `s` is a later state of the run `r`. */
  predicate Continues(r: DeactivationRun, s: DeactivationRun) {
    s.input == r.input && r.forwarded <= s.forwarded && (s.status == Running ==> r.status == Running)
  }

  ghost predicate SameRuns(f: Fleet, g: Fleet) {
    |g.runs| == |f.runs| && forall k :: 0 <= k < |f.runs| ==> Continues(f.runs[k], g.runs[k])
  }

  lemma RunsContinue(f: Fleet, g: Fleet, c: Controller)
    requires SameRuns(f, g) && f.record.generation <= g.record.generation
    requires InputsOk(f) && OneOpen(f) && Accounted(f, c)
    ensures InputsOk(g) && OneOpen(g) && Accounted(g, c)
  {
  }

  // ---- activities, writers and deactivation runs ----

  lemma FleetActContinues(f: Fleet, a: FleetAction)
    requires !a.StartRun? && DrainsOk(f)
    ensures SameRuns(f, FleetStep(f, a)) && DrainsOk(FleetStep(f, a))
  {
    if a.Act? && CanAct(f, a.run, a.action) {
      var r, s := f.runs[a.run], RunAfter(f.runs[a.run], a.action);
      assert DrainOk(r);
      NothingLeft(r.input.operations, r.drained);
      assert Continues(r, s) && DrainOk(s);
      hide CanAct, RunAfter, DrainOk, Continues;
      forall k | 0 <= k < |f.runs| ensures Continues(f.runs[k], FleetStep(f, a).runs[k]) {
        if k != a.run { SelfContinues(f.runs[k]); }
      }
    } else {
      hide CanAct, Apply, DrainOk;
    }
  }

  lemma NothingLeft(all: set<OpId>, done: set<OpId>)
    ensures all - done == {} ==> all <= done
  {
    assert all <= (all - done) + done;
  }

  lemma SelfContinues(r: DeactivationRun)
    ensures Continues(r, r)
  {
  }

  lemma SignalsAreTruthful(f: Fleet, k: nat, a: RunAction)
    requires FleetInv(f) && InputsOk(f) && CanAct(f, k, a)
    ensures MailOk(Signals(f.runs[k], a), f.record)
  {
    var r := f.runs[k];
    assert RunOk(r, k, f.replies);
    assert r.position >= 1 ==> Achieved(f.record, r.input, FenceOperation(r.input));
    assert r.position >= 8 ==> Achieved(f.record, r.input, CommitInactive(r.input));
    hide FleetInv, InputsOk;
  }

  lemma MoreMail(mail: set<Envelope>, more: set<Envelope>, record: Record)
    requires MailOk(mail, record) && MailOk(more, record)
    ensures MailOk(mail + more, record)
  {
    hide Truthful;
  }

  lemma ProgressInv(y: System, a: FleetAction)
    requires SystemInv(y) && !a.StartRun?
    ensures SystemInv(ProgressIn(y, a))
  {
    hide FleetInv, InputsOk, MailOk, AuthorityOk, AnswersOk, DrainsOk, OneOpen, Accounted, SameRuns, FleetStep;
    var next := FleetStep(y.fleet, a);
    FleetStepInv(y.fleet, a);
    FleetMovesOn(y.fleet, a);
    FleetActContinues(y.fleet, a);
    RunsContinue(y.fleet, next, y.controller);
    if a.Act? && CanAct(y.fleet, a.run, a.action) {
      SignalsAreTruthful(y.fleet, a.run, a.action);
      MoreMail(y.mail, Signals(y.fleet.runs[a.run], a.action), y.fleet.record);
    }
    var sent := y.(mail := ProgressIn(y, a).mail);
    SameAuthority(y, sent);
    KnowledgeLasts(sent, next.record);
    SameAuthority(sent.(fleet := sent.fleet.(record := next.record)), ProgressIn(y, a));
  }

  /** What the controller knows concerns the record and not the runs or the mail. */
  lemma SameAuthority(y: System, z: System)
    requires AuthorityOk(y) && AnswersOk(y)
    requires z.controller == y.controller && z.answers == y.answers && z.fleet.record == y.fleet.record
    ensures AuthorityOk(z) && AnswersOk(z)
  {
    hide IdsOk, StatusOk, Behind;
  }

  // ---- envelopes ----

  /** Knowing its IDs apart, the controller makes at most one external call for an envelope. */
  lemma OneEffect(c: Controller, e: Envelope, ok: bool)
    requires IdsOk(c)
    ensures |Handle(c, e, ok).effects| <= 1
  {
    hide Find, Remember, EndDeactivation, AlreadyDeactivating;
  }

  predicate Deliverable(y: System, e: Envelope, ok: bool) {
    (FromOutside(e) && (ok ==> CanStart(y.fleet, e, y.controller))) || Truthful(y.fleet.record, e)
  }

  lemma StaysBehind(c: Controller, e: Envelope, ok: bool, record: Record)
    requires IdsOk(c) && Behind(c.lifecycle, c.generation, record)
    requires FromOutside(e) || Truthful(record, e)
    ensures var d := Handle(c, e, ok).controller; Behind(d.lifecycle, d.generation, record)
  {
    hide Find, Replace, Newest, AlreadyDeactivating;
  }

  lemma HandleKeepsAuthority(y: System, e: Envelope, ok: bool)
    requires AuthorityOk(y) && y.controller.initialized && (FromOutside(e) || Truthful(y.fleet.record, e))
    ensures AuthorityOk(y.(controller := Handle(y.controller, e, ok).controller))
  {
    StaysBehind(y.controller, e, ok, y.fleet.record);
    HandleOk(y.controller, e, ok);
    HandleInitialized(y.controller, e, ok);
    hide Handle, IdsOk, StatusOk, Behind;
  }

  lemma HandleInitialized(c: Controller, e: Envelope, ok: bool)
    ensures Handle(c, e, ok).controller.initialized == c.initialized
  {
    hide Find, Replace, Newest, Max, AlreadyDeactivating;
  }

  lemma ForwardContinues(f: Fleet, id: OpId, op: OpId)
    requires DrainsOk(f)
    ensures SameRuns(f, Forward(f, id, op)) && DrainsOk(Forward(f, id, op))
  {
  }

  lemma ForwardKeepsFleet(f: Fleet, id: OpId, op: OpId)
    requires FleetInv(f)
    ensures FleetInv(Forward(f, id, op))
  {
    hide Achieved, Empty;
  }

  lemma StartKeepsRuns(f: Fleet, input: RunInput)
    requires InputsOk(f) && OneOpen(f) && DrainsOk(f) && input.expected <= f.record.generation
    requires forall k :: 0 <= k < |f.runs| ==> !IsOpen(f, k, DeactivationId(FencedGeneration(input)))
    ensures var g := FleetStep(f, StartRun(input)); InputsOk(g) && OneOpen(g) && DrainsOk(g)
  {
    var g := FleetStep(f, StartRun(input));
    forall j, k | 0 <= j < k < |g.runs| && WorkflowId(g.runs[j]) == WorkflowId(g.runs[k])
      ensures g.runs[j].status != Running
    {
      if k == |f.runs| {
        assert !IsOpen(f, j, DeactivationId(FencedGeneration(input)));
      }
    }
  }

  /** The deactivation child the controller starts, when it starts one. */
  lemma StartedDeactivation(c: Controller, e: Envelope, ok: bool, op: OpId, input: RunInput)
    requires StartDeactivationChild(op, input) in Handle(c, e, ok).effects
    ensures ok && e.StartDeactivation? && input == DeactivationInput(c, e.expected) && input.expected == c.generation
    ensures op == DeactivationId(FencedGeneration(input))
    ensures var d := Handle(c, e, ok).controller;
            d.deactivation == Some(op) && d.syncs == c.syncs && d.remediations == c.remediations
  {
    hide Find, Replace, Newest, Max;
  }

  lemma StartAccounts(f: Fleet, c: Controller, input: RunInput)
    requires input.operations == c.syncs + c.remediations
    requires c.deactivation == Some(DeactivationId(FencedGeneration(input)))
    requires forall k :: 0 <= k < |f.runs| ==> !IsOpen(f, k, DeactivationId(FencedGeneration(input)))
    ensures Accounted(FleetStep(f, StartRun(input)), c)
  {
    var g := FleetStep(f, StartRun(input));
    forall k | 0 <= k < |f.runs| ensures !IsOpen(g, k, c.deactivation.value) {
      assert !IsOpen(f, k, DeactivationId(FencedGeneration(input)));
    }
  }

  lemma StartInv(y: System, e: Envelope, ok: bool, op: OpId, input: RunInput)
    requires SystemInv(y) && Deliverable(y, e, ok)
    requires Handle(y.controller, e, ok).effects == [StartDeactivationChild(op, input)]
    ensures var g := FleetStep(y.fleet, StartRun(input));
            FleetInv(g) && InputsOk(g) && OneOpen(g) && DrainsOk(g)
            && Accounted(g, Handle(y.controller, e, ok).controller)
  {
    assert StartDeactivationChild(op, input) in Handle(y.controller, e, ok).effects;
    StartedDeactivation(y.controller, e, ok, op, input);
    assert Behind(y.controller.lifecycle, y.controller.generation, y.fleet.record);
    assert CanStart(y.fleet, e, y.controller);
    hide Handle, FleetInv, MailOk, AuthorityOk, AnswersOk, DrainsOk, OneOpen, InputsOk, Accounted;
    StartRunInv(y.fleet, input);
    StartKeepsRuns(y.fleet, input);
    StartAccounts(y.fleet, Handle(y.controller, e, ok).controller, input);
  }

  /** An operation leaves the registries only together with a drain Signal to the active deactivation. */
  lemma LeavesWithDrain(c: Controller, e: Envelope, ok: bool, op: OpId)
    requires op in c.syncs || op in c.remediations
    ensures var h := Handle(c, e, ok);
            op in h.controller.syncs || op in h.controller.remediations || h.controller.deactivation.None?
            || (h.controller.deactivation == c.deactivation
                && ForwardDrained(c.deactivation.value, op) in h.effects)
  {
    hide Find, Replace, Newest, Max, AlreadyDeactivating;
  }

  lemma DeactivationStays(c: Controller, e: Envelope, ok: bool)
    requires forall op, input :: StartDeactivationChild(op, input) !in Handle(c, e, ok).effects
    ensures var d := Handle(c, e, ok).controller; d.deactivation.None? || d.deactivation == c.deactivation
  {
    hide Find, Replace, Newest, Max, AlreadyDeactivating;
    if e.StartDeactivation? {
      var h := Handle(c, e, ok);
      assert |h.effects| > 0 ==> h.effects[0] in h.effects;
    }
  }

  lemma ForwardAccounts(f: Fleet, c: Controller, d: Controller, op: OpId)
    requires Accounted(f, c) && c.deactivation.Some?
    requires d.deactivation.None? || d.deactivation == c.deactivation
    requires forall x :: x in c.syncs || x in c.remediations ==> x in d.syncs || x in d.remediations || x == op
    ensures Accounted(Forward(f, c.deactivation.value, op), d)
  {
    var id := c.deactivation.value;
    var g := Forward(f, id, op);
    forall k, x | 0 <= k < |g.runs| && IsOpen(g, k, id) && x in g.runs[k].input.operations
      ensures x in g.runs[k].forwarded || x == op || x in c.syncs || x in c.remediations
    {
      assert IsOpen(f, k, id);
    }
  }

  lemma QuietAccounts(f: Fleet, c: Controller, d: Controller)
    requires Accounted(f, c)
    requires d.deactivation.None? || d.deactivation == c.deactivation
    requires d.deactivation.Some? ==>
               forall x :: x in c.syncs || x in c.remediations ==> x in d.syncs || x in d.remediations
    ensures Accounted(f, d)
  {
  }

  /** The part of the invariant about runs, after an envelope that starts no deactivation. */
  lemma OtherEffectsInv(y: System, e: Envelope, ok: bool)
    requires SystemInv(y)
    requires forall op, input :: StartDeactivationChild(op, input) !in Handle(y.controller, e, ok).effects
    ensures var h := Handle(y.controller, e, ok); var g := PerformAll(y.fleet, h.effects);
            && FleetInv(g) && InputsOk(g) && OneOpen(g) && DrainsOk(g) && Accounted(g, h.controller)
            && g.record == y.fleet.record
  {
    var c, h := y.controller, Handle(y.controller, e, ok);
    assert IdsOk(c);
    OneEffect(c, e, ok);
    DeactivationStays(c, e, ok);
    forall x | x in c.syncs || x in c.remediations
      ensures x in h.controller.syncs || x in h.controller.remediations || h.controller.deactivation.None?
              || (c.deactivation.Some? && ForwardDrained(c.deactivation.value, x) in h.effects)
    {
      LeavesWithDrain(c, e, ok, x);
    }
    hide Handle, FleetInv, MailOk, AuthorityOk, AnswersOk, DrainsOk, OneOpen, InputsOk, Accounted, IdsOk, SystemInv;
    if |h.effects| == 1 && h.effects[0].ForwardDrained? {
      ForwardEffect(y, e, ok);
    } else {
      QuietEffect(y, e, ok);
    }
  }

  lemma OneEffectPerformed(f: Fleet, es: seq<Effect>)
    requires |es| <= 1
    ensures PerformAll(f, es) == if es == [] then f else Perform(f, es[0])
  {
    if es != [] { assert es[..0] == []; }
  }

  /** Only an operation status, or a finished remediation, sends drain Signals. */
  lemma DrainsComeFromStatus(c: Controller, e: Envelope, ok: bool, target: OpId, op: OpId)
    requires ForwardDrained(target, op) in Handle(c, e, ok).effects
    ensures e.OperationStatus? || (e.RemediationFinished? && e.terminal)
    ensures var h := HandleOperationStatus(c, e.operation, e.generation, e.terminal, e.succeeded);
            Handle(c, e, ok).controller == h.controller && ForwardDrained(target, op) in h.effects
  {
    hide Find, Remember, AlreadyDeactivating, EndDeactivation, DrainTo;
  }

  lemma StatusDrains(c: Controller, e: Envelope, target: OpId, op: OpId)
    requires e.OperationStatus? || e.RemediationFinished?
    requires var h := HandleOperationStatus(c, e.operation, e.generation, e.terminal, e.succeeded);
             ForwardDrained(target, op) in h.effects
    ensures c.deactivation == Some(target) && (op in c.syncs || op in c.remediations)
    ensures var d := HandleOperationStatus(c, e.operation, e.generation, e.terminal, e.succeeded).controller;
            op !in d.syncs && op !in d.remediations
  {
    hide Max;
  }

  /** The drain Signal of an envelope goes to the active deactivation, about an operation that leaves. */
  lemma DrainTarget(c: Controller, e: Envelope, ok: bool, target: OpId, op: OpId)
    requires ForwardDrained(target, op) in Handle(c, e, ok).effects
    ensures c.deactivation == Some(target) && (op in c.syncs || op in c.remediations)
    ensures var d := Handle(c, e, ok).controller; op !in d.syncs && op !in d.remediations
  {
    hide *;
    DrainsComeFromStatus(c, e, ok, target, op);
    StatusDrains(c, e, target, op);
  }

  ghost predicate LeaveForwarded(c: Controller, h: Handled) {
    forall x :: x in c.syncs || x in c.remediations ==>
      x in h.controller.syncs || x in h.controller.remediations || h.controller.deactivation.None?
      || (c.deactivation.Some? && ForwardDrained(c.deactivation.value, x) in h.effects)
  }

  lemma ForwardEffect(y: System, e: Envelope, ok: bool)
    requires FleetInv(y.fleet) && InputsOk(y.fleet) && OneOpen(y.fleet) && DrainsOk(y.fleet)
    requires Accounted(y.fleet, y.controller)
    requires var c, h := y.controller, Handle(y.controller, e, ok);
             && |h.effects| == 1 && h.effects[0].ForwardDrained? && LeaveForwarded(c, h)
             && (h.controller.deactivation.None? || h.controller.deactivation == c.deactivation)
    ensures var h := Handle(y.controller, e, ok); var g := PerformAll(y.fleet, h.effects);
            && FleetInv(g) && InputsOk(g) && OneOpen(g) && DrainsOk(g) && Accounted(g, h.controller)
            && g.record == y.fleet.record
  {
    hide Handle, FleetInv, DrainsOk, OneOpen, InputsOk, Accounted, PerformAll;
    var c, h := y.controller, Handle(y.controller, e, ok);
    var id, op := h.effects[0].target, h.effects[0].operation;
    assert h.effects[0] in h.effects && ForwardDrained(id, op) == h.effects[0];
    DrainTarget(c, e, ok, id, op);
    OneEffectPerformed(y.fleet, h.effects);
    ForwardContinues(y.fleet, id, op);
    ForwardKeepsFleet(y.fleet, id, op);
    RunsContinue(y.fleet, Forward(y.fleet, id, op), c);
    if h.controller.deactivation.Some? {
      ForwardAccounts(y.fleet, c, h.controller, op);
    } else {
      NoneAccounts(Forward(y.fleet, id, op), h.controller);
    }
  }

  lemma NoneAccounts(f: Fleet, c: Controller)
    requires c.deactivation.None?
    ensures Accounted(f, c)
  {
  }

  predicate Quiet(es: seq<Effect>) {
    |es| == 0 || (|es| == 1 && !es[0].ForwardDrained? && !es[0].StartDeactivationChild?)
  }

  lemma QuietPerforms(f: Fleet, es: seq<Effect>)
    requires Quiet(es)
    ensures PerformAll(f, es) == f
  {
    OneEffectPerformed(f, es);
  }

  lemma QuietLeavesNone(c: Controller, h: Handled)
    requires LeaveForwarded(c, h) && Quiet(h.effects)
    ensures h.controller.deactivation.Some? ==>
              forall x :: x in c.syncs || x in c.remediations ==>
                x in h.controller.syncs || x in h.controller.remediations
  {
  }

  lemma QuietEffect(y: System, e: Envelope, ok: bool)
    requires FleetInv(y.fleet) && InputsOk(y.fleet) && OneOpen(y.fleet) && DrainsOk(y.fleet)
    requires Accounted(y.fleet, y.controller)
    requires var c, h := y.controller, Handle(y.controller, e, ok);
             && Quiet(h.effects) && LeaveForwarded(c, h)
             && (h.controller.deactivation.None? || h.controller.deactivation == c.deactivation)
    ensures var h := Handle(y.controller, e, ok); var g := PerformAll(y.fleet, h.effects);
            && FleetInv(g) && InputsOk(g) && OneOpen(g) && DrainsOk(g) && Accounted(g, h.controller)
            && g.record == y.fleet.record
  {
    hide *;
    var c, h := y.controller, Handle(y.controller, e, ok);
    QuietPerforms(y.fleet, h.effects);
    QuietLeavesNone(c, h);
    QuietAccounts(y.fleet, c, h.controller);
  }

  lemma HandleInInv(y: System, e: Envelope, ok: bool)
    requires SystemInv(y) && y.controller.initialized && Deliverable(y, e, ok)
    ensures SystemInv(HandleIn(y, e, ok))
  {
    hide FleetInv, MailOk, DrainsOk, OneOpen, InputsOk, Accounted, Handle, Deliverable, AuthorityOk, AnswersOk;
    var h := Handle(y.controller, e, ok);
    RunsAfterHandle(y, e, ok);
    HandleKnowledge(y, e, ok);
    SameAuthority(y.(controller := h.controller), HandleIn(y, e, ok));
  }

  lemma RunsAfterHandle(y: System, e: Envelope, ok: bool)
    requires SystemInv(y) && Deliverable(y, e, ok)
    ensures var h := Handle(y.controller, e, ok); var g := PerformAll(y.fleet, h.effects);
            && FleetInv(g) && InputsOk(g) && OneOpen(g) && DrainsOk(g) && Accounted(g, h.controller)
            && g.record == y.fleet.record
  {
    var h := Handle(y.controller, e, ok);
    assert IdsOk(y.controller);
    OneEffect(y.controller, e, ok);
    hide Handle, SystemInv, IdsOk, Deliverable;
    if |h.effects| == 1 && h.effects[0].StartDeactivationChild? {
      OneEffectPerformed(y.fleet, h.effects);
      StartInv(y, e, ok, h.effects[0].operation, h.effects[0].input);
    } else {
      OtherEffectsInv(y, e, ok);
    }
  }

  lemma HandleKnowledge(y: System, e: Envelope, ok: bool)
    requires SystemInv(y) && y.controller.initialized && Deliverable(y, e, ok)
    ensures var z := y.(controller := Handle(y.controller, e, ok).controller); AuthorityOk(z) && AnswersOk(z)
  {
    assert FromOutside(e) || Truthful(y.fleet.record, e);
    assert y.answers == {};
    hide Handle, SystemInv, Deliverable;
    HandleKeepsAuthority(y, e, ok);
  }

  // ---- starting a controller run ----

  lemma ReadInv(y: System)
    requires SystemInv(y) && !y.controller.initialized
    ensures SystemInv(SystemStep(y, ReadAuthority))
  {
    hide FleetInv, MailOk, DrainsOk, OneOpen, InputsOk, Accounted;
    var z := SystemStep(y, ReadAuthority);
    forall s, g | (s, g) in z.answers
      ensures Behind(s, g, y.fleet.record) && s != Syncing && y.controller.generation <= g
    {
    }
  }

  lemma ApplyInv(y: System, answer: (LifecycleState, int))
    requires SystemInv(y) && !y.controller.initialized && answer in y.answers
    ensures SystemInv(SystemStep(y, ApplyAnswer(answer)))
  {
    assert (answer.0, answer.1) in y.answers;
    InitializeOk(y.controller, answer.0, answer.1);
    assert Behind(answer.0, answer.1, y.fleet.record);
    hide FleetInv, MailOk, DrainsOk, OneOpen, InputsOk, StatusOk, IdsOk;
  }

  lemma CarryInv(y: System)
    requires SystemInv(y)
    ensures SystemInv(y.(controller := CarriedOver(y.controller), answers := {}))
  {
    hide FleetInv, MailOk, DrainsOk, OneOpen, InputsOk, StatusOk;
  }

  lemma SystemStepInv(y: System, a: SystemAction)
    requires SystemInv(y)
    ensures SystemInv(SystemStep(y, a))
  {
    hide SystemInv, HandleIn, ProgressIn, CarriedOver, Initialize;
    if Enabled(y, a) {
      match a
      case Submit(e, ok) => HandleInInv(y, e, ok);
      case Receive(e) => ReceiveInv(y, e);
      case Progress(act) => ProgressInv(y, act);
      case ReadAuthority => ReadInv(y);
      case ApplyAnswer(answer) => ApplyInv(y, answer);
      case ContinueAsNew => CarryInv(y);
    }
  }

  lemma ReceiveInv(y: System, e: Envelope)
    requires SystemInv(y) && Enabled(y, Receive(e))
    ensures SystemInv(HandleIn(y, e, true))
  {
    assert Truthful(y.fleet.record, e);
    hide SystemInv, HandleIn;
    HandleInInv(y, e, true);
  }

  lemma FreshInv(y: System)
    requires Fresh(y)
    ensures SystemInv(y)
  {
  }

  lemma {:induction false} RunSystemInv(y: System, actions: seq<SystemAction>)
    requires Fresh(y)
    ensures SystemInv(RunSystem(y, actions))
  {
    hide SystemInv, SystemStep;
    FreshInv(y);
    if actions != [] {
      RunSystemInv(y, actions[..|actions| - 1]);
      SystemStepInv(RunSystem(y, actions[..|actions| - 1]), actions[|actions| - 1]);
    }
  }

  // ---- theorems ----

  /** A controller that shows INACTIVE is right about it, and then the store is empty. */
  lemma InactiveControllerIsRight(y: System, actions: seq<SystemAction>)
    requires Fresh(y)
    ensures var z := RunSystem(y, actions);
            z.controller.lifecycle == Inactive ==> z.fleet.record.state == Inactive && Empty(z.fleet.record)
  {
    hide Fresh, RunSystem;
    RunSystemInv(y, actions);
    hide TasksOk, RepliesOk, RunsOk, IdsOk, StatusOk, MailOk, AnswersOk, DrainsOk, OneOpen, InputsOk, Accounted, Empty;
  }

  /** At most one sync is registered, and once running the controller shows exactly what is registered. */
  lemma ControllerShowsItsRegistry(y: System, actions: seq<SystemAction>)
    requires Fresh(y)
    ensures var c := RunSystem(y, actions).controller;
            && |c.syncs| <= 1
            && (c.initialized && !Fenced(c.lifecycle) ==>
                  (c.lifecycle == Syncing <==> c.syncs != {} || c.remediations != {}))
  {
    hide Fresh, RunSystem;
    RunSystemInv(y, actions);
    hide FleetInv, IdsOk, MailOk, AnswersOk, DrainsOk, OneOpen, InputsOk, Accounted;
  }

  lemma InvAuthority(y: System)
    requires SystemInv(y)
    ensures y.controller.generation <= y.fleet.record.generation && AuthorityOk(y) && AnswersOk(y)
    ensures y.controller.initialized ==> ControllerOk(y.controller)
  {
  }

  lemma GenerationStep(y: System, a: SystemAction)
    requires AnswersOk(y)
    ensures SystemStep(y, a).controller.generation >= y.controller.generation
  {
    hide Handle, PerformAll, FleetStep, CanStart, Signals;
    if a.Submit? || a.Receive? {
      GenerationGrows(y.controller, a.envelope, if a.Submit? then a.ok else true);
    } else if a.ApplyAnswer? && Enabled(y, a) {
      assert (a.answer.0, a.answer.1) in y.answers;
    }
  }

  lemma {:induction false} GenerationRun(y: System, actions: seq<SystemAction>)
    requires SystemInv(y)
    ensures SystemInv(RunSystem(y, actions))
    ensures RunSystem(y, actions).controller.generation >= y.controller.generation
  {
    hide SystemInv, SystemStep;
    if actions != [] {
      var z := RunSystem(y, actions[..|actions| - 1]);
      GenerationRun(y, actions[..|actions| - 1]);
      SystemStepInv(z, actions[|actions| - 1]);
      InvAuthority(z);
      GenerationStep(z, actions[|actions| - 1]);
    }
  }

  /** The controller's generation never decreases and never passes the repository's. */
  lemma GenerationsInOrder(y: System, actions: seq<SystemAction>, more: seq<SystemAction>)
    requires Fresh(y)
    ensures var z := RunSystem(y, actions); var w := RunSystem(z, more);
            z.controller.generation <= w.controller.generation <= w.fleet.record.generation
  {
    hide Fresh, RunSystem, SystemInv;
    RunSystemInv(y, actions);
    GenerationRun(RunSystem(y, actions), more);
    InvAuthority(RunSystem(RunSystem(y, actions), more));
  }

  /** A sync starts only on an ACTIVE, idle store: never beside a sync, a remediation or a deactivation. */
  lemma SyncStartsAlone(y: System, actions: seq<SystemAction>, e: Envelope, ok: bool, op: OpId)
    requires Fresh(y)
    ensures var z := RunSystem(y, actions); var c := z.controller;
            Enabled(z, Submit(e, ok)) && StartSyncChild(op) in Handle(c, e, ok).effects ==>
              c.lifecycle == Active && c.syncs == {} && c.remediations == {} && c.deactivation.None?
  {
    hide Fresh, RunSystem, SystemInv, Handle, CanStart;
    var z := RunSystem(y, actions);
    RunSystemInv(y, actions);
    InvAuthority(z);
    if Enabled(z, Submit(e, ok)) && StartSyncChild(op) in Handle(z.controller, e, ok).effects {
      hide ControllerOk, AuthorityOk, AnswersOk;
      SyncStartsOnIdleStore(z.controller, e, ok, op);
    }
  }

  lemma AbsorbedStep(y: System, a: SystemAction)
    requires Absorbed(y.controller) && y.controller.initialized && !a.ContinueAsNew?
    ensures Absorbed(SystemStep(y, a).controller) && SystemStep(y, a).controller.initialized
  {
    if a.Submit? || a.Receive? {
      var ok := if a.Submit? then a.ok else true;
      AbsorbedStays(y.controller, a.envelope, ok);
      HandleInitialized(y.controller, a.envelope, ok);
    }
    hide Handle, PerformAll, FleetStep, CanStart, Absorbed, Signals;
  }

  /**
   Within one controller run, once a committed fence is processed no sequence of later events returns
   the controller to ACTIVE or SYNCING.
   */
  lemma {:induction false} FenceHoldsForTheRun(y: System, actions: seq<SystemAction>)
    requires Absorbed(y.controller) && y.controller.initialized
    requires forall a :: a in actions ==> !a.ContinueAsNew?
    ensures var c := RunSystem(y, actions).controller; Absorbed(c) && Fenced(c.lifecycle) && c.initialized
  {
    if actions != [] {
      var n := |actions| - 1;
      assert actions[n] in actions && forall a :: a in actions[..n] ==> a in actions;
      FenceHoldsForTheRun(y, actions[..n]);
      AbsorbedStep(RunSystem(y, actions[..n]), actions[n]);
      hide SystemStep;
    }
  }

  /** Every operation the active, open deactivation has to drain was forwarded to it or is still registered. */
  lemma DrainIsAccounted(y: System, actions: seq<SystemAction>, k: nat, op: OpId)
    requires Fresh(y)
    ensures var z := RunSystem(y, actions);
            z.controller.deactivation.Some? && IsOpen(z.fleet, k, z.controller.deactivation.value)
            && op in z.fleet.runs[k].input.operations ==>
              op in z.fleet.runs[k].forwarded || op in z.controller.syncs || op in z.controller.remediations
  {
    hide Fresh, RunSystem;
    RunSystemInv(y, actions);
    hide FleetInv, AuthorityOk, MailOk, AnswersOk, DrainsOk, OneOpen, InputsOk, IsOpen;
  }

  /** A deactivation that is past its drain wait without a warning was told about every operation. */
  lemma CleanDrainSawEverything(y: System, actions: seq<SystemAction>, k: nat)
    requires Fresh(y)
    ensures var f := RunSystem(y, actions).fleet;
            k < |f.runs| && f.runs[k].position >= 5 && !f.runs[k].warned ==>
              f.runs[k].input.operations <= f.runs[k].drained <= f.runs[k].forwarded
  {
    hide Fresh, RunSystem;
    RunSystemInv(y, actions);
    var f := RunSystem(y, actions).fleet;
    assert DrainsOk(f);
    hide SystemInv;
    assert k < |f.runs| ==> DrainOk(f.runs[k]);
  }

  lemma ForwardedBy(f: Fleet, target: OpId, op: OpId, k: nat, x: OpId)
    requires k < |f.runs| && x in Forward(f, target, op).runs[k].forwarded && x !in f.runs[k].forwarded
    ensures x == op && IsOpen(f, k, target)
  {
  }

  /**
   An operation is told to a run only at the moment it leaves the controller's registry, while that
   run is the controller's active deactivation and still open.
   */
  lemma ForwardedMeansLeft(y: System, a: SystemAction, k: nat, op: OpId)
    requires SystemInv(y) && k < |y.fleet.runs| && k < |SystemStep(y, a).fleet.runs|
    requires op !in y.fleet.runs[k].forwarded && op in SystemStep(y, a).fleet.runs[k].forwarded
    ensures y.controller.deactivation.Some? && IsOpen(y.fleet, k, y.controller.deactivation.value)
    ensures op in y.controller.syncs || op in y.controller.remediations
    ensures op !in SystemStep(y, a).controller.syncs && op !in SystemStep(y, a).controller.remediations
  {
    if a.Submit? || a.Receive? {
      var ok := if a.Submit? then a.ok else true;
      InvAuthority(y);
      hide SystemInv, Enabled, Handle;
      HandleForwards(y, a.envelope, ok, k, op);
    } else {
      assert DrainsOk(y.fleet);
      hide SystemInv, Handle;
      if a.Progress? {
        OnlyEnvelopesForward(y.fleet, a.action, k);
      }
      assert false;
    }
  }

  lemma OnlyEnvelopesForward(f: Fleet, a: FleetAction, k: nat)
    requires k < |f.runs|
    ensures k < |FleetStep(f, a).runs| && FleetStep(f, a).runs[k].forwarded == f.runs[k].forwarded
  {
    if a.Act? && a.run < |f.runs| {
      assert RunAfter(f.runs[a.run], a.action).forwarded == f.runs[a.run].forwarded;
    }
    hide RunAfter, Apply;
  }

  lemma HandleForwards(y: System, e: Envelope, ok: bool, k: nat, op: OpId)
    requires AuthorityOk(y) && k < |y.fleet.runs| && k < |HandleIn(y, e, ok).fleet.runs|
    requires op !in y.fleet.runs[k].forwarded && op in HandleIn(y, e, ok).fleet.runs[k].forwarded
    ensures y.controller.deactivation.Some? && IsOpen(y.fleet, k, y.controller.deactivation.value)
    ensures op in y.controller.syncs || op in y.controller.remediations
    ensures var d := HandleIn(y, e, ok).controller; op !in d.syncs && op !in d.remediations
  {
    var c, h := y.controller, Handle(y.controller, e, ok);
    OneEffect(c, e, ok);
    OneEffectPerformed(y.fleet, h.effects);
    hide Handle, PerformAll, AuthorityOk;
    var effect := h.effects[0];
    assert effect in h.effects;
    assert effect.ForwardDrained?;
    DrainTarget(c, e, ok, effect.target, effect.operation);
    ForwardedBy(y.fleet, effect.target, effect.operation, k, op);
  }
}
