/** What one coordinator step can do to the queue, the reservations and the terminal window. */
module QuotaShape {
  import opened Collections
  import opened QuotaModel
  import opened QuotaInvariant
  import opened QuotaGrants

  predicate Admitting(s: QuotaState, e: Event) {
    e.RequestPermit? && Admits(s, e.request)
  }

  predicate Open(s: QuotaState, id: Key) {
    id in s.pending || id in s.reservations
  }

  /** Outside admission the queue only loses entries, in place; a new entry goes to the back. */
  ghost predicate QueueShape(s: QuotaState, e: Event, t: QuotaState) {
    if Admitting(s, e) then
      t.pendingOrder == s.pendingOrder + [e.request.requestId] && t.reservations == s.reservations
    else t.pendingOrder == Keep(s.pendingOrder, t.pending.Keys)
  }

  /** Entries never come back: pending ones stay, become reservations or close; reserved ones stay or close. */
  ghost predicate FlowShape(s: QuotaState, e: Event, t: QuotaState) {
    && (forall id :: id in t.pending ==> id in s.pending || (Admitting(s, e) && id == e.request.requestId))
    && (forall id :: id in t.reservations ==> Open(s, id) && id !in t.pending)
  }

  /** Exactly the open IDs that leave are marked terminal, each once, after everything marked before. */
  ghost predicate MarkShape(s: QuotaState, t: QuotaState, marks: seq<Key>) {
    && Distinct(marks) && (forall id :: id in marks ==> id !in s.terminal.ids)
    && t.terminal == MarkAll(s.terminal, s.settings.dedupWindowSize, marks)
    && (forall id :: Open(s, id) ==> (id in marks <==> !Open(t, id)))
  }

  /** The grants of a step name the head of the queue, and those are the requests that become reserved. */
  ghost predicate GrantShape(s: QuotaState, t: QuotaState, grants: seq<PermitGrant>) {
    && |grants| <= |s.pendingOrder|
    && (forall i :: 0 <= i < |grants| ==> grants[i].requestId == s.pendingOrder[i])
    && (forall id :: id in s.pending ==> (id in t.reservations <==> id in s.pendingOrder[..|grants|]))
  }

  ghost predicate StepShape(s: QuotaState, e: Event, o: Outcome) {
    QueueShape(s, e, o.state) && FlowShape(s, e, o.state) && MarkShape(s, o.state, o.marks)
    && GrantShape(s, o.state, o.grants)
  }

  // ---- steps that close requests ----

  lemma ClosesFlow(s: QuotaState, e: Event, t: QuotaState, ids: seq<Key>, gone: set<Key>)
    requires ApartOk(s) && Closes(s, t, ids, gone)
    ensures FlowShape(s, e, t)
  {
    hide MarkAll, Without;
  }

  lemma ClosesMarks(s: QuotaState, t: QuotaState, ids: seq<Key>, gone: set<Key>)
    requires Closes(s, t, ids, gone) && Lists(ids, gone)
    requires forall id :: id in gone ==> id !in s.terminal.ids
    ensures MarkShape(s, t, ids)
  {
    hide MarkAll, Without, Distinct;
  }

  lemma NoGrants(s: QuotaState, t: QuotaState)
    requires forall id :: id in s.pending ==> id !in t.reservations
    ensures GrantShape(s, t, [])
  {
  }

  lemma ClosesShape(s: QuotaState, e: Event, t: QuotaState, ids: seq<Key>, gone: set<Key>)
    requires Inv(s) && Closes(s, t, ids, gone) && Lists(ids, gone) && !e.RequestPermit?
    requires forall id :: id in gone ==> id !in s.terminal.ids
    ensures StepShape(s, e, Outcome(t, [], [], ids))
  {
    ClosesQueue(s, t, ids, gone);
    ClosesFlow(s, e, t, ids, gone);
    ClosesMarks(s, t, ids, gone);
    assert forall id :: id in s.pending ==> id !in t.reservations by {
      assert forall id :: id in t.reservations ==> id in s.reservations;
    }
    NoGrants(s, t);
    hide Inv, FlowShape, MarkShape, GrantShape, Closes, Lists;
  }

  /** Steps that leave the queue, the reservations and the window alone. */
  ghost predicate SameEntries(s: QuotaState, t: QuotaState) {
    && t.pending == s.pending && t.pendingOrder == s.pendingOrder
    && t.reservations == s.reservations && t.terminal == s.terminal
  }

  lemma SameMarks(s: QuotaState, t: QuotaState)
    requires SameEntries(s, t)
    ensures MarkShape(s, t, [])
  {
  }

  lemma SameFlow(s: QuotaState, e: Event, t: QuotaState)
    requires ApartOk(s) && SameEntries(s, t)
    ensures FlowShape(s, e, t) && GrantShape(s, t, [])
  {
    NoGrants(s, t);
  }

  lemma SameShape(s: QuotaState, e: Event, t: QuotaState)
    requires Inv(s) && SameEntries(s, t) && !Admitting(s, e)
    ensures StepShape(s, e, Outcome(t, [], [], []))
  {
    KeepAll(s.pendingOrder, s.pending.Keys);
    SameMarks(s, t);
    SameFlow(s, e, t);
    hide Inv, Keep, MarkShape, GrantShape, FlowShape, Admitting;
  }

  lemma CancelShape(s: QuotaState, id: Key)
    requires Inv(s)
    ensures StepShape(s, CancelPermit(id), Outcome(Cancel(s, id), [], [], CancelMarks(s, id)))
  {
    if CancelMarks(s, id) == [] {
      assert SameEntries(s, Cancel(s, id));
      SameShape(s, CancelPermit(id), Cancel(s, id));
      hide Inv, StepShape, Cancel;
    } else {
      CancelCloses(s, id);
      SingletonLists(id);
      ClosesShape(s, CancelPermit(id), Cancel(s, id), [id], {id});
      hide Inv, StepShape, Closes, Cancel;
    }
  }

  lemma GenerationShape(s: QuotaState, store: Key, generation: int)
    requires Inv(s)
    ensures StepShape(s, CancelGenerationPermits(store, generation),
                      Outcome(CancelGeneration(s, store, generation), [], [], GenerationMarks(s, store, generation)))
  {
    GenerationIds(s, store, generation);
    var gone := PendingOf(s, store, generation) + ReservedOf(s, store, generation);
    var e := CancelGenerationPermits(store, generation);
    if gone == {} {
      SameShape(s, e, CancelGeneration(s, store, generation));
      hide Inv, StepShape;
    } else {
      GenerationCloses(s, store, generation);
      forall id | id in gone ensures id !in s.terminal.ids {
        GenerationApart(s, store, generation, id);
      }
      hide Inv, StepShape, Closes, CancelGeneration, GenerationMarks, PendingOf, ReservedOf, Lists;
      ClosesShape(s, e, CancelGeneration(s, store, generation), GenerationMarks(s, store, generation), gone);
    }
  }

  lemma CompleteShape(s: QuotaState, id: Key, permit: PermitId)
    requires Inv(s)
    ensures StepShape(s, PermitCompleted(id, permit),
                      Outcome(Complete(s, id, permit), [], [], if Completes(s, id, permit) then [id] else []))
  {
    if Completes(s, id, permit) {
      CompleteCloses(s, id, permit);
      SingletonLists(id);
      ClosesShape(s, PermitCompleted(id, permit), Complete(s, id, permit), [id], {id});
      hide Inv, StepShape, Closes, Complete;
    } else {
      SameShape(s, PermitCompleted(id, permit), Complete(s, id, permit));
      hide Inv, StepShape;
    }
  }

  lemma StepShapeIgnoresDenials(s: QuotaState, e: Event, o: Outcome, denials: seq<Denial>)
    requires StepShape(s, e, o)
    ensures StepShape(s, e, o.(denials := denials))
  {
    hide QueueShape, FlowShape, MarkShape, GrantShape;
  }

  lemma DisableShape(s: QuotaState)
    requires Inv(s)
    ensures StepShape(s, DisableScope, Outcome(Disable(s), [], [], DisableMarks(s)))
  {
    if s.disabled {
      SameShape(s, DisableScope, Disable(s));
      hide Inv, StepShape;
    } else {
      DisableCloses(s);
      assert Lists(s.pendingOrder, s.pending.Keys);
      assert forall id :: id in s.pending.Keys ==> id !in s.terminal.ids;
      hide Inv, StepShape, Closes, Disable, DisableMarks, Lists;
      ClosesShape(s, DisableScope, Disable(s), s.pendingOrder, s.pending.Keys);
    }
  }

  // ---- admission and grants ----

  lemma AdmitShape(s: QuotaState, r: PermitRequest)
    requires Inv(s) && Admits(s, r)
    ensures StepShape(s, RequestPermit(r), Outcome(Admit(s, r), [], [], []))
  {
    AdmittedRequest(s, r);
    hide QueueOk, EntriesOk, FlightOk, GoodWindow, Keep, Admits, RequestDenial;
    NoGrants(s, Admit(s, r));
  }

  lemma RequestShape(s: QuotaState, r: PermitRequest)
    requires Inv(s)
    ensures StepShape(s, RequestPermit(r), Outcome(Admit(s, r), [], [], []))
  {
    if Admits(s, r) {
      AdmitShape(s, r);
    } else {
      SameShape(s, RequestPermit(r), Admit(s, r));
    }
    hide Inv, StepShape, Admits;
  }

  lemma TurnQueue(s: QuotaState, t: QuotaState, k: nat)
    requires QueueOk(s) && QueueOk(t) && k <= |s.pendingOrder| && t.pendingOrder == s.pendingOrder[k..]
    ensures t.pendingOrder == Keep(s.pendingOrder, t.pending.Keys)
    ensures forall id :: id in s.pending ==> (id !in t.pending <==> id in s.pendingOrder[..k])
  {
    DistinctParts(s.pendingOrder, k);
    KeepSuffix(s.pendingOrder, k, t.pending.Keys);
    hide Keep, Distinct;
  }

  lemma TurnGrants(s: QuotaState, t: QuotaState, grants: seq<PermitGrant>, now: int)
    requires QueueOk(s) && QueueOk(t) && ApartOk(t) && EntriesOk(s) && MovesEntries(s, t, now)
    requires GrantsPrefix(s, grants) && t.pendingOrder == s.pendingOrder[|grants|..]
    ensures GrantShape(s, t, grants)
  {
    TurnQueue(s, t, |grants|);
    hide QueueOk;
  }

  lemma TurnShape(s: QuotaState, now: int)
    requires Inv(s)
    ensures var g := GrantAvailable(s, now); StepShape(s, Turn(now), Outcome(g.state, g.grants, [], []))
  {
    var g := GrantAvailable(s, now);
    var a := Advance(s, now);
    if IsBlocked(a, now) {
      BlockedGrantsNothing(s, now);
      SameShape(s, Turn(now), a);
      hide Inv, StepShape, GrantAvailable;
    } else {
      GreedyIsLongestPrefix(s, now);
      TurnInv(s, now);
      AdvanceInv(s, now);
      GrantLoopFrame(a, now);
      assert g.state.terminal == s.terminal;
      hide Longest, GrantAvailable, GrantLoop, GrantsPrefix, GoodWindow;
      TurnQueue(a, g.state, |g.grants|);
      TurnGrants(a, g.state, g.grants, now);
      TurnFlow(a, g.state, now);
      hide Inv, MovesEntries;
      TurnAssemble(s, a, g, now);
    }
  }

  lemma TurnFlow(s: QuotaState, t: QuotaState, now: int)
    requires ApartOk(t) && MovesEntries(s, t, now) && t.terminal == s.terminal
    ensures FlowShape(s, Turn(now), t) && MarkShape(s, t, [])
  {
  }

  lemma TurnAssemble(s: QuotaState, a: QuotaState, g: Granting, now: int)
    requires a == Advance(s, now)
    requires g.state.pendingOrder == Keep(a.pendingOrder, g.state.pending.Keys)
    requires FlowShape(a, Turn(now), g.state) && MarkShape(a, g.state, []) && GrantShape(a, g.state, g.grants)
    ensures StepShape(s, Turn(now), Outcome(g.state, g.grants, [], []))
  {
    assert SameEntries(s, a);
    hide Keep, MarkAll, Distinct;
  }

  lemma ContinueShape(s: QuotaState, carried: seq<Key>)
    requires Inv(s)
    ensures StepShape(s, ContinueAsNew(carried), Outcome(Continued(s, carried), [], [], Keep(carried, StaleIds(s))))
  {
    CompactIsIdentity(s, carried);
    NothingStale(s, carried);
    SameShape(s, ContinueAsNew(carried), s.(processedMessages := 0));
    hide Inv, Compact, StepShape;
  }

  /** Every coordinator step has this shape. */
  lemma EveryStepShape(s: QuotaState, e: Event)
    requires Inv(s)
    ensures StepShape(s, e, Step(s, e))
  {
    hide Inv, StepShape;
    match e
    case RequestPermit(r) =>
      RequestShape(s, r);
      StepShapeIgnoresDenials(s, e, Outcome(Admit(s, r), [], [], []), RequestDenials(s, r));
    case CancelPermit(id) => CancelShape(s, id);
    case CancelGenerationPermits(store, g) => GenerationShape(s, store, g);
    case PermitCompleted(id, p) => CompleteShape(s, id, p);
    case ObserveQuota(o, now) =>
      assert SameEntries(s, Observe(s, o, now));
      SameShape(s, e, Observe(s, o, now));
    case DisableScope =>
      DisableShape(s);
      StepShapeIgnoresDenials(s, e, Outcome(Disable(s), [], [], DisableMarks(s)), DisableDenials(s));
    case Turn(now) => TurnShape(s, now);
    case ContinueAsNew(carried) => ContinueShape(s, carried);
  }
}
