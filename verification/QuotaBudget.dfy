/** The balance of a quota window over runs, and the deadlines that block a scope. */
module QuotaBudget {
  import opened Collections
  import opened QuotaModel
  import opened QuotaInvariant
  import opened QuotaGrants

  function GrantsCost(grants: seq<PermitGrant>): int {
    if grants == [] then 0 else grants[0].cost + GrantsCost(grants[1..])
  }

  lemma {:induction false} GrantsCostIsCostOf(
    ids: seq<Key>, grants: seq<PermitGrant>, requests: map<Key, PermitRequest>)
    requires |ids| == |grants|
    requires forall i :: 0 <= i < |ids| ==> ids[i] in requests && grants[i].cost == requests[ids[i]].cost
    ensures GrantsCost(grants) == CostOf(ids, requests)
  {
    if ids != [] { GrantsCostIsCostOf(ids[1..], grants[1..], requests); }
  }

  function Depth(w: WindowId): nat {
    if w.NextWindow? then Depth(w.previous) + 1 else 0
  }

  // ---- balance ----

  /** `after` plus what was granted fits in `before`, and stays known and non-negative. */
  ghost predicate Spends(before: Option<int>, after: Option<int>, cost: int) {
    before.Some? ==> after.Some? && 0 <= after.value && after.value + cost <= before.value
  }

  lemma TurnBudget(s: QuotaState, now: int)
    requires Inv(s)
    ensures var g := GrantAvailable(s, now); var a := Advance(s, now);
            g.state.window == a.window.(remaining := Debit(a.window.remaining, GrantsCost(g.grants)))
  {
    var g, a := GrantAvailable(s, now), Advance(s, now);
    if IsBlocked(a, now) {
      BlockedGrantsNothing(s, now);
      assert a.window.remaining == Debit(a.window.remaining, 0);
    } else {
      GreedyIsLongestPrefix(s, now);
      hide Inv, MovesEntries, Longest, GrantAvailable, Advance;
      GrantsCostIsCostOf(a.pendingOrder[..|g.grants|], g.grants, a.pending);
    }
  }

  lemma QuietRequest(s: QuotaState, r: PermitRequest)
    ensures Step(s, RequestPermit(r)).grants == [] && Step(s, RequestPermit(r)).state.window == s.window
  {
    hide RequestDenial, RequestDenials;
  }

  lemma QuietCancel(s: QuotaState, id: Key)
    ensures Step(s, CancelPermit(id)).grants == [] && Step(s, CancelPermit(id)).state.window == s.window
  {
    hide MarkAll, Without, CancelMarks;
  }

  lemma QuietGeneration(s: QuotaState, store: Key, generation: int)
    ensures var o := Step(s, CancelGenerationPermits(store, generation)); o.grants == [] && o.state.window == s.window
  {
    hide MarkAll, Without, GenerationMarks, PendingOf, ReservedOf, Released;
  }

  lemma QuietCompletion(s: QuotaState, id: Key, permit: PermitId)
    ensures Step(s, PermitCompleted(id, permit)).grants == []
    ensures Step(s, PermitCompleted(id, permit)).state.window == s.window
  {
    hide MarkAll;
  }

  lemma QuietDisable(s: QuotaState)
    ensures Step(s, DisableScope).grants == [] && Step(s, DisableScope).state.window == s.window
  {
    hide MarkAll, DisableMarks, DisableDenials;
  }

  lemma QuietContinue(s: QuotaState, carried: seq<Key>)
    requires Inv(s)
    ensures Step(s, ContinueAsNew(carried)).grants == [] && Step(s, ContinueAsNew(carried)).state.window == s.window
  {
    CompactIsIdentity(s, carried);
    hide Inv, Compact, Keep, StaleIds;
  }

  lemma ObserveStep(s: QuotaState, o: QuotaObservation, now: int)
    ensures Step(s, ObserveQuota(o, now)).grants == []
    ensures Step(s, ObserveQuota(o, now)).state.window
            == if o.scope == s.settings.scope then ObserveWindow(s.window, o, now) else s.window
  {
    hide ObserveWindow;
  }

  /** Messages other than observations leave the window alone, and only a grant pass grants. */
  lemma QuietStep(s: QuotaState, e: Event)
    requires Inv(s) && !e.Turn?
    ensures Step(s, e).grants == []
    ensures Step(s, e).state.window ==
              if e.ObserveQuota? && e.observation.scope == s.settings.scope
              then ObserveWindow(s.window, e.observation, e.now) else s.window
  {
    hide *;
    match e
    case RequestPermit(r) => QuietRequest(s, r);
    case CancelPermit(id) => QuietCancel(s, id);
    case CancelGenerationPermits(store, g) => QuietGeneration(s, store, g);
    case PermitCompleted(id, permit) => QuietCompletion(s, id, permit);
    case ObserveQuota(o, now) => ObserveStep(s, o, now);
    case DisableScope => QuietDisable(s);
    case ContinueAsNew(carried) => QuietContinue(s, carried);
  }

  lemma TurnStep(s: QuotaState, now: int)
    ensures Step(s, Turn(now)).state == GrantAvailable(s, now).state
    ensures Step(s, Turn(now)).grants == GrantAvailable(s, now).grants
  {
  }

  /** Only a due window advance, in a grant pass, changes the window ID; it refills to the limit. */
  lemma WindowAdvance(s: QuotaState, e: Event)
    requires Inv(s)
    ensures var t := Step(s, e);
            if e.Turn? && WindowDue(s.window, e.now) then
              Depth(t.state.window.id) == Depth(s.window.id) + 1
              && t.state.window.remaining == Debit(s.window.limit, GrantsCost(t.grants))
            else t.state.window.id == s.window.id
  {
    hide Inv, Step, GrantAvailable;
    if e.Turn? {
      TurnBudget(s, e.now);
      TurnStep(s, e.now);
    } else {
      QuietStep(s, e);
    }
  }

  /** Inside a window every step spends: cancels, completions and late observations never refund. */
  lemma StepSpends(s: QuotaState, e: Event)
    requires Inv(s) && Step(s, e).state.window.id == s.window.id
    ensures Spends(s.window.remaining, Step(s, e).state.window.remaining, GrantsCost(Step(s, e).grants))
  {
    BalanceKnown(s);
    StepInv(s, e);
    BalanceKnown(Step(s, e).state);
    hide Inv, Step, GrantAvailable;
    if e.Turn? {
      WindowAdvance(s, e);
      TurnBudget(s, e.now);
      TurnStep(s, e.now);
    } else {
      QuietStep(s, e);
    }
  }

  lemma BalanceKnown(s: QuotaState)
    requires Inv(s)
    ensures s.window.remaining.Some? ==> s.window.remaining.value >= 0
  {
  }

  /** Total cost granted over a run. */
  function RunCost(s: QuotaState, es: seq<Event>): int {
    if es == [] then 0
    else RunCost(s, es[..|es| - 1]) + GrantsCost(Step(Run(s, es[..|es| - 1]), es[|es| - 1]).grants)
  }

  lemma {:induction false} RunDepth(s: QuotaState, es: seq<Event>)
    requires Inv(s)
    ensures Depth(Run(s, es).window.id) >= Depth(s.window.id)
    ensures Depth(Run(s, es).window.id) == Depth(s.window.id) ==> Run(s, es).window.id == s.window.id
  {
    if es != [] {
      var t := Run(s, es[..|es| - 1]);
      RunDepth(s, es[..|es| - 1]);
      RunInv(s, es[..|es| - 1]);
      WindowAdvance(t, es[|es| - 1]);
      hide Inv, Step, Depth;
    }
  }

  /**
   Window budget: while a run stays in one quota window, a known balance stays known and
   non-negative, and together with everything granted since never exceeds its first known value.
   */
  lemma {:induction false} WindowBudget(s: QuotaState, es: seq<Event>)
    requires Inv(s) && Run(s, es).window.id == s.window.id
    ensures Spends(s.window.remaining, Run(s, es).window.remaining, RunCost(s, es))
  {
    if es == [] {
      assert BalanceOk(s);
    } else {
      var n := |es| - 1;
      var t := Run(s, es[..n]);
      RunDepth(s, es[..n]);
      RunInv(s, es[..n]);
      WindowAdvance(t, es[n]);
      hide Inv, Step;
      WindowBudget(s, es[..n]);
      StepSpends(t, es[n]);
    }
  }

  // ---- deadlines ----

  /** The scope is blocked by a deadline, and the later of its deadlines is at least `d`. */
  ghost predicate HeldUntil(w: QuotaWindow, d: int) {
    w.blockedUntil.Some? && (w.blockedUntil.value >= d || (w.resetAt.Some? && w.resetAt.value >= d))
  }

  /** When an exhausted observation releases the scope at the earliest. */
  function ExhaustedUntil(w: QuotaWindow, o: QuotaObservation, now: int): Option<int> {
    Later(Later(o.resetAt, RetryAt(o, now)), Later(w.resetAt, o.resetAt))
  }

  lemma ExhaustionHolds(w: QuotaWindow, o: QuotaObservation, now: int)
    requires o.exhausted
    ensures ExhaustedUntil(w, o, now).Some?
    ensures HeldUntil(ObserveWindow(w, o, now), ExhaustedUntil(w, o, now).value)
  {
  }

  lemma StepHeld(s: QuotaState, e: Event, d: int)
    requires Inv(s) && HeldUntil(s.window, d) && (e.Turn? ==> e.now < d)
    ensures HeldUntil(Step(s, e).state.window, d) && Step(s, e).grants == []
  {
    hide Inv, Step, GrantLoop;
    if e.Turn? {
      assert IsBlocked(Advance(s, e.now), e.now);
      BlockedGrantsNothing(s, e.now);
      TurnStep(s, e.now);
    } else {
      QuietStep(s, e);
    }
  }

  lemma {:induction false} RunHeld(s: QuotaState, es: seq<Event>, d: int)
    requires Inv(s) && HeldUntil(s.window, d)
    requires forall e :: e in es && e.Turn? ==> e.now < d
    ensures HeldUntil(Run(s, es).window, d) && RunGrants(s, es) == []
  {
    if es != [] {
      var n := |es| - 1;
      assert es[n] in es;
      RunHeld(s, es[..n], d);
      RunInv(s, es[..n]);
      StepHeld(Run(s, es[..n]), es[n], d);
      hide Inv, Step, HeldUntil;
    }
  }

  function RunGrants(s: QuotaState, es: seq<Event>): seq<PermitGrant> {
    if es == [] then []
    else RunGrants(s, es[..|es| - 1]) + Step(Run(s, es[..|es| - 1]), es[|es| - 1]).grants
  }

  /**
   After an exhausted observation no pass grants anything before the later of its retry or reset
   deadline and any known reset, whatever else arrives.
   */
  lemma NoGrantBeforeDeadline(s: QuotaState, o: QuotaObservation, now: int, es: seq<Event>)
    requires Inv(s) && o.exhausted && o.scope == s.settings.scope
    requires forall e :: e in es && e.Turn? ==> e.now < ExhaustedUntil(s.window, o, now).value
    ensures RunGrants(Observe(s, o, now), es) == []
  {
    ExhaustionHolds(s.window, o, now);
    ObserveInv(s, o, now);
    hide HeldUntil, ExhaustedUntil;
    RunHeld(Observe(s, o, now), es, ExhaustedUntil(s.window, o, now).value);
  }

  function Deadlines(w: QuotaWindow): set<int> {
    (if w.blockedUntil.Some? then {w.blockedUntil.value} else {})
    + (if w.resetAt.Some? then {w.resetAt.value} else {})
  }

  /** A pass made once the armed timer has fired. */
  predicate Fires(w: QuotaWindow, e: Event) {
    e.Turn? && Due(MinDeadline(w.blockedUntil, w.resetAt), e.now)
  }

  lemma FiringDropsDeadline(w: QuotaWindow, now: int)
    requires Due(MinDeadline(w.blockedUntil, w.resetAt), now)
    ensures |Deadlines(AdvanceWindow(w, now))| < |Deadlines(w)|
  {
  }

  lemma DeadlineCount(w: QuotaWindow)
    ensures |Deadlines(w)| <= 2
    ensures |Deadlines(w)| == 0 <==> w.blockedUntil.None? && w.resetAt.None?
  {
  }

  lemma StepDeadlines(s: QuotaState, e: Event)
    requires Inv(s) && !e.ObserveQuota?
    ensures |Deadlines(Step(s, e).state.window)| + (if Fires(s.window, e) then 1 else 0) <= |Deadlines(s.window)|
  {
    hide Inv, Step, GrantAvailable, Deadlines;
    if e.Turn? {
      TurnBudget(s, e.now);
      TurnStep(s, e.now);
      SameDeadlines(Step(s, e).state.window, AdvanceWindow(s.window, e.now));
      if Fires(s.window, e) { FiringDropsDeadline(s.window, e.now); }
    } else {
      QuietStep(s, e);
    }
  }

  lemma SameDeadlines(w: QuotaWindow, v: QuotaWindow)
    requires w.blockedUntil == v.blockedUntil && w.resetAt == v.resetAt
    ensures Deadlines(w) == Deadlines(v)
  {
  }

  function Firings(s: QuotaState, es: seq<Event>): nat {
    if es == [] then 0
    else Firings(s, es[..|es| - 1]) + (if Fires(Run(s, es[..|es| - 1]).window, es[|es| - 1]) then 1 else 0)
  }

  /** Without new observations every timer firing uses up a deadline, so there are at most two. */
  lemma {:induction false} FiringsBounded(s: QuotaState, es: seq<Event>)
    requires Inv(s) && forall e :: e in es ==> !e.ObserveQuota?
    ensures Firings(s, es) + |Deadlines(Run(s, es).window)| <= |Deadlines(s.window)| <= 2
  {
    DeadlineCount(s.window);
    if es != [] {
      var n := |es| - 1;
      assert es[n] in es;
      FiringsBounded(s, es[..n]);
      RunInv(s, es[..n]);
      StepDeadlines(Run(s, es[..n]), es[n]);
      hide Inv, Step, Deadlines, Fires;
    }
  }

  /**
   As many firings as the scope has distinct deadlines, none to two, with no observation in between,
   leave an enabled scope unblocked at every time.
   */
  lemma FiringEachDeadlineUnblocks(s: QuotaState, es: seq<Event>, now: int)
    requires Inv(s) && (forall e :: e in es ==> !e.ObserveQuota?) && Firings(s, es) >= |Deadlines(s.window)|
    ensures IsBlocked(Run(s, es), now) <==> Run(s, es).disabled
  {
    FiringsBounded(s, es);
    DeadlineCount(Run(s, es).window);
    hide Deadlines, Firings, Inv;
  }

  /** A scope with two deadlines needs two firings; no scope needs more. */
  lemma TwoFiringsUnblock(s: QuotaState, es: seq<Event>, now: int)
    requires Inv(s) && (forall e :: e in es ==> !e.ObserveQuota?) && Firings(s, es) >= 2
    ensures IsBlocked(Run(s, es), now) <==> Run(s, es).disabled
  {
    DeadlineCount(s.window);
    hide Deadlines, Firings, Inv;
    FiringEachDeadlineUnblocks(s, es, now);
  }

  /** The armed timer is exact: it waits for the earliest deadline and never past it. */
  lemma TimerReachesDeadline(s: QuotaState, now: int, later: int)
    ensures NextTimerDelay(s, now).None? <==> Deadlines(s.window) == {}
    ensures var d := NextTimerDelay(s, now);
            d.Some? && later >= now ==>
              d.value >= 0 && (Fires(s.window, Turn(later)) <==> later >= now + d.value)
  {
  }
}
