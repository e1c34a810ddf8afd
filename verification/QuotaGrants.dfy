/** The greedy grant loop hands out exactly the longest queue prefix that fits. */
module QuotaGrants {
  import opened Collections
  import opened QuotaModel
  import opened QuotaInvariant

  function CostOf(ids: seq<Key>, requests: map<Key, PermitRequest>): int {
    if ids == [] then 0
    else CostOf(ids[1..], requests) + (if ids[0] in requests then requests[ids[0]].cost else 0)
  }

  /** The first `k` queued requests fit the free slots and, when it is known, the balance. */
  ghost predicate Fits(s: QuotaState, k: nat) {
    && k <= |s.pendingOrder|
    && s.inFlight + k <= s.settings.maxInFlight
    && Affordable(s.window.remaining, CostOf(s.pendingOrder[..k], s.pending))
  }

  // ---- what a grant pass changes ----

  /** `r` is `s` after taking the first `k` queued requests off the queue and paying for them. */
  ghost predicate MovesPrefix(s: QuotaState, r: Granting, k: nat) {
    && |r.grants| == k <= |s.pendingOrder|
    && r.state.pendingOrder == s.pendingOrder[k..]
    && r.state.inFlight == s.inFlight + k
    && r.state.window == s.window.(remaining := Debit(s.window.remaining, CostOf(s.pendingOrder[..k], s.pending)))
  }

  /** The grants name the first queued requests, in queue order. */
  ghost predicate GrantsPrefix(s: QuotaState, grants: seq<PermitGrant>) {
    |grants| <= |s.pendingOrder| &&
    forall i :: 0 <= i < |grants| ==> s.pendingOrder[i] in s.pending
                                      && grants[i] == GrantFor(s, s.pending[s.pendingOrder[i]])
  }

  ghost predicate MovesEntries(s: QuotaState, t: QuotaState, now: int) {
    && (forall id :: id in t.pending ==> id in s.pending && t.pending[id] == s.pending[id])
    && (forall id :: id in s.reservations ==> id in t.reservations && t.reservations[id] == s.reservations[id])
    && (forall id :: id in t.reservations && id !in s.reservations ==>
          id in s.pending && id !in t.pending && t.reservations[id] == ReservationFor(s, s.pending[id], now))
    && (forall id :: id in s.pending && id !in t.pending ==> id in t.reservations)
  }

  lemma {:induction false} CostFrame(ids: seq<Key>, requests: map<Key, PermitRequest>, id: Key)
    requires id !in ids
    ensures CostOf(ids, requests - {id}) == CostOf(ids, requests)
  {
    if ids != [] {
      assert ids[0] in ids;
      assert forall x :: x in ids[1..] ==> x in ids;
      CostFrame(ids[1..], requests, id);
    }
  }

  lemma CostPrefix(ids: seq<Key>, requests: map<Key, PermitRequest>, k: nat)
    requires 0 < k <= |ids| && Distinct(ids) && ids[0] in requests
    ensures CostOf(ids[..k], requests) == requests[ids[0]].cost + CostOf(ids[1..][..k - 1], requests - {ids[0]})
  {
    assert ids[..k][1..] == ids[1..][..k - 1];
    DistinctParts(ids, 1);
    assert ids[0] in ids[..1];
    assert forall x :: x in ids[1..][..k - 1] ==> x in ids[1..];
    CostFrame(ids[1..][..k - 1], requests, ids[0]);
  }

  lemma HeadIsOwnId(s: QuotaState)
    requires QueueOk(s) && EntriesOk(s) && s.pendingOrder != []
    ensures var id := s.pendingOrder[0];
            id in s.pending && s.pending[id].(requestId := id) == s.pending[id] && s.pending[id].cost > 0
  {
    QueueHead(s);
  }

  lemma GrantStepPrefix(s: QuotaState, now: int, rest: Granting)
    requires Inv(s) && s.pendingOrder != [] && s.pendingOrder[0] in s.pending
    requires MovesPrefix(GrantHead(s, now), rest, |rest.grants|)
    ensures MovesPrefix(s, Granting(rest.state, [GrantFor(s, s.pending[s.pendingOrder[0]])] + rest.grants),
                        |rest.grants| + 1)
  {
    HeadIsOwnId(s);
    CostPrefix(s.pendingOrder, s.pending, |rest.grants| + 1);
    hide Inv, CostOf, Affordable;
  }

  lemma GrantStepGrants(s: QuotaState, now: int, grants: seq<PermitGrant>)
    requires Inv(s) && s.pendingOrder != [] && s.pendingOrder[0] in s.pending
    requires GrantsPrefix(GrantHead(s, now), grants)
    ensures GrantsPrefix(s, [GrantFor(s, s.pending[s.pendingOrder[0]])] + grants)
  {
    HeadIsOwnId(s);
    hide Inv;
    var all := [GrantFor(s, s.pending[s.pendingOrder[0]])] + grants;
    var t := GrantHead(s, now);
    forall i | 0 <= i < |all|
      ensures s.pendingOrder[i] in s.pending && all[i] == GrantFor(s, s.pending[s.pendingOrder[i]])
    {
      if i > 0 {
        assert t.pendingOrder[i - 1] == s.pendingOrder[i] && grants[i - 1] == all[i];
        assert t.pendingOrder[i - 1] in t.pending;
      }
    }
  }

  lemma {:induction false} GrantLoopPrefix(s: QuotaState, now: int)
    requires Inv(s)
    ensures MovesPrefix(s, GrantLoop(s, now), |GrantLoop(s, now).grants|)
    ensures GrantsPrefix(s, GrantLoop(s, now).grants)
    decreases |s.pendingOrder|
  {
    if s.pendingOrder != [] && s.inFlight < s.settings.maxInFlight {
      HeadIsOwnId(s);
      if Affordable(s.window.remaining, s.pending[s.pendingOrder[0]].cost) {
        GrantHeadInv(s, now);
        GrantLoopPrefix(GrantHead(s, now), now);
        hide Inv, MovesPrefix, GrantsPrefix;
        GrantStepPrefix(s, now, GrantLoop(GrantHead(s, now), now));
        GrantStepGrants(s, now, GrantLoop(GrantHead(s, now), now).grants);
      }
    }
  }

  lemma GrantHeadEntriesMove(s: QuotaState, now: int, t: QuotaState)
    requires s.pendingOrder != [] && s.pendingOrder[0] in s.pending && s.pendingOrder[0] !in s.reservations
    requires s.pending[s.pendingOrder[0]].requestId == s.pendingOrder[0]
    requires MovesEntries(GrantHead(s, now), t, now)
    ensures MovesEntries(s, t, now)
  {
    var id := s.pendingOrder[0];
    var h := GrantHead(s, now);
    assert h.reservations[id] == ReservationFor(s, s.pending[id], now);
    assert id in t.reservations;
    hide ReservationFor;
  }

  lemma {:induction false} GrantLoopEntries(s: QuotaState, now: int)
    requires Inv(s)
    ensures MovesEntries(s, GrantLoop(s, now).state, now)
    decreases |s.pendingOrder|
  {
    if s.pendingOrder != [] && s.inFlight < s.settings.maxInFlight {
      HeadIsOwnId(s);
      if Affordable(s.window.remaining, s.pending[s.pendingOrder[0]].cost) {
        GrantHeadInv(s, now);
        GrantLoopEntries(GrantHead(s, now), now);
        assert s.pendingOrder[0] !in s.reservations;
        hide Inv, MovesEntries;
        GrantHeadEntriesMove(s, now, GrantLoop(GrantHead(s, now), now).state);
      }
    }
  }

  // ---- the loop stops exactly where nothing longer fits ----

  lemma {:induction false} CostPositive(ids: seq<Key>, requests: map<Key, PermitRequest>)
    requires forall id :: id in requests ==> requests[id].cost > 0
    ensures CostOf(ids, requests) >= 0
  {
    if ids != [] { CostPositive(ids[1..], requests); }
  }

  lemma FitsShift(s: QuotaState, now: int, k: nat)
    requires Inv(s) && s.pendingOrder != [] && s.inFlight < s.settings.maxInFlight && k > 0
    requires s.pendingOrder[0] in s.pending && Affordable(s.window.remaining, s.pending[s.pendingOrder[0]].cost)
    ensures Fits(s, k) <==> Fits(GrantHead(s, now), k - 1)
  {
    HeadIsOwnId(s);
    if k <= |s.pendingOrder| { CostPrefix(s.pendingOrder, s.pending, k); }
    hide Inv, CostOf;
  }

  lemma HeadTooDear(s: QuotaState, k: nat)
    requires Inv(s) && s.pendingOrder != [] && k > 0
    requires s.pendingOrder[0] in s.pending && !Affordable(s.window.remaining, s.pending[s.pendingOrder[0]].cost)
    ensures !Fits(s, k)
  {
    if k <= |s.pendingOrder| {
      CostPrefix(s.pendingOrder, s.pending, k);
      HeadIsOwnId(s);
      assert forall id :: id in s.pending ==> GoodRequest(s.settings.scope, id, s.pending[id]);
      CostPositive(s.pendingOrder[1..][..k - 1], s.pending - {s.pendingOrder[0]});
    }
  }

  ghost predicate Longest(s: QuotaState, k: nat) {
    (k == 0 || Fits(s, k)) && forall j: nat :: Fits(s, j) ==> j <= k
  }

  lemma {:induction false} GrantLoopLongest(s: QuotaState, now: int)
    requires Inv(s)
    ensures Longest(s, |GrantLoop(s, now).grants|)
    decreases |s.pendingOrder|
  {
    if s.pendingOrder != [] && s.inFlight < s.settings.maxInFlight {
      HeadIsOwnId(s);
      if Affordable(s.window.remaining, s.pending[s.pendingOrder[0]].cost) {
        GrantHeadInv(s, now);
        GrantLoopLongest(GrantHead(s, now), now);
        LongestShift(s, now, |GrantLoop(GrantHead(s, now), now).grants|);
      } else {
        forall j: nat | Fits(s, j) ensures j == 0 {
          if j > 0 { HeadTooDear(s, j); }
        }
      }
    }
  }

  lemma LongestShift(s: QuotaState, now: int, k: nat)
    requires Inv(s) && s.pendingOrder != [] && s.inFlight < s.settings.maxInFlight
    requires s.pendingOrder[0] in s.pending && Affordable(s.window.remaining, s.pending[s.pendingOrder[0]].cost)
    requires Longest(GrantHead(s, now), k)
    ensures Longest(s, k + 1)
  {
    forall j: nat | Fits(s, j) ensures j <= k + 1 {
      if j > 0 { FitsShift(s, now, j); }
    }
    FitsShift(s, now, k + 1);
    if k == 0 {
      assert s.inFlight + 1 <= s.settings.maxInFlight;
      HeadFits(s);
    }
  }

  lemma HeadFits(s: QuotaState)
    requires s.pendingOrder != [] && s.inFlight < s.settings.maxInFlight
    requires s.pendingOrder[0] in s.pending && Affordable(s.window.remaining, s.pending[s.pendingOrder[0]].cost)
    ensures Fits(s, 1)
  {
    assert s.pendingOrder[..1] == [s.pendingOrder[0]];
    assert s.pendingOrder[..1][1..] == [];
  }

  /**
   An unblocked pass returns the grants of exactly the longest queue prefix that fits both the free
   slots and the known balance, leaves the rest of the queue in order, and moves those requests,
   and nothing else, into reservations.
   */
  lemma GreedyIsLongestPrefix(s: QuotaState, now: int)
    requires Inv(s) && !IsBlocked(Advance(s, now), now)
    ensures var r := GrantAvailable(s, now); var t := Advance(s, now);
            && Longest(t, |r.grants|)
            && MovesPrefix(t, r, |r.grants|)
            && GrantsPrefix(t, r.grants)
            && MovesEntries(t, r.state, now)
  {
    var t := Advance(s, now);
    AdvanceInv(s, now);
    GrantLoopLongest(t, now);
    GrantLoopPrefix(t, now);
    GrantLoopEntries(t, now);
    if t.settings.maxInFlight <= 0 {
      assert GrantLoop(t, now) == Granting(t, []);
    }
  }

  /** A blocked pass grants nothing and touches only the window. */
  lemma BlockedGrantsNothing(s: QuotaState, now: int)
    requires IsBlocked(Advance(s, now), now)
    ensures GrantAvailable(s, now) == Granting(Advance(s, now), [])
  {
  }
}
