/**
 Whole coordinator runs, watched from outside: every admission gets a ticket whose fate is read off
 the states around each step.  The ledger, the FIFO order and the deduplication window are facts
 about these histories.
 */
module QuotaHistory {
  import opened Collections
  import opened QuotaModel
  import opened QuotaInvariant
  import opened QuotaShape

  datatype Fate =
    | Waiting | Reserved
    | CanceledWaiting | DeniedByDisable
    | Completed | CanceledAfterGrant

  /** One accepted request; `before` counts the terminal markings made before it was admitted. */
  datatype Ticket = Ticket(id: Key, fate: Fate, before: nat)

  /** Tickets in admission order, granted IDs in grant order, terminal markings in marking order. */
  datatype History = History(log: seq<Ticket>, grants: seq<Key>, marks: seq<Key>)

  function NextFate(id: Key, fate: Fate, t: QuotaState, e: Event): Fate {
    match fate
    case Waiting =>
      if id in t.pending then Waiting
      else if id in t.reservations then Reserved
      else if e.DisableScope? then DeniedByDisable
      else CanceledWaiting
    case Reserved =>
      if id in t.reservations then Reserved
      else if e.PermitCompleted? then Fate.Completed
      else CanceledAfterGrant
    case _ => fate
  }

  function NextTicket(k: Ticket, t: QuotaState, e: Event): Ticket {
    k.(fate := NextFate(k.id, k.fate, t, e))
  }

  function NextLog(log: seq<Ticket>, t: QuotaState, e: Event): (r: seq<Ticket>)
    ensures |r| == |log|
    ensures forall i :: 0 <= i < |log| ==> r[i] == NextTicket(log[i], t, e)
  {
    seq(|log|, i requires 0 <= i < |log| => NextTicket(log[i], t, e))
  }

  function GrantIds(grants: seq<PermitGrant>): (r: seq<Key>)
    ensures |r| == |grants| && forall i :: 0 <= i < |grants| ==> r[i] == grants[i].requestId
  {
    seq(|grants|, i requires 0 <= i < |grants| => grants[i].requestId)
  }

  function Record(h: History, s: QuotaState, e: Event): History {
    var o := Step(s, e);
    History(NextLog(h.log, o.state, e)
              + (if Admitting(s, e) then [Ticket(e.request.requestId, Waiting, |h.marks|)] else []),
            h.grants + GrantIds(o.grants),
            h.marks + o.marks)
  }

  // ---- views of the log ----

  predicate IsOpen(k: Ticket) { k.fate.Waiting? || k.fate.Reserved? }

  predicate WasGranted(k: Ticket) {
    k.fate.Reserved? || k.fate.Completed? || k.fate.CanceledAfterGrant?
  }

  function WaitingIds(log: seq<Ticket>): seq<Key> {
    if log == [] then []
    else WaitingIds(log[..|log| - 1]) + (if log[|log| - 1].fate.Waiting? then [log[|log| - 1].id] else [])
  }

  function GrantedIds(log: seq<Ticket>): seq<Key> {
    if log == [] then []
    else GrantedIds(log[..|log| - 1]) + (if WasGranted(log[|log| - 1]) then [log[|log| - 1].id] else [])
  }

  // ---- the ledger ----

  ghost predicate OpenApart(log: seq<Ticket>) {
    forall i, j :: 0 <= i < j < |log| && IsOpen(log[i]) && IsOpen(log[j]) ==> log[i].id != log[j].id
  }

  ghost predicate TicketsLive(s: QuotaState, log: seq<Ticket>) {
    && (forall i :: 0 <= i < |log| && log[i].fate.Waiting? ==> log[i].id in s.pending)
    && (forall i :: 0 <= i < |log| && log[i].fate.Reserved? ==> log[i].id in s.reservations)
  }

  ghost predicate EntriesTicketed(s: QuotaState, log: seq<Ticket>) {
    && (forall id :: id in s.pending ==> Holds(log, id, Waiting))
    && (forall id :: id in s.reservations ==> Holds(log, id, Reserved))
  }

  /** Open tickets have different IDs, and are exactly the pending and the reserved requests. */
  ghost predicate Ledger(s: QuotaState, log: seq<Ticket>) {
    OpenApart(log) && TicketsLive(s, log) && EntriesTicketed(s, log)
  }

  ghost predicate Holds(log: seq<Ticket>, id: Key, fate: Fate) {
    exists i :: 0 <= i < |log| && log[i].id == id && log[i].fate == fate
  }

  lemma NextHolds(log: seq<Ticket>, t: QuotaState, e: Event, id: Key, fate: Fate)
    requires Holds(log, id, fate)
    ensures Holds(NextLog(log, t, e), id, NextFate(id, fate, t, e))
  {
    var i :| 0 <= i < |log| && log[i].id == id && log[i].fate == fate;
    assert NextLog(log, t, e)[i] == NextTicket(log[i], t, e);
  }

  lemma NextOpen(log: seq<Ticket>, t: QuotaState, e: Event)
    requires OpenApart(log)
    ensures OpenApart(NextLog(log, t, e)) && TicketsLive(t, NextLog(log, t, e))
  {
    var next := NextLog(log, t, e);
    forall i | 0 <= i < |log|
      ensures next[i].id == log[i].id && (IsOpen(next[i]) ==> IsOpen(log[i]))
      ensures next[i].fate.Waiting? ==> log[i].id in t.pending
      ensures next[i].fate.Reserved? ==> log[i].id in t.reservations
    {
      assert next[i] == NextTicket(log[i], t, e);
    }
    hide NextLog, NextTicket, IsOpen;
  }

  lemma NextTicketed(s: QuotaState, log: seq<Ticket>, t: QuotaState, e: Event)
    requires EntriesTicketed(s, log) && FlowShape(s, e, t) && !Admitting(s, e)
    ensures EntriesTicketed(t, NextLog(log, t, e))
  {
    var next := NextLog(log, t, e);
    forall id | id in t.pending ensures Holds(next, id, Waiting) {
      NextHolds(log, t, e, id, Waiting);
    }
    forall id | id in t.reservations ensures Holds(next, id, Reserved) {
      if id in s.pending { NextHolds(log, t, e, id, Waiting); } else { NextHolds(log, t, e, id, Reserved); }
    }
  }

  /** Steps without an admission keep the ledger: fates only move forward. */
  lemma NextLedger(s: QuotaState, log: seq<Ticket>, t: QuotaState, e: Event)
    requires Ledger(s, log) && FlowShape(s, e, t) && !Admitting(s, e)
    ensures Ledger(t, NextLog(log, t, e))
  {
    NextOpen(log, t, e);
    NextTicketed(s, log, t, e);
    hide OpenApart, TicketsLive, EntriesTicketed, FlowShape;
  }

  lemma AppendHolds(log: seq<Ticket>, k: Ticket, id: Key, fate: Fate)
    ensures Holds(log + [k], id, fate) <==> Holds(log, id, fate) || (k.id == id && k.fate == fate)
  {
    if Holds(log, id, fate) {
      var i :| 0 <= i < |log| && log[i].id == id && log[i].fate == fate;
      assert (log + [k])[i] == log[i];
    }
    if k.id == id && k.fate == fate {
      assert (log + [k])[|log|] == k;
    }
    if Holds(log + [k], id, fate) {
      var i :| 0 <= i < |log + [k]| && (log + [k])[i].id == id && (log + [k])[i].fate == fate;
      assert i < |log| ==> log[i] == (log + [k])[i];
    }
  }

  /** An admission opens one new ticket for an ID that had no open ticket. */
  lemma AdmitLedger(s: QuotaState, log: seq<Ticket>, t: QuotaState, id: Key, before: nat)
    requires Ledger(s, log) && !Open(s, id)
    requires t.pending.Keys == s.pending.Keys + {id} && t.reservations == s.reservations
    ensures Ledger(t, log + [Ticket(id, Waiting, before)])
  {
    var k := Ticket(id, Waiting, before);
    forall x | x in t.pending ensures Holds(log + [k], x, Waiting) { AppendHolds(log, k, x, Waiting); }
    forall x | x in t.reservations ensures Holds(log + [k], x, Reserved) { AppendHolds(log, k, x, Reserved); }
    hide Holds;
  }

  // ---- first in, first out ----

  /** No ticket was granted while an earlier one still waits. */
  ghost predicate NoOvertaking(log: seq<Ticket>) {
    forall i, j :: 0 <= i < j < |log| && WasGranted(log[j]) ==> !log[i].fate.Waiting?
  }

  /** How many tickets wait ahead of ticket `i`. */
  function Rank(log: seq<Ticket>, i: nat): nat
    requires i <= |log|
  {
    |WaitingIds(log[..i])|
  }

  lemma {:induction false} WaitingAt(log: seq<Ticket>, i: nat)
    requires i < |log| && log[i].fate.Waiting?
    ensures Rank(log, i) < |WaitingIds(log)| && WaitingIds(log)[Rank(log, i)] == log[i].id
  {
    var n := |log| - 1;
    if i < n {
      assert log[..n][..i] == log[..i];
      WaitingAt(log[..n], i);
    }
  }

  lemma {:induction false} RankGrows(log: seq<Ticket>, i: nat, j: nat)
    requires i < j <= |log| && log[i].fate.Waiting?
    ensures Rank(log, i) < Rank(log, j)
  {
    assert log[..j][..i] == log[..i];
    assert log[..j][i] == log[i];
    WaitingAt(log[..j], i);
  }

  lemma {:induction false} NoneWaiting(log: seq<Ticket>)
    requires forall i :: 0 <= i < |log| ==> !log[i].fate.Waiting?
    ensures WaitingIds(log) == []
  {
    if log != [] { NoneWaiting(log[..|log| - 1]); }
  }

  /** The next log differs from the log by granting exactly the first `k` waiting tickets. */
  ghost predicate GrantsFirst(log: seq<Ticket>, next: seq<Ticket>, k: nat) {
    && |next| == |log|
    && (forall i :: 0 <= i < |log| ==> next[i].id == log[i].id)
    && (forall i :: 0 <= i < |log| ==>
          (WasGranted(next[i]) <==> WasGranted(log[i]) || (log[i].fate.Waiting? && Rank(log, i) < k)))
    && (forall i :: 0 <= i < |log| && next[i].fate.Waiting? ==> log[i].fate.Waiting? && Rank(log, i) >= k)
  }

  lemma {:induction false} GrantedAfter(log: seq<Ticket>, next: seq<Ticket>, k: nat)
    requires NoOvertaking(log) && GrantsFirst(log, next, k)
    ensures GrantedIds(next) == GrantedIds(log) + WaitingIds(log)[..Min(k, |WaitingIds(log)|)]
  {
    if log != [] {
      var n := |log| - 1;
      GrantsFirstPrefix(log, next, k);
      assert NoOvertaking(log[..n]);
      GrantedAfter(log[..n], next[..n], k);
      if WasGranted(log[n]) { NoneWaiting(log[..n]); }
      assert Rank(log, n) == |WaitingIds(log[..n])|;
      GrantedLast(log, next, k);
    }
  }

  lemma GrantedLast(log: seq<Ticket>, next: seq<Ticket>, k: nat)
    requires log != [] && |next| == |log|
    requires var n := |log| - 1; var w := WaitingIds(log[..n]);
             && next[n].id == log[n].id
             && (WasGranted(log[n]) ==> w == [])
             && (WasGranted(next[n]) <==> WasGranted(log[n]) || (log[n].fate.Waiting? && |w| < k))
             && GrantedIds(next[..n]) == GrantedIds(log[..n]) + w[..Min(k, |w|)]
    ensures GrantedIds(next) == GrantedIds(log) + WaitingIds(log)[..Min(k, |WaitingIds(log)|)]
  {
    var n := |log| - 1;
    var w := WaitingIds(log[..n]);
    var granted := GrantedIds(log[..n]);
    if log[n].fate.Waiting? {
      assert WaitingIds(log) == w + [log[n].id];
      assert GrantedIds(log) == granted;
      if |w| < k {
        assert GrantedIds(next) == (granted + w) + [log[n].id] == granted + (w + [log[n].id]);
      } else {
        assert (w + [log[n].id])[..k] == w[..k];
      }
    } else {
      assert WaitingIds(log) == w;
      assert WasGranted(log[n]) ==> granted + [] == granted;
    }
  }

  lemma GrantsFirstPrefix(log: seq<Ticket>, next: seq<Ticket>, k: nat)
    requires log != [] && GrantsFirst(log, next, k)
    ensures GrantsFirst(log[..|log| - 1], next[..|log| - 1], k)
  {
    var n := |log| - 1;
    forall i | 0 <= i < n ensures Rank(log[..n], i) == Rank(log, i) {
      assert log[..n][..i] == log[..i];
    }
  }

  lemma NoOvertakingAfter(log: seq<Ticket>, next: seq<Ticket>, k: nat)
    requires NoOvertaking(log) && GrantsFirst(log, next, k)
    ensures NoOvertaking(next)
  {
    forall i, j | 0 <= i < j < |next| && WasGranted(next[j]) ensures !next[i].fate.Waiting? {
      if log[i].fate.Waiting? { RankGrows(log, i, j); }
    }
  }

  lemma NextGrantsFirst(s: QuotaState, e: Event, t: QuotaState, grants: seq<PermitGrant>, log: seq<Ticket>)
    requires QueueOk(s) && WaitingIds(log) == s.pendingOrder
    requires (forall i :: 0 <= i < |log| && log[i].fate.Waiting? ==> log[i].id in s.pending)
    requires GrantShape(s, t, grants) && FlowShape(s, e, t)
    ensures GrantsFirst(log, NextLog(log, t, e), |grants|)
  {
    var next := NextLog(log, t, e);
    var k := |grants|;
    forall i | 0 <= i < |log|
      ensures next[i].id == log[i].id
      ensures WasGranted(next[i]) <==> WasGranted(log[i]) || (log[i].fate.Waiting? && Rank(log, i) < k)
      ensures next[i].fate.Waiting? ==> log[i].fate.Waiting? && Rank(log, i) >= k
    {
      if log[i].fate.Waiting? {
        WaitingAt(log, i);
        InPrefix(s.pendingOrder, Rank(log, i), k);
      }
      TicketGranted(log[i], t, e, Rank(log, i) < k);
    }
    hide Rank, WaitingIds, GrantShape, FlowShape, QueueOk, WasGranted, NextLog;
  }

  lemma TicketGranted(k: Ticket, t: QuotaState, e: Event, early: bool)
    requires k.fate.Waiting? ==> (k.id in t.reservations <==> early)
    requires k.id in t.reservations ==> k.id !in t.pending
    ensures WasGranted(NextTicket(k, t, e)) <==> WasGranted(k) || (k.fate.Waiting? && early)
    ensures NextTicket(k, t, e).fate.Waiting? ==> k.fate.Waiting? && !early
  {
  }

  lemma InPrefix(order: seq<Key>, i: nat, k: nat)
    requires Distinct(order) && i < |order| && k <= |order|
    ensures order[i] in order[..k] <==> i < k
  {
    DistinctIndices(order);
    if i < k { assert order[..k][i] == order[i]; }
  }

  /** Filtering the waiting tickets is what happens to the queue. */
  lemma {:induction false} WaitingAfter(log: seq<Ticket>, t: QuotaState, e: Event)
    ensures WaitingIds(NextLog(log, t, e)) == Keep(WaitingIds(log), t.pending.Keys)
  {
    if log != [] {
      var n := |log| - 1;
      WaitingAfter(log[..n], t, e);
      assert NextLog(log, t, e)[..n] == NextLog(log[..n], t, e);
      var last := log[n];
      if last.fate.Waiting? {
        KeepAppend(WaitingIds(log[..n]), [last.id], t.pending.Keys);
        assert [last.id][..0] == [];
        assert Keep([last.id], t.pending.Keys) == if last.id in t.pending then [last.id] else [];
      } else {
        assert WaitingIds(log) == WaitingIds(log[..n]);
        assert !NextTicket(last, t, e).fate.Waiting?;
      }
    }
  }
}
