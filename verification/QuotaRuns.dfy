/** Theorems about every run of a coordinator started fresh: ledger, FIFO order, deduplication. */
module QuotaRuns {
  import opened Collections
  import opened QuotaModel
  import opened QuotaInvariant
  import opened QuotaShape
  import opened QuotaHistory

  // ---- the deduplication window against the full marking history ----

  function Cap(s: QuotaState): nat { Max(0, s.settings.dedupWindowSize) }

  /** When it was admitted, the ID was not among the newest `cap` markings, which were all different. */
  ghost predicate AdmittedFresh(k: Ticket, marks: seq<Key>, cap: nat) {
    k.before <= |marks| && k.id !in Newest(marks[..k.before], cap) && Distinct(Newest(marks[..k.before], cap))
  }

  ghost predicate AllFresh(log: seq<Ticket>, marks: seq<Key>, cap: nat) {
    forall i :: 0 <= i < |log| ==> AdmittedFresh(log[i], marks, cap)
  }

  /** A closed ticket's ID was marked terminal after the ticket was opened. */
  ghost predicate ClosedMarked(log: seq<Ticket>, marks: seq<Key>) {
    forall i :: 0 <= i < |log| && !IsOpen(log[i]) ==> log[i].before <= |marks| && log[i].id in marks[log[i].before..]
  }

  /** Between two admissions of one ID, that ID was marked terminal. */
  ghost predicate ReopenedMarked(log: seq<Ticket>, marks: seq<Key>) {
    forall i, j :: 0 <= i < j < |log| && log[i].id == log[j].id ==>
      log[i].before <= log[j].before <= |marks| && log[i].id in marks[log[i].before..log[j].before]
  }

  ghost predicate Dedup(s: QuotaState, h: History) {
    && s.terminal.ids == Newest(h.marks, Cap(s))
    && AllFresh(h.log, h.marks, Cap(s))
    && ClosedMarked(h.log, h.marks)
    && ReopenedMarked(h.log, h.marks)
  }

  lemma WindowFollowsMarks(s: QuotaState, t: QuotaState, marks: seq<Key>, added: seq<Key>)
    requires GoodWindow(s.terminal, s.settings.dedupWindowSize) && s.terminal.ids == Newest(marks, Cap(s))
    requires MarkShape(s, t, added)
    ensures t.terminal.ids == Newest(marks + added, Cap(s))
  {
    MarkAllNewest(s.terminal, s.settings.dedupWindowSize, added);
    NewestConcatenation(marks, added, Cap(s));
    hide GoodWindow, Newest, MarkAll, Distinct;
  }

  lemma FreshStays(log: seq<Ticket>, next: seq<Ticket>, marks: seq<Key>, added: seq<Key>, cap: nat)
    requires AllFresh(log, marks, cap) && |next| == |log|
    requires forall i :: 0 <= i < |log| ==> next[i].id == log[i].id && next[i].before == log[i].before
    ensures AllFresh(next, marks + added, cap)
  {
    forall i | 0 <= i < |next| ensures AdmittedFresh(next[i], marks + added, cap) {
      assert AdmittedFresh(log[i], marks, cap);
      assert (marks + added)[..next[i].before] == marks[..log[i].before];
    }
  }

  lemma ReopenedStays(log: seq<Ticket>, next: seq<Ticket>, marks: seq<Key>, added: seq<Key>)
    requires ReopenedMarked(log, marks) && |next| == |log|
    requires forall i :: 0 <= i < |log| ==> next[i].id == log[i].id && next[i].before == log[i].before
    ensures ReopenedMarked(next, marks + added)
  {
    forall i, j | 0 <= i < j < |next| && next[i].id == next[j].id
      ensures next[i].before <= next[j].before <= |marks + added|
      ensures next[i].id in (marks + added)[next[i].before..next[j].before]
    {
      assert (marks + added)[next[i].before..next[j].before] == marks[log[i].before..log[j].before];
    }
  }

  lemma ClosedStays(s: QuotaState, e: Event, t: QuotaState, log: seq<Ticket>, marks: seq<Key>, added: seq<Key>)
    requires ApartOk(s) && TicketsLive(s, log) && ClosedMarked(log, marks)
    requires forall i :: 0 <= i < |log| ==> log[i].before <= |marks|
    requires FlowShape(s, e, t) && MarkShape(s, t, added) && !Admitting(s, e)
    ensures ClosedMarked(NextLog(log, t, e), marks + added)
  {
    var next := NextLog(log, t, e);
    hide MarkAll, Distinct;
    forall i | 0 <= i < |next| && !IsOpen(next[i])
      ensures next[i].before <= |marks + added| && next[i].id in (marks + added)[next[i].before..]
    {
      assert next[i] == NextTicket(log[i], t, e);
      var b := log[i].before;
      assert (marks + added)[b..] == marks[b..] + added;
      if IsOpen(log[i]) {
        assert Open(s, log[i].id) && !Open(t, log[i].id);
      }
    }
  }

  lemma AdmitFresh(s: QuotaState, log: seq<Ticket>, marks: seq<Key>, id: Key)
    requires GoodWindow(s.terminal, s.settings.dedupWindowSize) && s.terminal.ids == Newest(marks, Cap(s))
    requires id !in s.terminal.ids && AllFresh(log, marks, Cap(s))
    ensures AllFresh(log + [Ticket(id, Waiting, |marks|)], marks, Cap(s))
  {
    assert marks[..|marks|] == marks;
    hide Newest, Distinct;
  }

  lemma AdmitReopened(s: QuotaState, log: seq<Ticket>, marks: seq<Key>, id: Key)
    requires TicketsLive(s, log) && !Open(s, id) && ClosedMarked(log, marks) && ReopenedMarked(log, marks)
    ensures ClosedMarked(log + [Ticket(id, Waiting, |marks|)], marks)
    ensures ReopenedMarked(log + [Ticket(id, Waiting, |marks|)], marks)
  {
    var next := log + [Ticket(id, Waiting, |marks|)];
    forall i, j | 0 <= i < j < |next| && next[i].id == next[j].id
      ensures next[i].before <= next[j].before <= |marks|
      ensures next[i].id in marks[next[i].before..next[j].before]
    {
      if j == |log| {
        assert !IsOpen(log[i]);
        assert marks[next[i].before..next[j].before] == marks[log[i].before..];
      }
    }
  }

  // ---- the invariant of histories ----

  ghost predicate HistoryInv(s: QuotaState, h: History) {
    && Inv(s)
    && s.pendingOrder == WaitingIds(h.log)
    && Ledger(s, h.log)
    && h.grants == GrantedIds(h.log)
    && NoOvertaking(h.log)
    && Dedup(s, h)
  }

  lemma AdmittedState(s: QuotaState, r: PermitRequest)
    requires Admits(s, r)
    ensures var t := Admit(s, r);
            && t.pending.Keys == s.pending.Keys + {r.requestId} && t.reservations == s.reservations
            && t.terminal == s.terminal && t.settings == s.settings
            && t.pendingOrder == s.pendingOrder + [r.requestId]
            && !Open(s, r.requestId) && r.requestId !in s.terminal.ids
  {
    hide RequestDenial;
  }

  /** An admission leaves every ticket as it was. */
  lemma AdmitKeepsLog(s: QuotaState, log: seq<Ticket>, r: PermitRequest)
    requires TicketsLive(s, log) && Admits(s, r) && ApartOk(s)
    ensures NextLog(log, Admit(s, r), RequestPermit(r)) == log
  {
    AdmittedState(s, r);
    var t := Admit(s, r);
    hide Admits, Admit;
    forall i | 0 <= i < |log| ensures NextTicket(log[i], t, RequestPermit(r)) == log[i] {
    }
  }

  lemma RecordAdmission(s: QuotaState, h: History, r: PermitRequest)
    requires HistoryInv(s, h) && Admits(s, r)
    ensures HistoryInv(Admit(s, r), Record(h, s, RequestPermit(r)))
  {
    var id := r.requestId;
    var k := Ticket(id, Waiting, |h.marks|);
    AdmittedState(s, r);
    AdmitInv(s, r);
    AdmitKeepsLog(s, h.log, r);
    var h' := Record(h, s, RequestPermit(r));
    assert h'.log == h.log + [k] && h'.grants == h.grants && h'.marks == h.marks;
    hide Record, Admits, Inv;
    var t := Admit(s, r);
    AppendViews(h.log, k);
    AdmitLedger(s, h.log, t, id, |h.marks|);
    AdmitDedup(s, h, id);
    hide Ledger, Admit, WaitingIds, GrantedIds, NoOvertaking;
  }

  lemma AdmitDedup(s: QuotaState, h: History, id: Key)
    requires GoodWindow(s.terminal, s.settings.dedupWindowSize) && TicketsLive(s, h.log) && Dedup(s, h)
    requires !Open(s, id) && id !in s.terminal.ids
    ensures Dedup(s, h.(log := h.log + [Ticket(id, Waiting, |h.marks|)]))
  {
    AdmitFresh(s, h.log, h.marks, id);
    AdmitReopened(s, h.log, h.marks, id);
    hide AllFresh, ClosedMarked, ReopenedMarked, TicketsLive, Newest, GoodWindow;
  }

  lemma AppendViews(log: seq<Ticket>, k: Ticket)
    requires NoOvertaking(log) && k.fate.Waiting?
    ensures WaitingIds(log + [k]) == WaitingIds(log) + [k.id]
    ensures GrantedIds(log + [k]) == GrantedIds(log)
    ensures NoOvertaking(log + [k])
  {
    assert (log + [k])[..|log|] == log;
  }

  lemma RecordWithoutAdmission(h: History, s: QuotaState, e: Event)
    requires !Admitting(s, e)
    ensures var o := Step(s, e);
            Record(h, s, e) == History(NextLog(h.log, o.state, e), h.grants + GrantIds(o.grants), h.marks + o.marks)
  {
    var o := Step(s, e);
    hide Step, Admitting, NextLog, GrantIds;
    assert NextLog(h.log, o.state, e) + [] == NextLog(h.log, o.state, e);
  }

  lemma RecordOther(s: QuotaState, h: History, e: Event)
    requires HistoryInv(s, h) && !Admitting(s, e)
    ensures HistoryInv(Step(s, e).state, Record(h, s, e))
  {
    hide Inv, Step, Record, Admitting, NextLog, GrantIds, WaitingIds, GrantedIds, Ledger, NoOvertaking,
         QueueOk, GoodWindow, ApartOk, FlowShape, MarkShape, GrantShape, Dedup;
    var o := Step(s, e);
    EveryStepShape(s, e);
    StepInv(s, e);
    StepKeepsSettings(s, e);
    RecordWithoutAdmission(h, s, e);
    InvParts(s);
    WaitingAfter(h.log, o.state, e);
    NextLedger(s, h.log, o.state, e);
    LedgerLive(s, h.log);
    GrantsAfter(s, e, o.state, o.grants, h);
    DedupAfter(s, e, o.state, o.marks, h);
  }

  lemma LedgerLive(s: QuotaState, log: seq<Ticket>)
    requires Ledger(s, log)
    ensures TicketsLive(s, log)
  {
  }

  lemma GrantsAfter(s: QuotaState, e: Event, t: QuotaState, grants: seq<PermitGrant>, h: History)
    requires QueueOk(s) && s.pendingOrder == WaitingIds(h.log) && TicketsLive(s, h.log)
    requires h.grants == GrantedIds(h.log) && NoOvertaking(h.log)
    requires GrantShape(s, t, grants) && FlowShape(s, e, t)
    ensures h.grants + GrantIds(grants) == GrantedIds(NextLog(h.log, t, e))
    ensures NoOvertaking(NextLog(h.log, t, e))
  {
    NextGrantsFirst(s, e, t, grants, h.log);
    GrantedAfter(h.log, NextLog(h.log, t, e), |grants|);
    NoOvertakingAfter(h.log, NextLog(h.log, t, e), |grants|);
    assert GrantIds(grants) == s.pendingOrder[..|grants|];
    hide NextLog, WaitingIds, GrantedIds, NoOvertaking, FlowShape, QueueOk, TicketsLive, GrantsFirst;
  }

  lemma DedupAfter(s: QuotaState, e: Event, t: QuotaState, marks: seq<Key>, h: History)
    requires ApartOk(s) && GoodWindow(s.terminal, s.settings.dedupWindowSize) && TicketsLive(s, h.log) && Dedup(s, h)
    requires FlowShape(s, e, t) && MarkShape(s, t, marks) && !Admitting(s, e) && t.settings == s.settings
    ensures forall grants :: Dedup(t, History(NextLog(h.log, t, e), grants, h.marks + marks))
  {
    var next := NextLog(h.log, t, e);
    assert forall i :: 0 <= i < |h.log| ==> next[i].id == h.log[i].id && next[i].before == h.log[i].before;
    assert forall i :: 0 <= i < |h.log| ==> h.log[i].before <= |h.marks| by {
      forall i | 0 <= i < |h.log| ensures h.log[i].before <= |h.marks| {
        assert AdmittedFresh(h.log[i], h.marks, Cap(s));
      }
    }
    WindowFollowsMarks(s, t, h.marks, marks);
    FreshStays(h.log, next, h.marks, marks, Cap(s));
    ReopenedStays(h.log, next, h.marks, marks);
    ClosedStays(s, e, t, h.log, h.marks, marks);
    hide AllFresh, ClosedMarked, ReopenedMarked, FlowShape, MarkShape, Newest, NextLog, TicketsLive;
  }

  lemma RecordInv(s: QuotaState, h: History, e: Event)
    requires HistoryInv(s, h)
    ensures HistoryInv(Step(s, e).state, Record(h, s, e))
  {
    hide HistoryInv, Record;
    if Admitting(s, e) { RecordAdmission(s, h, e.request); } else { RecordOther(s, h, e); }
  }

  // ---- runs ----

  const NO_HISTORY := History([], [], [])

  function HistoryOf(s: QuotaState, es: seq<Event>): History {
    if es == [] then NO_HISTORY
    else Record(HistoryOf(s, es[..|es| - 1]), Run(s, es[..|es| - 1]), es[|es| - 1])
  }

  /** A coordinator as Signal-with-Start creates it. */
  ghost predicate Fresh(s: QuotaState) {
    && (s.window.limit.Some? ==> s.window.limit.value >= 0)
    && s == Initial(s.settings.scope, s.window.limit, s.settings.maxInFlight, s.settings.maxPendingRequests,
                    s.settings.dedupWindowSize)
  }

  lemma FreshHistory(s: QuotaState)
    requires Fresh(s)
    ensures HistoryInv(s, NO_HISTORY)
  {
    InitialInv(s.settings.scope, s.window.limit, s.settings.maxInFlight, s.settings.maxPendingRequests,
               s.settings.dedupWindowSize);
  }

  lemma {:induction false} RunHistory(s: QuotaState, es: seq<Event>)
    requires Fresh(s)
    ensures HistoryInv(Run(s, es), HistoryOf(s, es))
  {
    if es == [] {
      FreshHistory(s);
    } else {
      RunHistory(s, es[..|es| - 1]);
      RecordInv(Run(s, es[..|es| - 1]), HistoryOf(s, es[..|es| - 1]), es[|es| - 1]);
    }
    hide HistoryInv, Fresh, Record, Step;
  }

  // ---- theorems ----

  function IdsHaving(log: seq<Ticket>, fate: Fate): seq<Key> {
    if log == [] then []
    else IdsHaving(log[..|log| - 1], fate) + (if log[|log| - 1].fate == fate then [log[|log| - 1].id] else [])
  }

  function Count(log: seq<Ticket>, fate: Fate): nat {
    |IdsHaving(log, fate)|
  }

  lemma {:induction false} CountAll(log: seq<Ticket>)
    ensures |log| == Count(log, Waiting) + Count(log, Reserved) + Count(log, CanceledWaiting)
                   + Count(log, DeniedByDisable) + Count(log, Fate.Completed) + Count(log, CanceledAfterGrant)
  {
    if log != [] { CountAll(log[..|log| - 1]); }
  }

  lemma {:induction false} IdsHavingMembers(log: seq<Ticket>, fate: Fate)
    ensures forall id :: id in IdsHaving(log, fate) <==> Holds(log, id, fate)
  {
    if log != [] {
      var n := |log| - 1;
      var last := log[n];
      IdsHavingMembers(log[..n], fate);
      assert log == log[..n] + [last];
      forall id ensures id in IdsHaving(log, fate) <==> Holds(log, id, fate) {
        AppendHolds(log[..n], last, id, fate);
      }
    }
  }

  lemma {:induction false} IdsHavingDistinct(log: seq<Ticket>, fate: Fate)
    requires OpenApart(log) && (fate.Waiting? || fate.Reserved?)
    ensures Distinct(IdsHaving(log, fate))
  {
    if log != [] {
      var n := |log| - 1;
      IdsHavingDistinct(log[..n], fate);
      IdsHavingMembers(log[..n], fate);
      if log[n].fate == fate {
        assert !Holds(log[..n], log[n].id, fate);
        DistinctAppend(IdsHaving(log[..n], fate), log[n].id);
      } else {
        assert IdsHaving(log, fate) == IdsHaving(log[..n], fate);
      }
    }
  }

  lemma OpenCounts(s: QuotaState, log: seq<Ticket>)
    requires Ledger(s, log)
    ensures Count(log, Waiting) == |s.pending| && Count(log, Reserved) == |s.reservations|
  {
    IdsHavingMembers(log, Waiting);
    IdsHavingMembers(log, Reserved);
    IdsHavingDistinct(log, Waiting);
    IdsHavingDistinct(log, Reserved);
    HeldIds(s, log);
    hide Ledger, IdsHaving, Distinct, Holds;
    ListsSize(IdsHaving(log, Waiting), s.pending.Keys);
    ListsSize(IdsHaving(log, Reserved), s.reservations.Keys);
  }

  lemma HeldIds(s: QuotaState, log: seq<Ticket>)
    requires Ledger(s, log)
    ensures forall id :: Holds(log, id, Waiting) <==> id in s.pending
    ensures forall id :: Holds(log, id, Reserved) <==> id in s.reservations
  {
  }

  /**
   The ledger over every run: each admission is in exactly one account, the waiting account is the
   pending map, the reserved account is the reservations map, and in-flight counts the latter.
   */
  lemma LedgerBalances(s: QuotaState, es: seq<Event>)
    requires Fresh(s)
    ensures var t := Run(s, es); var log := HistoryOf(s, es).log;
            && (forall id :: Holds(log, id, Waiting) <==> id in t.pending)
            && (forall id :: Holds(log, id, Reserved) <==> id in t.reservations)
            && t.inFlight == |t.reservations| <= Max(0, s.settings.maxInFlight)
            && |log| == |t.pending| + |t.reservations| + Count(log, CanceledWaiting)
                        + Count(log, DeniedByDisable) + Count(log, Fate.Completed) + Count(log, CanceledAfterGrant)
  {
    var t, h := Run(s, es), HistoryOf(s, es);
    RunHistory(s, es);
    RunKeepsSettings(s, es);
    assert Ledger(t, h.log) && FlightOk(t);
    hide HistoryInv, Fresh, Ledger, Run, HistoryOf;
    HeldIds(t, h.log);
    OpenCounts(t, h.log);
    CountAll(h.log);
  }

  /**
   First in, first out over every run: the grants are the admissions that were granted, in admission
   order; nothing was granted past a request that still waits; and the queue is the rest, in order.
   */
  lemma GrantsFollowAdmissions(s: QuotaState, es: seq<Event>)
    requires Fresh(s)
    ensures var h := HistoryOf(s, es);
            && h.grants == GrantedIds(h.log)
            && (forall i, j :: 0 <= i < j < |h.log| && WasGranted(h.log[j]) ==> !h.log[i].fate.Waiting?)
            && Run(s, es).pendingOrder == WaitingIds(h.log)
  {
    RunHistory(s, es);
    hide Inv, Ledger, Dedup, Fresh;
  }

  /** `cap` different IDs other than `id` were marked terminal from `from` on, up to `to`. */
  ghost predicate OthersMarked(marks: seq<Key>, from: nat, to: nat, id: Key, cap: nat) {
    && from + cap <= to <= |marks|
    && Distinct(marks[to - cap..to]) && id !in marks[to - cap..to]
  }

  lemma NewestContains(s: seq<Key>, m: nat, cap: nat)
    requires m < |s| <= m + cap
    ensures s[m] in Newest(s, cap)
  {
    if |s| > cap { assert s[|s| - cap..][m - (|s| - cap)] == s[m]; }
  }

  lemma MarkedBeforeAdmission(marks: seq<Key>, m: nat, k: Ticket, cap: nat)
    requires m < k.before && AdmittedFresh(k, marks, cap) && marks[m] == k.id
    ensures OthersMarked(marks, m + 1, k.before, k.id, cap)
  {
    var all := marks[..k.before];
    assert all[m] == k.id;
    if m + cap >= k.before { NewestContains(all, m, cap); }
    assert marks[k.before - cap..k.before] == Newest(all, cap);
  }

  /**
   An ID marked terminal, by completion, cancellation, disabling or a cancel that outran its
   request, is admitted again only after a full window of other IDs became terminal.
   */
  lemma TombstonesHold(s: QuotaState, es: seq<Event>, m: nat, j: nat)
    requires Fresh(s)
    requires var h := HistoryOf(s, es); j < |h.log| && m < h.log[j].before <= |h.marks| && h.marks[m] == h.log[j].id
    ensures var h := HistoryOf(s, es);
            OthersMarked(h.marks, m + 1, h.log[j].before, h.log[j].id, Cap(s))
  {
    RunHistory(s, es);
    RunKeepsSettings(s, es);
    var h := HistoryOf(s, es);
    assert AdmittedFresh(h.log[j], h.marks, Cap(s));
    hide HistoryInv, Fresh, HistoryOf, AdmittedFresh, OthersMarked;
    MarkedBeforeAdmission(h.marks, m, h.log[j], Cap(s));
  }

  /** Between two admissions of one ID it was marked terminal. */
  lemma ReopenedParts(log: seq<Ticket>, marks: seq<Key>, i: nat, j: nat)
    requires ReopenedMarked(log, marks) && i < j < |log| && log[i].id == log[j].id
    ensures log[i].before <= log[j].before <= |marks| && log[i].id in marks[log[i].before..log[j].before]
  {
  }

  lemma RunReopened(s: QuotaState, es: seq<Event>)
    requires Fresh(s)
    ensures ReopenedMarked(HistoryOf(s, es).log, HistoryOf(s, es).marks)
  {
    hide Fresh, Run, HistoryOf, Ledger, AllFresh, ClosedMarked, ReopenedMarked, Inv, NoOvertaking;
    RunHistory(s, es);
  }

  lemma FindMark(marks: seq<Key>, a: nat, b: nat, id: Key) returns (m: nat)
    requires a <= b <= |marks| && id in marks[a..b]
    ensures a <= m < b && marks[m] == id
  {
    var p :| 0 <= p < b - a && marks[a..b][p] == id;
    m := a + p;
  }

  /**
   The same ID is admitted, and so granted, twice only if it was marked terminal in between and then
   a full window of different other IDs became terminal before the second admission.
   */
  lemma RegrantNeedsFullWindow(s: QuotaState, es: seq<Event>, i: nat, j: nat) returns (m: nat)
    requires Fresh(s)
    requires var h := HistoryOf(s, es); i < j < |h.log| && h.log[i].id == h.log[j].id
    ensures var h := HistoryOf(s, es);
            && h.log[i].before <= m < |h.marks| && h.marks[m] == h.log[i].id
            && OthersMarked(h.marks, m + 1, h.log[j].before, h.log[j].id, Cap(s))
  {
    hide *;
    var h := HistoryOf(s, es);
    RunReopened(s, es);
    ReopenedParts(h.log, h.marks, i, j);
    m := FindMark(h.marks, h.log[i].before, h.log[j].before, h.log[i].id);
    TombstonesHold(s, es, m, j);
  }
}
