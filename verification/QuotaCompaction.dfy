/** Compaction repairs any carried state, and repairs it once. */
module QuotaCompaction {
  import opened Collections
  import opened QuotaModel
  import opened QuotaInvariant

  /** Listed IDs keep their first-occurrence order and stand before the sorted repair tail. */
  ghost predicate KeepsFirstOccurrenceOrder(before: seq<Key>, after: seq<Key>) {
    forall i, j :: 0 <= i < j < |after| ==> Precedes(before, after[i], after[j])
  }

  ghost predicate Precedes(before: seq<Key>, a: Key, b: Key) {
    if b in before then a in before && IndexOf(before, a) < IndexOf(before, b)
    else a in before || a < b
  }

  lemma CompactOrderLists(order: seq<Key>, ids: set<Key>)
    ensures Lists(CompactOrder(order, ids), ids)
  {
    FirstOccurrencesElements(order, ids);
    var tail := SortedKeys(ids - Elements(order));
    DistinctConcatenation(FirstOccurrences(order, ids), tail);
  }

  lemma CompactOrderKeepsOrder(order: seq<Key>, ids: set<Key>)
    ensures KeepsFirstOccurrenceOrder(order, CompactOrder(order, ids))
  {
    var head := FirstOccurrences(order, ids);
    var tail := SortedKeys(ids - Elements(order));
    var after := CompactOrder(order, ids);
    forall i, j | 0 <= i < j < |after| ensures Precedes(order, after[i], after[j]) {
      if i < |head| { FirstOccurrenceMember(order, ids, i); }
      if j < |head| {
        FirstOccurrenceMember(order, ids, j);
        FirstOccurrencesKeepOrder(order, ids, i, j);
      } else {
        assert tail[j - |head|] in tail;
      }
    }
  }

  lemma {:induction false} MarkAllDistinct(w: TerminalWindow, size: int, ids: seq<Key>)
    requires Distinct(w.ids)
    ensures Distinct(MarkAll(w, size, ids).ids)
  {
    if ids != [] {
      var n := |ids| - 1;
      MarkAllDistinct(w, size, ids[..n]);
      MarkDistinct(MarkAll(w, size, ids[..n]), size, ids[n]);
    }
  }

  lemma MarkDistinct(w: TerminalWindow, size: int, id: Key)
    requires Distinct(w.ids)
    ensures Distinct(MarkTerminal(w, size, id).ids)
  {
    var overflow := |w.order| + 1 - size;
    if size > 0 && id !in w.ids {
      DistinctAppend(w.ids, id);
      if overflow > 0 {
        RemoveEachElements(w.ids + [id], (w.order + [id])[..overflow]);
      }
    }
  }

  /** The two lists name the same IDs, each once, at most `size` of them. */
  ghost predicate Consistent(w: TerminalWindow, size: int) {
    Distinct(w.ids) && Lists(w.order, Elements(w.ids)) && |w.order| <= Max(0, size)
  }

  lemma CompactTerminalConsistent(w: TerminalWindow, size: int)
    requires Distinct(w.ids)
    ensures Consistent(CompactTerminal(w, size), size)
  {
    var order := CompactOrder(w.order, Elements(w.ids));
    CompactOrderLists(w.order, Elements(w.ids));
    var overflow := |order| - Max(0, size);
    if overflow > 0 {
      RemoveEachElements(w.ids, order[..overflow]);
      DistinctParts(order, overflow);
      hide CompactOrder, RemoveEach, Distinct;
    }
  }

  lemma CompactTerminalStable(w: TerminalWindow, size: int)
    requires Consistent(w, size)
    ensures CompactTerminal(w, size) == w
  {
    ListedOrderIsCompact(w.order, Elements(w.ids));
  }

  /**
   On any carried state with duplicate-free terminal IDs, compaction leaves the queue a
   duplicate-free listing of the pending requests in first-occurrence order, counts exactly the
   live reservations, and bounds one consistent terminal window.
   */
  lemma CompactRepairs(s: QuotaState, carried: seq<Key>)
    requires Distinct(s.terminal.ids)
    ensures var t := Compact(s, carried);
            && t.pending == s.pending && Lists(t.pendingOrder, s.pending.Keys)
            && KeepsFirstOccurrenceOrder(s.pendingOrder, t.pendingOrder)
            && (forall id :: id in t.reservations <==> id in s.reservations && s.reservations[id].status == Granted)
            && t.inFlight == |t.reservations|
            && Consistent(t.terminal, s.settings.dedupWindowSize)
  {
    CompactOrderLists(s.pendingOrder, s.pending.Keys);
    CompactOrderKeepsOrder(s.pendingOrder, s.pending.Keys);
    var stale := Keep(carried, StaleIds(s));
    MarkAllDistinct(s.terminal, s.settings.dedupWindowSize, stale);
    CompactTerminalConsistent(MarkAll(s.terminal, s.settings.dedupWindowSize, stale), s.settings.dedupWindowSize);
    hide CompactOrder, CompactTerminal, MarkAll, Keep, Lists, KeepsFirstOccurrenceOrder, Consistent;
  }

  /** Compacting twice, whatever the dictionary order, is compacting once. */
  lemma CompactIdempotent(s: QuotaState, carried: seq<Key>, again: seq<Key>)
    requires Distinct(s.terminal.ids)
    ensures Compact(Compact(s, carried), again) == Compact(s, carried)
  {
    var t := Compact(s, carried);
    CompactRepairs(s, carried);
    assert t.settings == s.settings;
    AllGranted(s, carried, again);
    ListedOrderIsCompact(t.pendingOrder, t.pending.Keys);
    CompactTerminalStable(t.terminal, t.settings.dedupWindowSize);
    hide CompactOrder, CompactTerminal, Keep, Lists, KeepsFirstOccurrenceOrder, Consistent, StaleIds;
    assert t.reservations - {} == t.reservations;
  }

  lemma AllGranted(s: QuotaState, carried: seq<Key>, again: seq<Key>)
    ensures StaleIds(Compact(s, carried)) == {} && Keep(again, StaleIds(Compact(s, carried))) == []
  {
    hide CompactOrder, CompactTerminal, MarkAll, Keep;
    assert StaleIds(Compact(s, carried)) == {};
    KeepNone(again, {});
  }
}
