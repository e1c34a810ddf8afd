/**
 One slice of a user's sync: a page run per outstanding resource type, and the merge of their
 cursors and completed types into what the next slice starts from.
 */
module UserSync {
  import opened Collections
  import opened ResourcePages

  const FILES: Key := 1

  /** `cursorOrder` is the insertion order of the dictionary `cursors`. */
  datatype UserCommand = UserCommand(
    requested: seq<Key>, cursor: Cursor, cursors: map<Key, Cursor>, cursorOrder: seq<Key>, completed: seq<Key>,
    pageLimit: Option<int>)

  /** What a resource child gave back; `errors` counts the error texts of its result. */
  datatype ResourceOutcome = ResourceResult(result: SyncResult) | ResourceRaised

  datatype UserResult = UserResult(
    cursors: map<Key, Cursor>, cursorOrder: seq<Key>, completed: seq<Key>, nextCursor: Cursor, finished: bool,
    errorCount: nat, partial: bool, resourcesCompleted: nat)

  function RequestedTypes(c: UserCommand): seq<Key> {
    if c.requested == [] then [FILES] else c.requested
  }

  /** The requested types that no earlier slice completed, in order. */
  function Outstanding(c: UserCommand): seq<Key> {
    Without(RequestedTypes(c), Elements(c.completed))
  }

  function CursorFor(c: UserCommand, resource: Key): Cursor {
    if resource in c.cursors then c.cursors[resource] else c.cursor
  }

  /** A child goes on at its own type's cursor, and a type without one at the user's. */
  lemma ChildStartsAt(c: UserCommand, resource: Key)
    ensures resource in c.cursors.Keys ==> CursorFor(c, resource) == c.cursors[resource]
    ensures resource !in c.cursors.Keys ==> CursorFor(c, resource) == c.cursor
  {
  }

  // ---- the merge ----

  datatype Merge = Merge(
    cursors: map<Key, Cursor>, order: seq<Key>, completed: seq<Key>, allFinished: bool, errors: nat, count: nat)

  function MergeOne(m: Merge, resource: Key, o: ResourceOutcome): Merge {
    if o.ResourceRaised? then m.(errors := m.errors + 1, allFinished := false)
    else
      Merge(m.cursors[resource := o.result.cursor],
            if resource in m.cursors then m.order else m.order + [resource],
            if o.result.finished && resource !in m.completed then m.completed + [resource] else m.completed,
            m.allFinished && o.result.finished, m.errors + o.result.errorCount, m.count + 1)
  }

  function MergeAll(c: UserCommand, types: seq<Key>, outcomes: seq<ResourceOutcome>): Merge
    requires |types| == |outcomes|
    decreases |types|
  {
    if types == [] then Merge(c.cursors, c.cursorOrder, c.completed, true, 0, 0)
    else
      var n := |types| - 1;
      MergeOne(MergeAll(c, types[..n], outcomes[..n]), types[n], outcomes[n])
  }

  /** The first cursor, in dictionary order, of a resource that has one. */
  function FirstCursor(order: seq<Key>, cursors: map<Key, Cursor>): Cursor {
    if order == [] then None
    else if order[0] in cursors && cursors[order[0]].Some? then cursors[order[0]]
    else FirstCursor(order[1..], cursors)
  }

  ghost predicate ResultOk(c: UserCommand, outcomes: seq<ResourceOutcome>, r: UserResult) {
    |outcomes| == |Outstanding(c)| &&
    var m := MergeAll(c, Outstanding(c), outcomes);
    && r.cursors == m.cursors && r.cursorOrder == m.order && r.completed == m.completed
    && r.nextCursor == FirstCursor(m.order, m.cursors)
    && r.finished == (m.allFinished && |m.completed| == |RequestedTypes(c)|)
    && r.errorCount == m.errors && r.partial == (m.errors > 0) && r.resourcesCompleted == m.count
  }

  /** Looks through the dictionary in order until some resource has a cursor. */
  method NextCursorOf(order: seq<Key>, cursors: map<Key, Cursor>) returns (cursor: Cursor)
    ensures cursor == FirstCursor(order, cursors)
  {
    var rest := order;
    while rest != []
      invariant FirstCursor(order, cursors) == FirstCursor(rest, cursors)
      decreases |rest|
    {
      if rest[0] in cursors && cursors[rest[0]].Some? {
        return cursors[rest[0]];
      }
      rest := rest[1..];
    }
    return None;
  }

  method MergeResults(c: UserCommand, outcomes: seq<ResourceOutcome>) returns (r: UserResult)
    requires |outcomes| == |Outstanding(c)|
    ensures ResultOk(c, outcomes, r)
  {
    var types := Outstanding(c);
    var errors: nat, completed: nat := 0, 0;
    var cursors, order := c.cursors, c.cursorOrder;
    var completedTypes := c.completed;
    var allFinished := true;
    assert types[..0] == [] && outcomes[..0] == [];
    for i := 0 to |types|
      invariant MergeAll(c, types[..i], outcomes[..i])
                == Merge(cursors, order, completedTypes, allFinished, errors, completed)
    {
      assert types[..i + 1][..i] == types[..i] && outcomes[..i + 1][..i] == outcomes[..i];
      match outcomes[i] {
        case ResourceRaised =>
          errors := errors + 1;
          allFinished := false;
        case ResourceResult(result) =>
          completed := completed + 1;
          errors := errors + result.errorCount;
          if types[i] !in cursors {
            order := order + [types[i]];
          }
          cursors := cursors[types[i] := result.cursor];
          allFinished := allFinished && result.finished;
          if result.finished && types[i] !in completedTypes {
            completedTypes := completedTypes + [types[i]];
          }
      }
    }
    assert types[..|types|] == types && outcomes[..|outcomes|] == outcomes;
    var nextCursor := NextCursorOf(order, cursors);
    r := UserResult(cursors, order, completedTypes, nextCursor,
                    allFinished && |completedTypes| == |RequestedTypes(c)|, errors, errors > 0, completed);
  }

  // ---- what the merge means ----

  predicate Done(o: ResourceOutcome) {
    o.ResourceResult? && o.result.finished
  }

  /** Without duplicate types each result's cursor reaches the record, and no other cursor changes. */
  lemma {:induction false} MergedCursors(c: UserCommand, types: seq<Key>, outcomes: seq<ResourceOutcome>)
    requires |types| == |outcomes| && Distinct(types)
    ensures var m := MergeAll(c, types, outcomes);
            && (forall i :: 0 <= i < |types| && outcomes[i].ResourceResult? ==>
                  types[i] in m.cursors && m.cursors[types[i]] == outcomes[i].result.cursor)
            && (forall x :: x !in types ==> (x in m.cursors <==> x in c.cursors))
            && (forall x :: x !in types && x in c.cursors ==> m.cursors[x] == c.cursors[x])
    decreases |types|
  {
    if types != [] {
      var n := |types| - 1;
      DistinctIndices(types);
      assert types == types[..n] + [types[n]];
      assert types[n] !in types[..n];
      MergedCursors(c, types[..n], outcomes[..n]);
      hide Distinct;
    }
  }

  /** Some child of resource `x` finished. */
  ghost predicate FinishedIn(types: seq<Key>, outcomes: seq<ResourceOutcome>, x: Key)
    requires |types| == |outcomes|
  {
    exists i :: 0 <= i < |types| && types[i] == x && Done(outcomes[i])
  }

  lemma FinishedInOneMore(types: seq<Key>, outcomes: seq<ResourceOutcome>, x: Key)
    requires |types| == |outcomes| && types != []
    ensures var n := |types| - 1;
            FinishedIn(types, outcomes, x)
            <==> FinishedIn(types[..n], outcomes[..n], x) || (types[n] == x && Done(outcomes[n]))
  {
    var n := |types| - 1;
    if FinishedIn(types[..n], outcomes[..n], x) {
      var i :| 0 <= i < n && types[..n][i] == x && Done(outcomes[..n][i]);
      assert types[i] == x && Done(outcomes[i]);
    }
    if FinishedIn(types, outcomes, x) {
      var i :| 0 <= i < |types| && types[i] == x && Done(outcomes[i]);
      assert i < n ==> types[..n][i] == x && Done(outcomes[..n][i]);
    }
  }

  lemma MergeOneCompleted(m: Merge, resource: Key, o: ResourceOutcome)
    requires Distinct(m.completed)
    ensures var t := MergeOne(m, resource, o).completed;
            Distinct(t) && forall x :: x in t <==> x in m.completed || (x == resource && Done(o))
  {
    if Done(o) && resource !in m.completed {
      DistinctAppend(m.completed, resource);
    }
    hide Distinct;
  }

  /** The key order stays a duplicate-free listing of the dictionary, and only grows at its end. */
  lemma {:induction false} MergedOrder(c: UserCommand, types: seq<Key>, outcomes: seq<ResourceOutcome>)
    requires |types| == |outcomes| && Lists(c.cursorOrder, c.cursors.Keys)
    ensures var m := MergeAll(c, types, outcomes); Lists(m.order, m.cursors.Keys) && c.cursorOrder <= m.order
    decreases |types|
  {
    if types != [] {
      var n := |types| - 1;
      MergedOrder(c, types[..n], outcomes[..n]);
      var before := MergeAll(c, types[..n], outcomes[..n]);
      if types[n] !in before.cursors {
        DistinctAppend(before.order, types[n]);
      }
      hide Distinct;
    }
  }

  /** The next cursor is missing exactly when no resource has one, and else it is the first one in order. */
  lemma {:induction false} FirstCursorMeaning(order: seq<Key>, cursors: map<Key, Cursor>)
    requires forall x :: x in order ==> x in cursors
    ensures FirstCursor(order, cursors).None? <==> forall x :: x in order ==> cursors[x].None?
    ensures FirstCursor(order, cursors).Some? ==>
              exists i :: 0 <= i < |order| && cursors[order[i]] == FirstCursor(order, cursors)
                          && forall j :: 0 <= j < i ==> cursors[order[j]].None?
  {
    if order != [] {
      assert order == [order[0]] + order[1..];
      FirstCursorMeaning(order[1..], cursors);
      if cursors[order[0]].None? && FirstCursor(order[1..], cursors).Some? {
        var i :| 0 <= i < |order[1..]| && cursors[order[1..][i]] == FirstCursor(order[1..], cursors)
                 && forall j :: 0 <= j < i ==> cursors[order[1..][j]].None?;
        assert cursors[order[i + 1]] == FirstCursor(order, cursors);
        assert forall j :: 0 <= j < i + 1 ==> cursors[order[j]].None? by {
          forall j | 0 <= j < i + 1 ensures cursors[order[j]].None? {
            if j > 0 { assert order[j] == order[1..][j - 1]; }
          }
        }
      }
    }
  }

  /**
   The user's next cursor is the first one, in the order of its dictionary, that some type still has
   after the merge, and missing exactly when no type has one.
   */
  lemma ResultNextCursor(c: UserCommand, outcomes: seq<ResourceOutcome>, r: UserResult)
    requires ResultOk(c, outcomes, r) && Lists(c.cursorOrder, c.cursors.Keys)
    ensures Lists(r.cursorOrder, r.cursors.Keys) && c.cursorOrder <= r.cursorOrder
    ensures r.nextCursor.None? <==> forall x :: x in r.cursors ==> r.cursors[x].None?
    ensures r.nextCursor.Some? ==>
              exists i :: 0 <= i < |r.cursorOrder| && r.cursors[r.cursorOrder[i]] == r.nextCursor
                          && forall j :: 0 <= j < i ==> r.cursors[r.cursorOrder[j]].None?
  {
    MergedOrder(c, Outstanding(c), outcomes);
    FirstCursorMeaning(r.cursorOrder, r.cursors);
    hide MergeAll, FirstCursor, Outstanding, Distinct;
  }

  /** Exactly the types that finished, or were completed before, are completed, each listed once. */
  lemma {:induction false} MergedCompleted(c: UserCommand, types: seq<Key>, outcomes: seq<ResourceOutcome>)
    requires |types| == |outcomes| && Distinct(c.completed)
    ensures var m := MergeAll(c, types, outcomes);
            && Distinct(m.completed)
            && forall x :: x in m.completed <==> x in c.completed || FinishedIn(types, outcomes, x)
    decreases |types|
  {
    hide Distinct, FinishedIn, MergeOne;
    if types == [] {
      forall x ensures !FinishedIn(types, outcomes, x) { NoneFinished(outcomes, x); }
    } else {
      var n := |types| - 1;
      MergedCompleted(c, types[..n], outcomes[..n]);
      MergeOneCompleted(MergeAll(c, types[..n], outcomes[..n]), types[n], outcomes[n]);
      forall x ensures FinishedIn(types, outcomes, x) <==>
                       FinishedIn(types[..n], outcomes[..n], x) || (types[n] == x && Done(outcomes[n])) {
        FinishedInOneMore(types, outcomes, x);
      }
    }
  }

  /** A raised child counts as one error, a returned one as the errors it reports. */
  function ErrorTotal(outcomes: seq<ResourceOutcome>): nat {
    if outcomes == [] then 0
    else
      var last := outcomes[|outcomes| - 1];
      ErrorTotal(outcomes[..|outcomes| - 1]) + (if last.ResourceRaised? then 1 else last.result.errorCount)
  }

  function ReturnedCount(outcomes: seq<ResourceOutcome>): nat {
    if outcomes == [] then 0
    else ReturnedCount(outcomes[..|outcomes| - 1]) + (if outcomes[|outcomes| - 1].ResourceResult? then 1 else 0)
  }

  lemma {:induction false} MergedCounts(c: UserCommand, types: seq<Key>, outcomes: seq<ResourceOutcome>)
    requires |types| == |outcomes|
    ensures var m := MergeAll(c, types, outcomes);
            m.errors == ErrorTotal(outcomes) && m.count == ReturnedCount(outcomes)
    decreases |types|
  {
    if types != [] {
      MergedCounts(c, types[..|types| - 1], outcomes[..|types| - 1]);
    }
  }

  lemma {:induction false} SomeError(outcomes: seq<ResourceOutcome>)
    ensures ErrorTotal(outcomes) > 0 <==>
              exists i :: 0 <= i < |outcomes| && (outcomes[i].ResourceRaised? || outcomes[i].result.errorCount > 0)
  {
    if outcomes != [] {
      var n := |outcomes| - 1;
      SomeError(outcomes[..n]);
      if ErrorTotal(outcomes[..n]) > 0 {
        var i :| 0 <= i < n && (outcomes[..n][i].ResourceRaised? || outcomes[..n][i].result.errorCount > 0);
        assert outcomes[i].ResourceRaised? || outcomes[i].result.errorCount > 0;
      }
      forall i | 0 <= i < n ensures outcomes[i] == outcomes[..n][i] {
      }
    }
  }

  /**
   A user's result counts every error of its children, one for each that raised, and the children that
   returned; it is partial exactly when some child raised or reported an error.
   */
  lemma ResultCounts(c: UserCommand, outcomes: seq<ResourceOutcome>, r: UserResult)
    requires ResultOk(c, outcomes, r)
    ensures r.errorCount == ErrorTotal(outcomes) && r.resourcesCompleted == ReturnedCount(outcomes)
    ensures r.partial <==>
              exists i :: 0 <= i < |outcomes| && (outcomes[i].ResourceRaised? || outcomes[i].result.errorCount > 0)
  {
    MergedCounts(c, Outstanding(c), outcomes);
    SomeError(outcomes);
    hide MergeAll, ErrorTotal, ReturnedCount, Outstanding;
  }

  lemma NoneFinished(outcomes: seq<ResourceOutcome>, x: Key)
    requires outcomes == []
    ensures !FinishedIn([], outcomes, x)
  {
  }

  lemma {:induction false} MergedFlag(c: UserCommand, types: seq<Key>, outcomes: seq<ResourceOutcome>)
    requires |types| == |outcomes|
    ensures MergeAll(c, types, outcomes).allFinished <==> forall i :: 0 <= i < |types| ==> Done(outcomes[i])
    decreases |types|
  {
    if types != [] {
      MergedFlag(c, types[..|types| - 1], outcomes[..|types| - 1]);
    }
  }

  lemma {:induction false} WithoutElements(s: seq<Key>, gone: set<Key>)
    ensures forall x :: x in Without(s, gone) <==> x in s && x !in gone
    ensures Distinct(s) ==> Distinct(Without(s, gone))
  {
    WithoutIsKeep(s, Elements(s) - gone, gone);
    KeepElements(s, Elements(s) - gone);
  }

  lemma SameSizeListing(a: seq<Key>, b: seq<Key>)
    requires Distinct(a) && Distinct(b) && forall x :: x in a ==> x in b
    ensures |a| <= |b|
    ensures |a| == |b| <==> forall x :: x in b ==> x in a
  {
    ListsSize(a, Elements(a));
    ListsSize(b, Elements(b));
    SubsetSize(Elements(a), Elements(b));
    if exists x :: x in b && x !in a {
      var x :| x in b && x !in a;
      SubsetSize(Elements(a), Elements(b) - {x});
    } else {
      assert Elements(a) == Elements(b);
    }
  }

  /** The completed types of a command are some of the requested ones, without duplicates. */
  ghost predicate CommandOk(c: UserCommand) {
    Distinct(c.completed) && forall x :: x in c.completed ==> x in RequestedTypes(c)
  }

  lemma CompletedAfterMerge(c: UserCommand, outcomes: seq<ResourceOutcome>)
    requires CommandOk(c) && |outcomes| == |Outstanding(c)|
    ensures var m := MergeAll(c, Outstanding(c), outcomes);
            Distinct(m.completed) && forall x :: x in m.completed ==> x in RequestedTypes(c)
  {
    MergedCompleted(c, Outstanding(c), outcomes);
    WithoutElements(RequestedTypes(c), Elements(c.completed));
    hide Distinct, MergeAll, Without;
  }

  /** Without duplicate types, a user is finished exactly when every requested type is completed. */
  lemma FinishedMeansAllCompleted(c: UserCommand, outcomes: seq<ResourceOutcome>, r: UserResult)
    requires CommandOk(c) && Distinct(RequestedTypes(c)) && ResultOk(c, outcomes, r)
    ensures r.finished <==> forall x :: x in RequestedTypes(c) ==> x in r.completed
    ensures CommandOk(c.(completed := r.completed))
  {
    var types := Outstanding(c);
    CompletedAfterMerge(c, outcomes);
    MergedFlag(c, types, outcomes);
    SameSizeListing(r.completed, RequestedTypes(c));
    hide Distinct, MergeAll;
    if forall x :: x in RequestedTypes(c) ==> x in r.completed {
      AllDone(c, outcomes, r);
    }
  }

  lemma AllDone(c: UserCommand, outcomes: seq<ResourceOutcome>, r: UserResult)
    requires CommandOk(c) && Distinct(RequestedTypes(c)) && |outcomes| == |Outstanding(c)|
    requires r.completed == MergeAll(c, Outstanding(c), outcomes).completed
    requires forall x :: x in RequestedTypes(c) ==> x in r.completed
    ensures forall i :: 0 <= i < |outcomes| ==> Done(outcomes[i])
  {
    var types := Outstanding(c);
    MergedCompleted(c, types, outcomes);
    WithoutElements(RequestedTypes(c), Elements(c.completed));
    DistinctIndices(types);
    hide Distinct, MergeAll, Without;
    forall i | 0 <= i < |outcomes| ensures Done(outcomes[i]) {
      assert types[i] in types;
      var j :| 0 <= j < |types| && types[j] == types[i] && Done(outcomes[j]);
      assert i == j;
    }
  }

  /** Duplicate resource types make the user unfinished for ever: each is completed only once. */
  lemma DuplicateTypesNeverFinish(c: UserCommand, outcomes: seq<ResourceOutcome>, r: UserResult)
    requires CommandOk(c) && !Distinct(RequestedTypes(c)) && ResultOk(c, outcomes, r)
    ensures !r.finished
  {
    CompletedAfterMerge(c, outcomes);
    hide MergeAll;
    ListsSize(r.completed, Elements(r.completed));
    SubsetSize(Elements(r.completed), Elements(RequestedTypes(c)));
    DuplicatesShrink(RequestedTypes(c));
  }

  lemma {:induction false} DuplicatesShrink(s: seq<Key>)
    ensures |Elements(s)| <= |s|
    ensures !Distinct(s) ==> |Elements(s)| < |s|
  {
    if s != [] {
      var n := |s| - 1;
      DuplicatesShrink(s[..n]);
      assert s == s[..n] + [s[n]];
      assert Elements(s) == Elements(s[..n]) + {s[n]};
      if s[n] in s[..n] {
        assert Elements(s) == Elements(s[..n]);
      }
    }
  }
}
