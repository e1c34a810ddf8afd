/**
 A user run in slices, round after round, against the same user run in one piece: with failure-free
 page chains both fetch every page of every resource once, in chain order.
 */
module UserSlices {
  import opened Collections
  import opened ResourcePages
  import opened ResourcePageChains
  import opened UserSync

  /** The page chains run for the outstanding types of one slice, and the user's merged result. */
  datatype Slice = Slice(runs: seq<seq<Segment>>, result: UserResult)

  function OutcomeOf(segments: seq<Segment>): ResourceOutcome {
    if segments != [] && segments[|segments| - 1].outcome.Return?
    then ResourceResult(segments[|segments| - 1].outcome.result) else ResourceRaised
  }

  function OutcomesOf(runs: seq<seq<Segment>>): seq<ResourceOutcome> {
    seq(|runs|, i requires 0 <= i < |runs| => OutcomeOf(runs[i]))
  }

  /** A chain of page runs that starts where the slice says, without a failed page. */
  ghost predicate CleanChain(p: Provider, cursor: Cursor, limit: Option<int>, segments: seq<Segment>) {
    && segments != [] && KnownCursor(p, cursor)
    && segments[0].command == PagesCommand(cursor, 0, limit, 0, 0, segments[0].command.window)
    && Chain(p, segments[0].command, segments) && FailedPages(WholeTrace(segments).pages) == {}
  }

  ghost predicate ProvidersOk(providers: map<Key, Provider>, c: UserCommand) {
    forall x :: x in RequestedTypes(c) ==> x in providers && Distinct(providers[x].marks)
  }

  ghost predicate CleanSlice(providers: map<Key, Provider>, c: UserCommand, s: Slice)
    requires ProvidersOk(providers, c)
  {
    && |s.runs| == |Outstanding(c)| && ResultOk(c, OutcomesOf(s.runs), s.result)
    && forall i :: 0 <= i < |s.runs| ==>
         var x := Outstanding(c)[i];
         x in providers && CleanChain(providers[x], CursorFor(c, x), c.pageLimit, s.runs[i])
  }

  /** The round scheduler carries a result's cursors and completed types into the user's next slice. */
  function Requeue(c: UserCommand, r: UserResult): UserCommand {
    c.(cursor := r.nextCursor, cursors := r.cursors, cursorOrder := r.cursorOrder, completed := r.completed)
  }

  function CommandAfter(c: UserCommand, slices: seq<Slice>): UserCommand {
    if slices == [] then c else Requeue(CommandAfter(c, slices[..|slices| - 1]), slices[|slices| - 1].result)
  }

  lemma {:induction false} CommandAfterFrame(c: UserCommand, slices: seq<Slice>)
    ensures var d := CommandAfter(c, slices); d.requested == c.requested && d.pageLimit == c.pageLimit
  {
    if slices != [] { CommandAfterFrame(c, slices[..|slices| - 1]); }
  }

  ghost predicate Sliced(providers: map<Key, Provider>, c: UserCommand, slices: seq<Slice>)
    requires ProvidersOk(providers, c)
  {
    slices == [] ||
    (CommandAfterFrame(c, slices[..|slices| - 1]);
     Sliced(providers, c, slices[..|slices| - 1])
     && CleanSlice(providers, CommandAfter(c, slices[..|slices| - 1]), slices[|slices| - 1]))
  }

  function Range(a: nat, b: nat): seq<nat>
    requires a <= b
  {
    seq(b - a, i requires 0 <= i < b - a => a + i)
  }

  /** Chain positions of the pages of resource `x` that one slice fetches. */
  function FetchedIn(p: Provider, c: UserCommand, s: Slice, x: Key): seq<nat> {
    if x in Outstanding(c) && IndexOf(Outstanding(c), x) < |s.runs| && KnownCursor(p, CursorFor(c, x)) then
      var start := PositionOf(p, CursorFor(c, x));
      Range(start, start + |WholeTrace(s.runs[IndexOf(Outstanding(c), x)]).pages|)
    else []
  }

  function FetchedBy(p: Provider, c: UserCommand, slices: seq<Slice>, x: Key): seq<nat> {
    if slices == [] then []
    else
      FetchedBy(p, c, slices[..|slices| - 1], x)
      + FetchedIn(p, CommandAfter(c, slices[..|slices| - 1]), slices[|slices| - 1], x)
  }

  /** How far one slice gets from `pos` in a chain of `n` pages. */
  function Advance(n: nat, limit: Option<int>, pos: nat): nat
    requires pos <= n && (limit.Some? ==> limit.value >= 1)
  {
    if limit.None? then n else Min(n, pos + limit.value)
  }

  function Reach(n: nat, limit: Option<int>, slices: nat): (r: nat)
    requires limit.Some? ==> limit.value >= 1
    ensures r <= n
  {
    if slices == 0 then 0 else Advance(n, limit, Reach(n, limit, slices - 1))
  }

  lemma {:induction false} ReachIsProduct(n: nat, k: int, m: nat)
    requires k >= 1
    ensures Reach(n, Some(k), m) == Min(n, m * k)
  {
    if m > 0 {
      ReachIsProduct(n, k, m - 1);
      assert m * k == (m - 1) * k + k;
    }
  }

  /** The command will fetch resource `x` from chain position `pos`, or knows that `x` is complete. */
  ghost predicate At(p: Provider, c: UserCommand, x: Key, pos: nat) {
    && pos <= PageCount(p)
    && (x in c.completed <==> pos == PageCount(p))
    && (pos < PageCount(p) ==> CursorFor(c, x) == CursorAt(p, pos))
  }

  lemma CleanChainResult(p: Provider, cursor: Cursor, limit: Option<int>, segments: seq<Segment>)
    requires Distinct(p.marks) && CleanChain(p, cursor, limit, segments) && (limit.Some? ==> limit.value >= 1)
    ensures OutcomeOf(segments).ResourceResult?
    ensures var start := PositionOf(p, cursor); var r := OutcomeOf(segments).result;
            var end := Advance(PageCount(p), limit, start);
            && start + |WholeTrace(segments).pages| == end
            && (r.finished <==> end == PageCount(p)) && r.errorCount == 0
            && r.cursor == if end < PageCount(p) then CursorAt(p, end) else None
  {
    var command := segments[0].command;
    hide Chain, WholeTrace, Distinct, FailedPages;
    ChainIsOneRun(p, command, segments);
    hide RunOk;
    var r := segments[|segments| - 1].outcome.result;
    CleanRunIsExact(p, command, r, WholeTrace(segments));
    ResultFlags(p, command, r, WholeTrace(segments));
    var end := PositionOf(p, cursor) + |WholeTrace(segments).pages|;
    assert end < PageCount(p) ==> CursorAt(p, end).Some?;
  }

  /** The index of an outstanding resource, which no other child works on. */
  lemma OutstandingIndex(c: UserCommand, x: Key) returns (i: nat)
    requires x in RequestedTypes(c) && x !in c.completed
    ensures x in Outstanding(c) && i == IndexOf(Outstanding(c), x)
    ensures i < |Outstanding(c)| && Outstanding(c)[i] == x
  {
    WithoutElements(RequestedTypes(c), Elements(c.completed));
    i := IndexOf(Outstanding(c), x);
  }

  lemma OutstandingDistinct(c: UserCommand)
    requires Distinct(RequestedTypes(c))
    ensures Distinct(Outstanding(c))
    ensures forall x :: x in Outstanding(c) <==> x in RequestedTypes(c) && x !in c.completed
  {
    WithoutElements(RequestedTypes(c), Elements(c.completed));
  }

  lemma OnlyItsChild(types: seq<Key>, outcomes: seq<ResourceOutcome>, i: nat)
    requires Distinct(types) && |types| == |outcomes| && i < |types|
    ensures FinishedIn(types, outcomes, types[i]) <==> Done(outcomes[i])
  {
    DistinctIndices(types);
    if FinishedIn(types, outcomes, types[i]) {
      var j :| 0 <= j < |types| && types[j] == types[i] && Done(outcomes[j]);
    }
  }

  /** What the merged result says about one resource. */
  lemma MergedResource(c: UserCommand, outcomes: seq<ResourceOutcome>, r: UserResult, x: Key, i: nat)
    requires CommandOk(c) && Distinct(RequestedTypes(c)) && ResultOk(c, outcomes, r)
    requires i < |outcomes| && Outstanding(c)[i] == x && outcomes[i].ResourceResult? && x !in c.completed
    ensures x in r.cursors && r.cursors[x] == outcomes[i].result.cursor
    ensures x in r.completed <==> outcomes[i].result.finished
  {
    OutstandingDistinct(c);
    MergedCursors(c, Outstanding(c), outcomes);
    MergedCompleted(c, Outstanding(c), outcomes);
    OnlyItsChild(Outstanding(c), outcomes, i);
    hide Distinct, MergeAll, Outstanding, FinishedIn;
  }

  lemma CompletedStays(c: UserCommand, outcomes: seq<ResourceOutcome>, r: UserResult, x: Key)
    requires CommandOk(c) && ResultOk(c, outcomes, r) && x in c.completed
    ensures x in r.completed
  {
    MergedCompleted(c, Outstanding(c), outcomes);
    hide Distinct, MergeAll, Outstanding, FinishedIn;
  }

  lemma OutstandingAdvances(providers: map<Key, Provider>, c: UserCommand, s: Slice, x: Key, pos: nat)
    requires ProvidersOk(providers, c) && CommandOk(c) && Distinct(RequestedTypes(c))
    requires CleanSlice(providers, c, s) && x in RequestedTypes(c) && (c.pageLimit.Some? ==> c.pageLimit.value >= 1)
    requires At(providers[x], c, x, pos) && pos < PageCount(providers[x])
    ensures var p := providers[x]; var next := Advance(PageCount(p), c.pageLimit, pos);
            At(p, Requeue(c, s.result), x, next) && FetchedIn(p, c, s, x) == Range(pos, next)
  {
    hide CleanChain, ResultOk, Outstanding, CommandOk, Distinct, Chain, WholeTrace, RunOk;
    var p := providers[x];
    var i := OutstandingIndex(c, x);
    PositionIsUnique(p, pos);
    assert CleanChain(p, CursorFor(c, x), c.pageLimit, s.runs[i]);
    CleanChainResult(p, CursorFor(c, x), c.pageLimit, s.runs[i]);
    hide WholeTrace, OutcomeOf;
    MergedResource(c, OutcomesOf(s.runs), s.result, x, i);
  }

  lemma SliceAdvances(providers: map<Key, Provider>, c: UserCommand, s: Slice, x: Key, pos: nat)
    requires ProvidersOk(providers, c) && CommandOk(c) && Distinct(RequestedTypes(c))
    requires CleanSlice(providers, c, s) && x in RequestedTypes(c) && (c.pageLimit.Some? ==> c.pageLimit.value >= 1)
    requires At(providers[x], c, x, pos)
    ensures var p := providers[x]; var next := Advance(PageCount(p), c.pageLimit, pos);
            At(p, Requeue(c, s.result), x, next) && FetchedIn(p, c, s, x) == Range(pos, next)
  {
    if pos < PageCount(providers[x]) {
      OutstandingAdvances(providers, c, s, x, pos);
    } else {
      OutstandingDistinct(c);
      CompletedStays(c, OutcomesOf(s.runs), s.result, x);
      hide ResultOk, CleanChain, CommandOk, Distinct, Outstanding;
    }
  }

  lemma RequeueOk(c: UserCommand, s: Slice)
    requires CommandOk(c) && ResultOk(c, OutcomesOf(s.runs), s.result)
    ensures CommandOk(Requeue(c, s.result))
  {
    CompletedAfterMerge(c, OutcomesOf(s.runs));
    hide Distinct, MergeAll, Outstanding, OutcomesOf;
  }

  lemma RangesJoin(a: nat, b: nat)
    requires a <= b
    ensures Range(0, a) + Range(a, b) == Range(0, b)
  {
  }

  /** A user that no slice has touched yet. */
  ghost predicate FreshUser(providers: map<Key, Provider>, c: UserCommand) {
    && c.cursor.None? && c.cursors == map[] && c.cursorOrder == [] && c.completed == [] && ProvidersOk(providers, c)
    && Distinct(RequestedTypes(c)) && (c.pageLimit.Some? ==> c.pageLimit.value >= 1)
  }

  lemma {:induction false} SlicesReach(providers: map<Key, Provider>, c: UserCommand, slices: seq<Slice>, x: Key)
    requires FreshUser(providers, c) && Sliced(providers, c, slices) && x in RequestedTypes(c)
    ensures var p := providers[x]; var reached := Reach(PageCount(p), c.pageLimit, |slices|);
            && CommandOk(CommandAfter(c, slices))
            && At(p, CommandAfter(c, slices), x, reached)
            && FetchedBy(p, c, slices, x) == Range(0, reached)
  {
    var p := providers[x];
    if slices != [] {
      var n := |slices| - 1;
      SlicesReach(providers, c, slices[..n], x);
      CommandAfterFrame(c, slices[..n]);
      var d := CommandAfter(c, slices[..n]);
      var reached := Reach(PageCount(p), c.pageLimit, n);
      assert CleanSlice(providers, d, slices[n]);
      hide Sliced, CommandOk, At, FetchedIn, Distinct;
      RequeueStep(providers, c, d, slices[n]);
      SliceAdvances(providers, d, slices[n], x, reached);
      RangesJoin(reached, Advance(PageCount(p), c.pageLimit, reached));
    }
  }

  lemma RequeueStep(providers: map<Key, Provider>, c: UserCommand, d: UserCommand, s: Slice)
    requires FreshUser(providers, c) && d.requested == c.requested && ProvidersOk(providers, d)
    requires CommandOk(d) && CleanSlice(providers, d, s)
    ensures CommandOk(Requeue(d, s.result)) && Distinct(RequestedTypes(d))
    ensures RequestedTypes(d) == RequestedTypes(c)
  {
    hide CommandOk, Distinct, CleanChain, ResultOk;
    RequeueOk(d, s);
  }

  /**
   Slices of any size k fetch, of every resource, the pages from the start of its chain up to
   min(n, slices * k), each once and in chain order; and the last slice says "finished" exactly when
   that is the whole chain of every resource.
   */
  lemma SlicesFetchInOrder(providers: map<Key, Provider>, c: UserCommand, slices: seq<Slice>)
    requires FreshUser(providers, c) && Sliced(providers, c, slices) && slices != []
    ensures forall x :: x in RequestedTypes(c) ==>
              FetchedBy(providers[x], c, slices, x)
              == Range(0, Reach(PageCount(providers[x]), c.pageLimit, |slices|))
    ensures slices[|slices| - 1].result.finished <==>
              forall x :: x in RequestedTypes(c) ==>
                Reach(PageCount(providers[x]), c.pageLimit, |slices|) == PageCount(providers[x])
  {
    forall x | x in RequestedTypes(c)
      ensures FetchedBy(providers[x], c, slices, x)
              == Range(0, Reach(PageCount(providers[x]), c.pageLimit, |slices|))
      ensures x in slices[|slices| - 1].result.completed
              <==> Reach(PageCount(providers[x]), c.pageLimit, |slices|) == PageCount(providers[x])
    {
      SlicesReach(providers, c, slices, x);
      hide FreshUser, Sliced, FetchedBy, Reach, CommandOk;
    }
    LastFinished(providers, c, slices);
    hide Sliced, FetchedBy, Reach;
  }

  lemma LastFinished(providers: map<Key, Provider>, c: UserCommand, slices: seq<Slice>)
    requires FreshUser(providers, c) && Sliced(providers, c, slices) && slices != []
    ensures var r := slices[|slices| - 1].result;
            r.finished <==> forall x :: x in RequestedTypes(c) ==> x in r.completed
  {
    var n := |slices| - 1;
    var d := CommandAfter(c, slices[..n]);
    CommandAfterFrame(c, slices[..n]);
    assert RequestedTypes(c) != [];
    var x := RequestedTypes(c)[0];
    SlicesReach(providers, c, slices[..n], x);
    hide FetchedBy, Reach, CleanChain, MergeAll, At;
    FinishedMeansAllCompleted(d, OutcomesOf(slices[n].runs), slices[n].result);
  }

  /** An unlimited run is one slice: it fetches every page of every resource and is finished. */
  lemma WholeRunFetchesAll(providers: map<Key, Provider>, c: UserCommand, whole: Slice)
    requires FreshUser(providers, c) && c.pageLimit.None? && Sliced(providers, c, [whole])
    ensures whole.result.finished
    ensures forall x :: x in RequestedTypes(c) ==>
              FetchedBy(providers[x], c, [whole], x) == Range(0, PageCount(providers[x]))
  {
    SlicesFetchInOrder(providers, c, [whole]);
    assert forall x :: x in RequestedTypes(c) ==>
             Reach(PageCount(providers[x]), c.pageLimit, 1) == PageCount(providers[x]) by {
      forall n: nat ensures Reach(n, None, 1) == n { assert Reach(n, None, 0) == 0; }
    }
    hide Sliced, FetchedBy, FreshUser;
  }

  /**
   Slicing preserves meaning: once a user run in slices of any size is finished, it has fetched
   exactly the pages of one unlimited run, each once and in the same order per resource.
   */
  lemma SlicingPreservesMeaning(providers: map<Key, Provider>, c: UserCommand, slices: seq<Slice>, whole: Slice)
    requires FreshUser(providers, c) && Sliced(providers, c, slices) && slices != []
    requires FreshUser(providers, c.(pageLimit := None)) && Sliced(providers, c.(pageLimit := None), [whole])
    requires slices[|slices| - 1].result.finished
    ensures forall x :: x in RequestedTypes(c) ==>
              FetchedBy(providers[x], c, slices, x) == FetchedBy(providers[x], c.(pageLimit := None), [whole], x)
  {
    hide FreshUser, Sliced, FetchedBy, Reach;
    SlicesFetchInOrder(providers, c, slices);
    WholeRunFetchesAll(providers, c.(pageLimit := None), whole);
  }

  /** Slices of size k finish a user as soon as k times their number covers the longest chain, not before. */
  lemma SlicesNeeded(providers: map<Key, Provider>, c: UserCommand, slices: seq<Slice>)
    requires FreshUser(providers, c) && Sliced(providers, c, slices) && slices != [] && c.pageLimit.Some?
    ensures slices[|slices| - 1].result.finished <==>
              forall x :: x in RequestedTypes(c) ==> PageCount(providers[x]) <= |slices| * c.pageLimit.value
  {
    SlicesFetchInOrder(providers, c, slices);
    forall x | x in RequestedTypes(c)
      ensures Reach(PageCount(providers[x]), c.pageLimit, |slices|) == PageCount(providers[x])
              <==> PageCount(providers[x]) <= |slices| * c.pageLimit.value
    {
      ReachIsProduct(PageCount(providers[x]), c.pageLimit.value, |slices|);
    }
    hide Sliced, FetchedBy, Reach;
  }

  lemma {:induction false} NoErrors(c: UserCommand, types: seq<Key>, outcomes: seq<ResourceOutcome>)
    requires |types| == |outcomes|
    requires forall i :: 0 <= i < |outcomes| ==> outcomes[i].ResourceResult? && outcomes[i].result.errorCount == 0
    ensures MergeAll(c, types, outcomes).errors == 0
    decreases |types|
  {
    if types != [] {
      NoErrors(c, types[..|types| - 1], outcomes[..|types| - 1]);
    }
  }

  /** A failure-free slice reports success, so the scheduler carries the user on and never fails it. */
  lemma CleanSlicesSucceed(providers: map<Key, Provider>, c: UserCommand, s: Slice)
    requires ProvidersOk(providers, c) && CleanSlice(providers, c, s) && (c.pageLimit.Some? ==> c.pageLimit.value >= 1)
    ensures !s.result.partial && s.result.errorCount == 0
  {
    var types, outcomes := Outstanding(c), OutcomesOf(s.runs);
    WithoutElements(RequestedTypes(c), Elements(c.completed));
    forall i | 0 <= i < |outcomes| ensures outcomes[i].ResourceResult? && outcomes[i].result.errorCount == 0 {
      assert types[i] in types;
      CleanChainResult(providers[types[i]], CursorFor(c, types[i]), c.pageLimit, s.runs[i]);
    }
    hide CleanChain, OutcomeOf;
    NoErrors(c, types, outcomes);
  }
}
