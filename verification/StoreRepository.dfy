/**
 The authoritative store record: one atomic operation per repository call, each checked against the
 record's generation and lifecycle state before it changes anything.
 */
module StoreRepository {
  import opened Collections

  datatype LifecycleState = Active | Syncing | Deactivating | Inactive | DeactivationFailed

  datatype Record = Record(
    state: LifecycleState, generation: int,
    activeUsers: set<Key>, retrievalState: map<Key, Key>, documents: map<Key, Key>)

  datatype RepositoryError = UnknownStore | StaleGeneration(generation: int) | StateRejected(state: LifecycleState)

  datatype Result<+T> = Ok(value: T) | Err(error: RepositoryError)

  datatype Operation =
    | BeginDeactivation(expected: int)
    | ResumeDeactivation(generation: int)
    | MarkInactive(expected: int)
    | MarkDeactivationFailed(expected: int)
    | ActivateUser(expected: int, user: Key)
    | MutateRetrievalState(expected: int, key: Key, value: Key)
    | UpsertDocument(expected: int, document: Key, content: Key)
    | DeleteDocument(expected: int, document: Key)
    | RemoveAllObjects(expected: int)
    | DeactivateUsers(expected: int, users: set<Key>)     // no users named means all of them

  predicate Writable(r: Record) {
    r.state == Active || r.state == Syncing
  }

  predicate Empty(r: Record) {
    r.activeUsers == {} && r.retrievalState == map[] && r.documents == map[]
  }

  function Checked(r: Record, expected: int, allowed: bool, next: Record): Result<Record> {
    if r.generation != expected then Err(StaleGeneration(r.generation))
    else if !allowed then Err(StateRejected(r.state))
    else Ok(next)
  }

  /** The transition of one repository call on an existing record. */
  function Apply(r: Record, op: Operation): Result<Record> {
    match op
    case BeginDeactivation(expected) =>
      // A retry after a lost response finds its own committed transition.
      if r.generation == expected + 1 && !Writable(r) then Ok(r)
      else Checked(r, expected, Writable(r), r.(generation := r.generation + 1, state := Deactivating))
    case ResumeDeactivation(g) =>
      Checked(r, g, g > 0 && (r.state == DeactivationFailed || r.state == Deactivating), r.(state := Deactivating))
    case MarkInactive(expected) =>
      Checked(r, expected, r.state == Inactive || r.state == Deactivating, r.(state := Inactive))
    case MarkDeactivationFailed(expected) =>
      Checked(r, expected, r.state == DeactivationFailed || r.state == Deactivating,
              r.(state := DeactivationFailed))
    case ActivateUser(expected, user) =>
      Checked(r, expected, Writable(r), r.(activeUsers := r.activeUsers + {user}))
    case MutateRetrievalState(expected, key, value) =>
      Checked(r, expected, Writable(r), r.(retrievalState := r.retrievalState[key := value]))
    case UpsertDocument(expected, document, content) =>
      Checked(r, expected, Writable(r), r.(documents := r.documents[document := content]))
    case DeleteDocument(expected, document) =>
      Checked(r, expected, Writable(r), r.(documents := r.documents - {document}))
    case RemoveAllObjects(expected) =>
      Checked(r, expected, r.state == Deactivating, r.(documents := map[], retrievalState := map[]))
    case DeactivateUsers(expected, users) =>
      Checked(r, expected, r.state == Deactivating,
              r.(activeUsers := if users == {} then {} else r.activeUsers - users))
  }

  /** What a call leaves behind: a refused one changes nothing. */
  function After(r: Record, op: Operation): Record {
    var result := Apply(r, op);
    if result.Ok? then result.value else r
  }

  function AfterAll(r: Record, ops: seq<Operation>): Record {
    if ops == [] then r else After(AfterAll(r, ops[..|ops| - 1]), ops[|ops| - 1])
  }

  /** Documents, retrieval state and users of `s` are all among those of `r`. */
  ghost predicate WithinContents(s: Record, r: Record) {
    && s.activeUsers <= r.activeUsers
    && (forall k :: k in s.retrievalState ==> k in r.retrievalState && s.retrievalState[k] == r.retrievalState[k])
    && (forall k :: k in s.documents ==> k in r.documents && s.documents[k] == r.documents[k])
  }

  /** Once a record is fenced, no call unfences it, moves its generation or adds anything to it. */
  lemma FencedCall(r: Record, op: Operation)
    requires !Writable(r)
    ensures var s := After(r, op);
            !Writable(s) && s.generation == r.generation && WithinContents(s, r)
    ensures r.state == Inactive ==> After(r, op) == r
  {
  }

  lemma {:induction false} FencedForever(r: Record, ops: seq<Operation>)
    requires !Writable(r)
    ensures var s := AfterAll(r, ops);
            !Writable(s) && s.generation == r.generation && WithinContents(s, r)
    ensures r.state == Inactive ==> AfterAll(r, ops) == r
  {
    if ops != [] {
      FencedForever(r, ops[..|ops| - 1]);
      FencedCall(AfterAll(r, ops[..|ops| - 1]), ops[|ops| - 1]);
      hide After, Writable;
    }
  }

  /** The generation moves only when the fence commits, by one, and the fence commits at most once. */
  lemma {:induction false} FenceCommitsOnce(r: Record, ops: seq<Operation>)
    requires Writable(r)
    ensures var s := AfterAll(r, ops);
            s.generation == if Writable(s) then r.generation else r.generation + 1
  {
    if ops != [] {
      var s := AfterAll(r, ops[..|ops| - 1]);
      FenceCommitsOnce(r, ops[..|ops| - 1]);
      if !Writable(s) {
        FencedCall(s, ops[|ops| - 1]);
      }
    }
  }

  predicate IsWrite(op: Operation) {
    op.ActivateUser? || op.MutateRetrievalState? || op.UpsertDocument? || op.DeleteDocument?
  }

  /** A write carrying the generation it was issued under is refused from the moment the fence commits. */
  lemma LateWritesAreRefused(r: Record, ops: seq<Operation>, more: seq<Operation>, op: Operation)
    requires Writable(r) && !Writable(AfterAll(r, ops)) && IsWrite(op)
    ensures Apply(AfterAll(AfterAll(r, ops), more), op).Err?
  {
    FencedForever(AfterAll(r, ops), more);
    hide AfterAll, After;
  }

  /** Retrying a fence call that committed returns the same logical result and changes nothing. */
  lemma FenceRetryIsIdempotent(r: Record, expected: int, more: seq<Operation>)
    requires Apply(r, BeginDeactivation(expected)).Ok?
    ensures var s := AfterAll(After(r, BeginDeactivation(expected)), more);
            Apply(s, BeginDeactivation(expected)) == Ok(s) && s.generation == expected + 1
  {
    FencedForever(After(r, BeginDeactivation(expected)), more);
  }

  // ---- what each call does, on its inputs ----

  /** The generation a call names. */
  function Named(op: Operation): int {
    if op.ResumeDeactivation? then op.generation else op.expected
  }

  /** The states in which a call of the named generation is accepted. */
  function AcceptedStates(op: Operation): set<LifecycleState> {
    match op
    case ResumeDeactivation(_) => {Deactivating, DeactivationFailed}
    case MarkInactive(_) => {Deactivating, Inactive}
    case MarkDeactivationFailed(_) => {Deactivating, DeactivationFailed}
    case RemoveAllObjects(_) => {Deactivating}
    case DeactivateUsers(_, _) => {Deactivating}
    case _ => {Active, Syncing}
  }

  predicate IsFenceRetry(r: Record, op: Operation) {
    op.BeginDeactivation? && r.generation == op.expected + 1 && r.state !in {Active, Syncing}
  }

  /**
   A call is accepted exactly under the record's own generation and in a state that allows it, or when it
   repeats the fence that committed; a stale generation is reported before a wrong state.
   */
  lemma AcceptedExactly(r: Record, op: Operation)
    ensures var allowed := r.state in AcceptedStates(op) && (op.ResumeDeactivation? ==> op.generation > 0);
            && (Apply(r, op).Ok? <==> IsFenceRetry(r, op) || (Named(op) == r.generation && allowed))
            && (!IsFenceRetry(r, op) && Named(op) != r.generation ==>
                  Apply(r, op) == Err(StaleGeneration(r.generation)))
            && (!IsFenceRetry(r, op) && Named(op) == r.generation && !allowed ==>
                  Apply(r, op) == Err(StateRejected(r.state)))
  {
  }

  /** The lifecycle transition an accepted call makes; the others leave state and generation alone. */
  lemma AcceptedTransitions(r: Record, op: Operation)
    requires Apply(r, op).Ok?
    ensures var s := After(r, op);
            && (!op.BeginDeactivation? ==> s.generation == r.generation)
            && (op.BeginDeactivation? ==> s.generation == op.expected + 1)
            && (op.BeginDeactivation? && r.state in {Active, Syncing} ==> s.state == Deactivating)
            && (op.BeginDeactivation? && r.state !in {Active, Syncing} ==> s == r)
            && (op.ResumeDeactivation? ==> s.state == Deactivating)
            && (op.MarkInactive? ==> s.state == Inactive)
            && (op.MarkDeactivationFailed? ==> s.state == DeactivationFailed)
            && (IsWrite(op) || op.RemoveAllObjects? || op.DeactivateUsers? ==> s.state == r.state)
            && (!IsWrite(op) && !op.RemoveAllObjects? && !op.DeactivateUsers? ==>
                  s.documents == r.documents && s.retrievalState == r.retrievalState && s.activeUsers == r.activeUsers)
  {
  }

  /** Cleanup of a fenced store removes what it names, everything when it names nobody, and nothing else. */
  lemma CleanupRemoves(r: Record, users: set<Key>)
    requires r.state == Deactivating
    ensures var s := After(r, RemoveAllObjects(r.generation));
            s.documents == map[] && s.retrievalState == map[] && s.activeUsers == r.activeUsers
    ensures var s := After(r, DeactivateUsers(r.generation, users));
            && s.documents == r.documents && s.retrievalState == r.retrievalState
            && forall u :: u in s.activeUsers <==> u in r.activeUsers && users != {} && u !in users
  {
  }

  function Lookup(m: map<Key, Key>, k: Key): Option<Key> {
    if k in m then Some(m[k]) else None
  }

  /** What the last of some writes to document `d` left of it: its content, or nothing once deleted. */
  function LastDocument(start: Option<Key>, ops: seq<Operation>, d: Key): Option<Key> {
    if ops == [] then start
    else
      match ops[|ops| - 1]
      case UpsertDocument(_, document, content) =>
        if document == d then Some(content) else LastDocument(start, ops[..|ops| - 1], d)
      case DeleteDocument(_, document) => if document == d then None else LastDocument(start, ops[..|ops| - 1], d)
      case _ => LastDocument(start, ops[..|ops| - 1], d)
  }

  function LastState(start: Option<Key>, ops: seq<Operation>, k: Key): Option<Key> {
    if ops == [] then start
    else
      match ops[|ops| - 1]
      case MutateRetrievalState(_, key, value) =>
        if key == k then Some(value) else LastState(start, ops[..|ops| - 1], k)
      case _ => LastState(start, ops[..|ops| - 1], k)
  }

  /** Writes of the store's own generation. */
  ghost predicate CurrentWrites(r: Record, ops: seq<Operation>) {
    forall i :: 0 <= i < |ops| ==> IsWrite(ops[i]) && ops[i].expected == r.generation
  }

  /**
   While a store is writable, writes of its generation are all accepted: each document and each key of the
   retrieval state shows its last write, and exactly the activated users joined.
   */
  lemma {:induction false} WritesAreRead(r: Record, ops: seq<Operation>, k: Key)
    requires r.state in {Active, Syncing} && CurrentWrites(r, ops)
    ensures var s := AfterAll(r, ops);
            && s.state == r.state && s.generation == r.generation
            && Lookup(s.documents, k) == LastDocument(Lookup(r.documents, k), ops, k)
            && Lookup(s.retrievalState, k) == LastState(Lookup(r.retrievalState, k), ops, k)
            && (k in s.activeUsers <==>
                  k in r.activeUsers || exists i :: 0 <= i < |ops| && ops[i].ActivateUser? && ops[i].user == k)
  {
    if ops != [] {
      WritesAreRead(r, ops[..|ops| - 1], k);
    }
  }

  // ---- the adapter ----

  class StoreRecord {
    var state: LifecycleState
    var generation: int
    var activeUsers: set<Key>
    var retrievalState: map<Key, Key>
    var documents: map<Key, Key>

    function View(): Record
      reads this
    {
      Record(state, generation, activeUsers, retrievalState, documents)
    }

    constructor (s: LifecycleState, g: int)
      ensures View() == Record(s, g, {}, map[], map[])
    {
      state, generation, activeUsers, retrievalState, documents := s, g, {}, map[], map[];
    }

    /** Empties documents and retrieval state, and counts the documents. */
    method RemoveObjects() returns (count: nat)
      modifies this`documents, this`retrievalState
      ensures documents == map[] && retrievalState == map[] && count == |old(documents)|
    {
      count := |documents|;
      documents := map[];
      retrievalState := map[];
    }

    /** Removes the named users, or all of them, and counts those that were active. */
    method RemoveUsers(users: set<Key>) returns (removed: nat)
      modifies this`activeUsers
      ensures activeUsers == if users == {} then {} else old(activeUsers) - users
      ensures removed == |old(activeUsers) - activeUsers|
    {
      var targets := if users == {} then activeUsers else users;
      RemovedPart(activeUsers, users, targets);
      removed := |activeUsers * targets|;
      activeUsers := activeUsers - targets;
    }
  }

  /** The result of the same call on the whole repository. */
  function Expected(view: map<Key, Record>, store: Key, op: Operation): Result<map<Key, Record>> {
    if store !in view then Err(UnknownStore)
    else
      var result := Apply(view[store], op);
      if result.Ok? then Ok(view[store := result.value]) else Err(result.error)
  }

  /** A call on one store took `before` to `after`, or failed with `error` and changed nothing. */
  ghost predicate Performs(
    before: map<Key, Record>, after: map<Key, Record>, store: Key, op: Operation, error: Option<RepositoryError>)
  {
    var e := Expected(before, store, op);
    if e.Ok? then error.None? && after == e.value else error == Some(e.error) && after == before
  }

  /** A call changes at most the record of its own store, to what the call leaves of it; it fails as the record says. */
  lemma PerformedExactly(
    before: map<Key, Record>, after: map<Key, Record>, store: Key, op: Operation, error: Option<RepositoryError>)
    requires Performs(before, after, store, op, error)
    ensures after.Keys == before.Keys && forall k :: k in before && k != store ==> after[k] == before[k]
    ensures store !in before ==> error == Some(UnknownStore)
    ensures store in before ==>
              var result := Apply(before[store], op);
              if result.Ok? then error.None? && after[store] == result.value
              else error == Some(result.error) && after[store] == before[store]
  {
    hide Apply;
  }

  predicate IsCleanup(op: Operation) {
    op.RemoveAllObjects? || op.DeactivateUsers?
  }

  /** Why a cleanup call is refused, if it is. */
  function CleanupError(view: map<Key, Record>, store: Key, expected: int): Option<RepositoryError> {
    if store !in view then Some(UnknownStore)
    else if view[store].generation != expected then Some(StaleGeneration(view[store].generation))
    else if view[store].state != Deactivating then Some(StateRejected(view[store].state))
    else None
  }

  lemma CleanupPerforms(view: map<Key, Record>, store: Key, op: Operation)
    requires IsCleanup(op)
    ensures CleanupError(view, store, op.expected).Some? ==>
              Performs(view, view, store, op, CleanupError(view, store, op.expected))
    ensures CleanupError(view, store, op.expected).None? ==>
              store in view && Performs(view, view[store := After(view[store], op)], store, op, None)
  {
  }

  class InMemoryRetrievalRepository {
    var records: map<Key, StoreRecord>

    ghost predicate Valid()
      reads this
    {
      forall a, b :: a in records && b in records && records[a] == records[b] ==> a == b
    }

    ghost function View(): map<Key, Record>
      reads this, records.Values
    {
      map k | k in records :: records[k].View()
    }

    constructor ()
      ensures Valid() && View() == map[]
    {
      records := map[];
    }

    method EnsureStore(store: Key, generation: int, state: LifecycleState) returns (copy: Record)
      requires Valid()
      modifies this
      ensures Valid()
      ensures View() == if store in old(View()) then old(View())
                        else old(View())[store := Record(state, generation, {}, map[], map[])]
      ensures copy == View()[store]
    {
      if store !in records {
        var record := new StoreRecord(state, generation);
        records := records[store := record];
      }
      copy := records[store].View();
    }

    method RequireGeneration(record: StoreRecord, expected: int) returns (error: Option<RepositoryError>)
      ensures error == if record.generation == expected then None else Some(StaleGeneration(record.generation))
    {
      error := if record.generation == expected then None else Some(StaleGeneration(record.generation));
    }

    method RequireWritable(store: Key, expected: int) returns (error: Option<RepositoryError>)
      ensures error == if store !in records then Some(UnknownStore)
                       else if records[store].generation != expected
                       then Some(StaleGeneration(records[store].generation))
                       else if !Writable(records[store].View()) then Some(StateRejected(records[store].state))
                       else None
    {
      if store !in records {
        return Some(UnknownStore);
      }
      error := RequireGeneration(records[store], expected);
      if error.None? && records[store].state != Active && records[store].state != Syncing {
        return Some(StateRejected(records[store].state));
      }
    }

    method RequireCleanupGeneration(store: Key, expected: int) returns (error: Option<RepositoryError>)
      ensures error == CleanupError(View(), store, expected)
      ensures error.None? ==> store in records
    {
      if store !in records {
        return Some(UnknownStore);
      }
      error := RequireGeneration(records[store], expected);
      if error.None? && records[store].state != Deactivating {
        return Some(StateRejected(records[store].state));
      }
    }

    method BeginDeactivation(store: Key, expected: int) returns (error: Option<RepositoryError>)
      requires Valid()
      modifies records.Values
      ensures records == old(records)
      ensures Performs(old(View()), View(), store, Operation.BeginDeactivation(expected), error)
    {
      if store !in records {
        return Some(UnknownStore);
      }
      var record := records[store];
      if record.generation == expected + 1
         && (record.state == Deactivating || record.state == Inactive || record.state == DeactivationFailed) {
        assert View() == old(View())[store := record.View()];
        return None;
      }
      error := RequireGeneration(record, expected);
      if error.Some? {
        return;
      }
      if record.state != Active && record.state != Syncing {
        return Some(StateRejected(record.state));
      }
      record.generation := record.generation + 1;
      record.state := Deactivating;
      assert View() == old(View())[store := record.View()];
      return None;
    }

    method ResumeDeactivation(store: Key, generation: int) returns (error: Option<RepositoryError>)
      requires Valid()
      modifies records.Values
      ensures records == old(records)
      ensures Performs(old(View()), View(), store, Operation.ResumeDeactivation(generation), error)
    {
      if store !in records {
        return Some(UnknownStore);
      }
      var record := records[store];
      error := RequireGeneration(record, generation);
      if error.Some? {
        return;
      }
      if generation <= 0 {
        return Some(StateRejected(record.state));
      }
      if record.state == DeactivationFailed {
        record.state := Deactivating;
      } else if record.state != Deactivating {
        return Some(StateRejected(record.state));
      }
      assert View() == old(View())[store := record.View()];
      return None;
    }

    method MarkInactive(store: Key, expected: int) returns (error: Option<RepositoryError>)
      requires Valid()
      modifies records.Values
      ensures records == old(records)
      ensures Performs(old(View()), View(), store, Operation.MarkInactive(expected), error)
    {
      if store !in records {
        return Some(UnknownStore);
      }
      var record := records[store];
      error := RequireGeneration(record, expected);
      if error.Some? {
        return;
      }
      if record.state == Inactive {
        assert View() == old(View())[store := record.View()];
        return None;
      }
      if record.state != Deactivating {
        return Some(StateRejected(record.state));
      }
      record.state := Inactive;
      assert View() == old(View())[store := record.View()];
      return None;
    }

    method MarkDeactivationFailed(store: Key, expected: int) returns (error: Option<RepositoryError>)
      requires Valid()
      modifies records.Values
      ensures records == old(records)
      ensures Performs(old(View()), View(), store, Operation.MarkDeactivationFailed(expected), error)
    {
      if store !in records {
        return Some(UnknownStore);
      }
      var record := records[store];
      error := RequireGeneration(record, expected);
      if error.Some? {
        return;
      }
      if record.state == DeactivationFailed {
        assert View() == old(View())[store := record.View()];
        return None;
      }
      if record.state != Deactivating {
        return Some(StateRejected(record.state));
      }
      record.state := DeactivationFailed;
      assert View() == old(View())[store := record.View()];
      return None;
    }

    method ActivateUser(store: Key, expected: int, user: Key) returns (error: Option<RepositoryError>)
      requires Valid()
      modifies records.Values
      ensures records == old(records)
      ensures Performs(old(View()), View(), store, Operation.ActivateUser(expected, user), error)
    {
      error := RequireWritable(store, expected);
      if error.None? {
        var record := records[store];
        record.activeUsers := record.activeUsers + {user};
        assert View() == old(View())[store := record.View()];
      }
    }

    method MutateRetrievalState(store: Key, expected: int, key: Key, value: Key)
      returns (error: Option<RepositoryError>)
      requires Valid()
      modifies records.Values
      ensures records == old(records)
      ensures Performs(old(View()), View(), store, Operation.MutateRetrievalState(expected, key, value), error)
    {
      error := RequireWritable(store, expected);
      if error.None? {
        var record := records[store];
        record.retrievalState := record.retrievalState[key := value];
        assert View() == old(View())[store := record.View()];
      }
    }

    method UpsertDocument(store: Key, expected: int, document: Key, content: Key)
      returns (error: Option<RepositoryError>)
      requires Valid()
      modifies records.Values
      ensures records == old(records)
      ensures Performs(old(View()), View(), store, Operation.UpsertDocument(expected, document, content), error)
    {
      error := RequireWritable(store, expected);
      if error.None? {
        var record := records[store];
        record.documents := record.documents[document := content];
        assert View() == old(View())[store := record.View()];
      }
    }

    method DeleteDocument(store: Key, expected: int, document: Key) returns (error: Option<RepositoryError>)
      requires Valid()
      modifies records.Values
      ensures records == old(records)
      ensures Performs(old(View()), View(), store, Operation.DeleteDocument(expected, document), error)
    {
      error := RequireWritable(store, expected);
      if error.None? {
        var record := records[store];
        record.documents := record.documents - {document};
        assert View() == old(View())[store := record.View()];
      }
    }

    method RemoveAllObjects(store: Key, expected: int) returns (error: Option<RepositoryError>, count: nat)
      requires Valid()
      modifies records.Values
      ensures records == old(records)
      ensures Performs(old(View()), View(), store, Operation.RemoveAllObjects(expected), error)
      ensures error.None? ==> store in records && count == |old(records[store].documents)|
    {
      ghost var view := View();
      CleanupPerforms(view, store, Operation.RemoveAllObjects(expected));
      count := 0;
      error := RequireCleanupGeneration(store, expected);
      if error.None? {
        count := records[store].RemoveObjects();
        CleanedRecord(view[store], expected, {});
        hide Performs, After;
        assert View() == view[store := records[store].View()];
      }
    }

    method DeactivateUsers(store: Key, expected: int, users: set<Key>)
      returns (error: Option<RepositoryError>, removed: nat)
      requires Valid()
      modifies records.Values
      ensures records == old(records)
      ensures Performs(old(View()), View(), store, Operation.DeactivateUsers(expected, users), error)
      ensures error.None? ==>
                store in records && removed == |old(records[store].activeUsers) - records[store].activeUsers|
    {
      ghost var view := View();
      CleanupPerforms(view, store, Operation.DeactivateUsers(expected, users));
      removed := 0;
      error := RequireCleanupGeneration(store, expected);
      if error.None? {
        removed := records[store].RemoveUsers(users);
        CleanedRecord(view[store], expected, users);
        hide Performs, After;
        assert View() == view[store := records[store].View()];
      }
    }
  }

  lemma CleanedRecord(r: Record, expected: int, users: set<Key>)
    requires r.generation == expected && r.state == Deactivating
    ensures After(r, RemoveAllObjects(expected)) == r.(documents := map[], retrievalState := map[])
    ensures After(r, DeactivateUsers(expected, users))
            == r.(activeUsers := if users == {} then {} else r.activeUsers - users)
  {
  }

  lemma RemovedPart(a: set<Key>, users: set<Key>, targets: set<Key>)
    requires targets == if users == {} then a else users
    ensures a - targets == if users == {} then {} else a - users
    ensures |a * targets| == |a - (a - targets)|
  {
    assert a - (a - targets) == a * targets;
  }
}
