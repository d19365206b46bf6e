/** The database store: result rows behind a cache, guarded status, completion in a transaction. */
module DrizzleStore {
  import opened Graphs
  import opened Workflows
  import opened NodeInputs
  import opened Scheduler

  type ExecutionId = string

  /** A row of the result table. Columns that are null are None. */
  datatype Row = Row(success: bool, data: Option<Json>, error: Option<string>, nextNodes: Option<seq<Id>>, skipped: bool)

  function TruthyData(data: Option<Json>): Option<Json> {
    if data.Some? && Truthy(data.value) then data else None
  }

  function TruthyError(error: Option<string>): Option<string> {
    if error.Some? && error.value != "" then error else None
  }

  function ToRow(r: ExecutionResult): Row {
    Row(r.success, TruthyData(r.data), TruthyError(r.error), r.nextNodes, r.skipped)
  }

  function FromRow(row: Row): ExecutionResult {
    ExecutionResult(row.success, TruthyData(row.data), TruthyError(row.error), row.nextNodes, row.skipped)
  }

  /** What the table keeps of a result: falsy data and an empty error are lost. */
  function Normalise(r: ExecutionResult): ExecutionResult {
    FromRow(ToRow(r))
  }

  /** The decisions of the scheduler do not depend on what is lost. */
  lemma NormaliseKeepsDecisions(r: ExecutionResult)
    ensures Normalise(r).success == r.success && Normalise(r).skipped == r.skipped && Normalise(r).nextNodes == r.nextNodes
    ensures Normalise(r).data == (if r.data.Some? && Truthy(r.data.value) then r.data else None)
    ensures Normalise(r).error == (if r.error == Some("") then None else r.error)
    ensures Normalise(Normalise(r)) == Normalise(r)
    ensures Normalise(r) == r <==> (r.data.Some? ==> Truthy(r.data.value)) && r.error != Some("")
  {
  }

  function NormaliseAll(results: map<Id, ExecutionResult>): map<Id, ExecutionResult> {
    map id | id in results :: Normalise(results[id])
  }

  predicate KeepsData(results: map<Id, ExecutionResult>, parent: Id) {
    Delivers(results, parent) ==> Truthy(results[parent].data.value)
  }

  lemma DeliversThroughTable(results: map<Id, ExecutionResult>, parent: Id)
    ensures Delivers(NormaliseAll(results), parent) <==> Delivers(results, parent) && KeepsData(results, parent)
    ensures Delivers(NormaliseAll(results), parent) ==> NormaliseAll(results)[parent].data == results[parent].data
  {
  }

  /**
   * A node's input data is the same through the table as through the cache or memory exactly if
   * no parent that matters returned falsy data: a single parent's is replaced by the job's own
   * input data, and among several parents its key is missing.
   */
  lemma InputDataThroughTable(inputData: Option<Json>, parents: seq<Id>, results: map<Id, ExecutionResult>)
    ensures var same := NodeInputData(inputData, parents, NormaliseAll(results)) == NodeInputData(inputData, parents, results);
      && (|parents| == 0 ==> same)
      && (|parents| == 1 ==> (same <==> parents[0] == "" || KeepsData(results, parents[0]) || inputData == results[parents[0]].data))
      && (|parents| >= 2 ==> (same <==> forall p :: p in parents ==> KeepsData(results, p)))
  {
    hide NormaliseAll, KeepsData;
    if |parents| == 1 {
      DeliversThroughTable(results, parents[0]);
      UndeliveredKeeps(results, parents[0]);
    } else if |parents| >= 2 {
      var stored := NormaliseAll(results);
      var raw := map p | p in parents && Delivers(results, p) :: results[p].data.value;
      var kept := map p | p in parents && Delivers(stored, p) :: stored[p].data.value;
      forall p | p in parents ensures p in raw && p !in kept <==> !KeepsData(results, p) {
        DeliversThroughTable(results, p);
        UndeliveredKeeps(results, p);
      }
      forall p | p in kept ensures p in raw && kept[p] == raw[p] {
        DeliversThroughTable(results, p);
      }
      assert raw == kept <==> forall p :: p in parents ==> KeepsData(results, p) by {
        if forall p :: p in parents ==> KeepsData(results, p) {
          assert raw.Keys == kept.Keys;
        }
      }
    }
  }

  lemma UndeliveredKeeps(results: map<Id, ExecutionResult>, parent: Id)
    ensures !Delivers(results, parent) ==> KeepsData(results, parent)
    ensures Delivers(results, parent) ==> parent in results && results[parent].data.Some?
  {
  }

  function RowsOf(table: map<ExecutionId, map<Id, Row>>, e: ExecutionId): map<Id, Row> {
    if e in table then table[e] else map[]
  }

  function CachedOf(cache: map<ExecutionId, map<Id, ExecutionResult>>, e: ExecutionId): map<Id, ExecutionResult> {
    if e in cache then cache[e] else map[]
  }

  /** A cached result is the row's, up to what the table keeps. */
  predicate Fresh(rows: map<Id, Row>, id: Id, r: ExecutionResult) {
    id in rows && Normalise(r) == FromRow(rows[id])
  }

  ghost predicate Agrees(rows: map<Id, Row>, cached: map<Id, ExecutionResult>) {
    forall id :: id in cached ==> Fresh(rows, id, cached[id])
  }

  ghost predicate AllAgree(table: map<ExecutionId, map<Id, Row>>, cache: map<ExecutionId, map<Id, ExecutionResult>>) {
    forall e :: Agrees(RowsOf(table, e), CachedOf(cache, e))
  }

  function Upserted(table: map<ExecutionId, map<Id, Row>>, e: ExecutionId, n: Id, r: ExecutionResult): map<ExecutionId, map<Id, Row>> {
    table[e := RowsOf(table, e)[n := ToRow(r)]]
  }

  function Dropped(cache: map<ExecutionId, map<Id, ExecutionResult>>, e: ExecutionId, n: Id): map<ExecutionId, map<Id, ExecutionResult>> {
    cache[e := CachedOf(cache, e) - {n}]
  }

  /** A cached result survives an update only if it says the same. */
  lemma AgreementAfterUpdate(table: map<ExecutionId, map<Id, Row>>, cache: map<ExecutionId, map<Id, ExecutionResult>>,
                             e: ExecutionId, n: Id, r: ExecutionResult)
    requires AllAgree(table, cache)
    ensures AllAgree(Upserted(table, e, n, r), Dropped(cache, e, n))
    ensures AllAgree(Upserted(table, e, n, r), cache) <==>
      n !in CachedOf(cache, e) || Normalise(CachedOf(cache, e)[n]) == Normalise(r)
  {
    var rows, cached := RowsOf(table, e), CachedOf(cache, e);
    assert Agrees(rows, cached);
    RowAgreement(rows, cached, n, r);
    hide Normalise, Agrees;
    assert RowsOf(Upserted(table, e, n, r), e) == rows[n := ToRow(r)] && CachedOf(Dropped(cache, e, n), e) == cached - {n};
    forall e' | e' != e
      ensures RowsOf(Upserted(table, e, n, r), e') == RowsOf(table, e') && CachedOf(Dropped(cache, e, n), e') == CachedOf(cache, e')
    {
    }
  }

  lemma RowAgreement(rows: map<Id, Row>, cached: map<Id, ExecutionResult>, n: Id, r: ExecutionResult)
    requires Agrees(rows, cached)
    ensures Agrees(rows[n := ToRow(r)], cached - {n})
    ensures Agrees(rows[n := ToRow(r)], cached) <==> n !in cached || Normalise(cached[n]) == Normalise(r)
  {
    var rows' := rows[n := ToRow(r)];
    assert n in cached ==> (Fresh(rows', n, cached[n]) <==> Normalise(cached[n]) == Normalise(r));
  }

  // ------------------------------------------------------ reads and updates

  /** What the cache answers. It is not asked for the empty id. */
  function Hits(cached: map<Id, ExecutionResult>, nodeIds: seq<Id>): map<Id, ExecutionResult> {
    map id | id in nodeIds && id in cached && id != "" :: cached[id]
  }

  /** What the table answers for the ids that the cache does not know, or for all if it was not asked. */
  function FromTable(rows: map<Id, Row>, cached: map<Id, ExecutionResult>, nodeIds: seq<Id>, asked: bool): map<Id, ExecutionResult> {
    map id | id in nodeIds && id in rows && (asked ==> id !in cached && id != "") :: FromRow(rows[id])
  }

  function ReadThrough(rows: map<Id, Row>, cached: map<Id, ExecutionResult>, nodeIds: seq<Id>, asked: bool): map<Id, ExecutionResult> {
    (if asked then Hits(cached, nodeIds) else map[]) + FromTable(rows, cached, nodeIds, asked)
  }

  /**
   * When cache and table agree, a read returns what the table has, up to what the table keeps.
   * Only the empty node id is not looked up when the cache answers.
   */
  lemma AgreeingReads(rows: map<Id, Row>, cached: map<Id, ExecutionResult>, nodeIds: seq<Id>, asked: bool)
    requires Agrees(rows, cached)
    ensures var results := ReadThrough(rows, cached, nodeIds, asked);
      && (forall id :: id in results <==> id in nodeIds && id in rows && (asked ==> id != ""))
      && (forall id :: id in results ==> Normalise(results[id]) == FromRow(rows[id]))
  {
    assert forall id :: id in cached ==> Fresh(rows, id, cached[id]);
  }

  /** A concurrent update of a result. */
  datatype Update = Update(node: Id, r: ExecutionResult, redisUp: bool)

  function RowsAfterAll(rows: map<Id, Row>, updates: seq<Update>): map<Id, Row>
    decreases |updates|
  {
    if updates == [] then rows
    else RowsAfterAll(rows[updates[0].node := ToRow(updates[0].r)], updates[1..])
  }

  function CachedAfterAll(cached: map<Id, ExecutionResult>, updates: seq<Update>): map<Id, ExecutionResult>
    decreases |updates|
  {
    if updates == [] then cached
    else CachedAfterAll(if updates[0].redisUp then cached - {updates[0].node} else cached, updates[1..])
  }

  /** Updates that reach the cache keep the agreement. */
  lemma {:induction false} UpdatesAgree(rows: map<Id, Row>, cached: map<Id, ExecutionResult>, updates: seq<Update>)
    requires Agrees(rows, cached) && forall i :: 0 <= i < |updates| ==> updates[i].redisUp
    ensures Agrees(RowsAfterAll(rows, updates), CachedAfterAll(cached, updates))
    decreases |updates|
  {
    if updates != [] {
      hide Agrees;
      RowAgreement(rows, cached, updates[0].node, updates[0].r);
      UpdatesAgree(rows[updates[0].node := ToRow(updates[0].r)], cached - {updates[0].node}, updates[1..]);
    }
  }

  lemma {:induction false} RowsStay(rows: map<Id, Row>, updates: seq<Update>)
    ensures rows.Keys <= RowsAfterAll(rows, updates).Keys
    decreases |updates|
  {
    if updates != [] {
      RowsStay(rows[updates[0].node := ToRow(updates[0].r)], updates[1..]);
    }
  }

  /**
   * A read that misses in the cache, selects the rows, and populates the cache after concurrent
   * updates: cache and table then agree exactly if for each id it populates the row says the
   * same as the row it read.
   */
  lemma PopulationAfterUpdates(rows: map<Id, Row>, cached: map<Id, ExecutionResult>, nodeIds: seq<Id>, asked: bool, updates: seq<Update>)
    requires Agrees(rows, cached) && forall i :: 0 <= i < |updates| ==> updates[i].redisUp
    ensures var rows', populated := RowsAfterAll(rows, updates), FromTable(rows, cached, nodeIds, asked);
      Agrees(rows', CachedAfterAll(cached, updates) + populated) <==>
      forall id :: id in populated ==> id in rows' && FromRow(rows'[id]) == FromRow(rows[id])
  {
    var rows', cached', populated := RowsAfterAll(rows, updates), CachedAfterAll(cached, updates), FromTable(rows, cached, nodeIds, asked);
    UpdatesAgree(rows, cached, updates);
    RowsStay(rows, updates);
    hide RowsAfterAll, CachedAfterAll;
    forall id | id in populated ensures Fresh(rows', id, populated[id]) <==> FromRow(rows'[id]) == FromRow(rows[id]) {
      assert Normalise(FromRow(rows[id])) == FromRow(rows[id]);
    }
    hide FromTable, Fresh, FromRow;
    var after := cached' + populated;
    assert forall id :: id in populated ==> after[id] == populated[id];
    assert forall id :: id in after && id !in populated ==> id in cached' && after[id] == cached'[id];
  }

  /** No row that a read populates the cache with was updated to something else in the meantime. */
  ghost predicate ReadsLast(rows: map<Id, Row>, cached: map<Id, ExecutionResult>, nodeIds: seq<Id>, asked: bool, updates: seq<Update>) {
    var rows' := RowsAfterAll(rows, updates);
    forall id :: id in FromTable(rows, cached, nodeIds, asked) ==> id in rows' && FromRow(rows'[id]) == FromRow(rows[id])
  }

  datatype Contents = Contents(table: map<ExecutionId, map<Id, Row>>, cache: map<ExecutionId, map<Id, ExecutionResult>>)

  /** What a read leaves, of this execution and of the others. */
  ghost predicate AfterRead(c: Contents, c': Contents, e: ExecutionId, nodeIds: seq<Id>, asked: bool, updates: seq<Update>, writeUp: bool) {
    && RowsOf(c'.table, e) == RowsAfterAll(RowsOf(c.table, e), updates)
    && CachedOf(c'.cache, e) == CachedAfterAll(CachedOf(c.cache, e), updates)
                               + (if writeUp then FromTable(RowsOf(c.table, e), CachedOf(c.cache, e), nodeIds, asked) else map[])
    && forall e' :: e' != e ==> RowsOf(c'.table, e') == RowsOf(c.table, e') && CachedOf(c'.cache, e') == CachedOf(c.cache, e')
  }

  lemma ReadAgreement(c: Contents, c': Contents, e: ExecutionId, nodeIds: seq<Id>, asked: bool, updates: seq<Update>, writeUp: bool)
    requires AllAgree(c.table, c.cache) && AfterRead(c, c', e, nodeIds, asked, updates, writeUp)
    requires forall i :: 0 <= i < |updates| ==> updates[i].redisUp
    ensures AllAgree(c'.table, c'.cache) <==>
      (writeUp ==> ReadsLast(RowsOf(c.table, e), CachedOf(c.cache, e), nodeIds, asked, updates))
  {
    var rows, cached := RowsOf(c.table, e), CachedOf(c.cache, e);
    hide FromTable, RowsAfterAll, CachedAfterAll, FromRow;
    assert Agrees(rows, cached);
    UpdatesAgree(rows, cached, updates);
    PopulationAfterUpdates(rows, cached, nodeIds, asked, updates);
    hide Agrees, RowsOf, CachedOf;
    forall e' | e' != e ensures Agrees(RowsOf(c'.table, e'), CachedOf(c'.cache, e')) {
      assert Agrees(RowsOf(c.table, e'), CachedOf(c.cache, e'));
    }
    assert CachedAfterAll(cached, updates) + map[] == CachedAfterAll(cached, updates);
    assert AllAgree(c'.table, c'.cache) <==> Agrees(RowsOf(c'.table, e), CachedOf(c'.cache, e));
  }

  // ------------------------------------------------ sequences of operations

  /** The operations on results, and which of their calls of Redis get through. */
  datatype Operation =
    | Write(e: ExecutionId, n: Id, r: ExecutionResult, redisUp: bool)
    | WriteAndCache(e: ExecutionId, n: Id, r: ExecutionResult, deleteUp: bool, writeUp: bool)
    | Read(e: ExecutionId, nodeIds: seq<Id>, readUp: bool, updates: seq<Update>, writeUp: bool)
    | Evict(e: ExecutionId, n: Id)

  function Stored(cache: map<ExecutionId, map<Id, ExecutionResult>>, e: ExecutionId, n: Id, r: ExecutionResult): map<ExecutionId, map<Id, ExecutionResult>> {
    cache[e := CachedOf(cache, e)[n := r]]
  }

  /** The same rows and cached results for every execution. */
  ghost predicate Looks(c: Contents, c': Contents) {
    forall e :: RowsOf(c.table, e) == RowsOf(c'.table, e) && CachedOf(c.cache, e) == CachedOf(c'.cache, e)
  }

  /** Operations and agreement depend on nothing else. */
  lemma SameLooks(c: Contents, c': Contents, op: Operation)
    requires Looks(c, c')
    ensures Looks(Performed(c, op), Performed(c', op)) && (op.Read? ==> Answer(c, op) == Answer(c', op))
    ensures AllAgree(c.table, c.cache) <==> AllAgree(c'.table, c'.cache)
  {
    SameAgreement(c, c');
    hide RowsOf, CachedOf, Performed, ReadThrough, AllAgree;
    forall e ensures RowsOf(Performed(c, op).table, e) == RowsOf(Performed(c', op).table, e)
      && CachedOf(Performed(c, op).cache, e) == CachedOf(Performed(c', op).cache, e)
    {
      LooksAt(c, c', op.e);
      LooksAt(c, c', e);
      SamePerformed(c, c', op, e);
    }
    LooksAt(c, c', op.e);
  }

  lemma LooksAt(c: Contents, c': Contents, e: ExecutionId)
    requires Looks(c, c')
    ensures RowsOf(c.table, e) == RowsOf(c'.table, e) && CachedOf(c.cache, e) == CachedOf(c'.cache, e)
  {
  }

  lemma RowsSet(table: map<ExecutionId, map<Id, Row>>, e0: ExecutionId, rows: map<Id, Row>, e: ExecutionId)
    ensures RowsOf(table[e0 := rows], e) == if e == e0 then rows else RowsOf(table, e)
  {
  }

  lemma CachedSet(cache: map<ExecutionId, map<Id, ExecutionResult>>, e0: ExecutionId, cached: map<Id, ExecutionResult>, e: ExecutionId)
    ensures CachedOf(cache[e0 := cached], e) == if e == e0 then cached else CachedOf(cache, e)
  {
  }

  /** What an operation makes of the rows and the cached results of its execution. */
  function RowsPerformed(rows: map<Id, Row>, op: Operation): map<Id, Row> {
    match op
    case Write(_, n, r, _) => rows[n := ToRow(r)]
    case WriteAndCache(_, n, r, _, _) => rows[n := ToRow(r)]
    case Read(_, _, _, updates, _) => RowsAfterAll(rows, updates)
    case Evict(_, _) => rows
  }

  function CachedPerformed(rows: map<Id, Row>, cached: map<Id, ExecutionResult>, op: Operation): map<Id, ExecutionResult> {
    match op
    case Write(_, n, r, redisUp) => if redisUp then cached - {n} else cached
    case WriteAndCache(_, n, r, deleteUp, writeUp) => if writeUp then cached[n := r] else if deleteUp then cached - {n} else cached
    case Read(_, nodeIds, readUp, updates, writeUp) =>
      CachedAfterAll(cached, updates) + if writeUp then FromTable(rows, cached, nodeIds, readUp) else map[]
    case Evict(_, n) => cached - {n}
  }

  lemma PerformedIs(c: Contents, op: Operation, e: ExecutionId)
    ensures RowsOf(Performed(c, op).table, e) == if e == op.e then RowsPerformed(RowsOf(c.table, e), op) else RowsOf(c.table, e)
    ensures CachedOf(Performed(c, op).cache, e)
         == if e == op.e then CachedPerformed(RowsOf(c.table, e), CachedOf(c.cache, e), op) else CachedOf(c.cache, e)
  {
    hide FromTable, RowsAfterAll, CachedAfterAll, ToRow, RowsOf, CachedOf;
    RowsSet(c.table, op.e, RowsPerformed(RowsOf(c.table, op.e), op), e);
    CachedSet(c.cache, op.e, CachedPerformed(RowsOf(c.table, op.e), CachedOf(c.cache, op.e), op), e);
  }

  lemma SamePerformed(c: Contents, c': Contents, op: Operation, e: ExecutionId)
    requires RowsOf(c.table, op.e) == RowsOf(c'.table, op.e) && CachedOf(c.cache, op.e) == CachedOf(c'.cache, op.e)
    requires RowsOf(c.table, e) == RowsOf(c'.table, e) && CachedOf(c.cache, e) == CachedOf(c'.cache, e)
    ensures RowsOf(Performed(c, op).table, e) == RowsOf(Performed(c', op).table, e)
    ensures CachedOf(Performed(c, op).cache, e) == CachedOf(Performed(c', op).cache, e)
  {
    hide *;
    PerformedIs(c, op, e);
    PerformedIs(c', op, e);
  }

  lemma SameAgreement(c: Contents, c': Contents)
    requires Looks(c, c')
    ensures AllAgree(c.table, c.cache) <==> AllAgree(c'.table, c'.cache)
  {
    hide Agrees, RowsOf, CachedOf;
    forall e ensures Agrees(RowsOf(c.table, e), CachedOf(c.cache, e)) <==> Agrees(RowsOf(c'.table, e), CachedOf(c'.cache, e)) {
      LooksAt(c, c', e);
    }
  }

  /** What an operation makes of table and cache. */
  function Performed(c: Contents, op: Operation): Contents {
    match op
    case Write(e, n, r, redisUp) =>
      Contents(Upserted(c.table, e, n, r), if redisUp then Dropped(c.cache, e, n) else c.cache)
    case WriteAndCache(e, n, r, deleteUp, writeUp) =>
      Contents(Upserted(c.table, e, n, r),
               if writeUp then Stored(c.cache, e, n, r) else if deleteUp then Dropped(c.cache, e, n) else c.cache)
    case Read(e, nodeIds, readUp, updates, writeUp) =>
      var fetched := FromTable(RowsOf(c.table, e), CachedOf(c.cache, e), nodeIds, readUp);
      Contents(c.table[e := RowsAfterAll(RowsOf(c.table, e), updates)],
               c.cache[e := CachedAfterAll(CachedOf(c.cache, e), updates) + if writeUp then fetched else map[]])
    case Evict(e, n) => Contents(c.table, Dropped(c.cache, e, n))
  }

  lemma LooksAlike(a: Contents, b: Contents, c: Contents)
    requires Looks(a, b) && Looks(b, c)
    ensures Looks(a, c)
  {
  }

  lemma PerformedReads(c: Contents, c': Contents, op: Operation)
    requires op.Read? && AfterRead(c, c', op.e, op.nodeIds, op.readUp, op.updates, op.writeUp)
    ensures Looks(c', Performed(c, op))
  {
    hide FromTable, RowsAfterAll, CachedAfterAll;
  }

  /** What a read returns. */
  function Answer(c: Contents, op: Operation): map<Id, ExecutionResult>
    requires op.Read?
  {
    ReadThrough(RowsOf(c.table, op.e), CachedOf(c.cache, op.e), op.nodeIds, op.readUp)
  }

  const EMPTY := Contents(map[], map[])

  /** Table and cache after these operations on an empty store. */
  function After(ops: seq<Operation>): Contents {
    if ops == [] then EMPTY else Performed(After(ops[..|ops|-1]), ops[|ops|-1])
  }

  /** Redis takes what an update has to tell it. Reads, and the first of two tries, may fail. */
  predicate Reaches(op: Operation) {
    match op
    case Write(_, _, _, redisUp) => redisUp
    case WriteAndCache(_, _, _, deleteUp, writeUp) => deleteUp || writeUp
    case Read(_, _, _, updates, _) => forall i :: 0 <= i < |updates| ==> updates[i].redisUp
    case Evict(_, _) => true
  }

  /** A row was updated between a read's select and its population of the cache with that row. */
  ghost predicate Overtaken(c: Contents, op: Operation) {
    op.Read? && op.writeUp && !ReadsLast(RowsOf(c.table, op.e), CachedOf(c.cache, op.e), op.nodeIds, op.readUp, op.updates)
  }

  lemma DropAgrees(table: map<ExecutionId, map<Id, Row>>, cache: map<ExecutionId, map<Id, ExecutionResult>>, e: ExecutionId, n: Id)
    requires AllAgree(table, cache)
    ensures AllAgree(table, Dropped(cache, e, n))
  {
    forall e' ensures Agrees(RowsOf(table, e'), CachedOf(Dropped(cache, e, n), e')) {
      assert Agrees(RowsOf(table, e'), CachedOf(cache, e'));
    }
  }

  lemma StepAgrees(c: Contents, op: Operation)
    requires AllAgree(c.table, c.cache) && Reaches(op)
    ensures AllAgree(Performed(c, op).table, Performed(c, op).cache) <==> !Overtaken(c, op)
  {
    hide AllAgree, Dropped, Upserted, Stored, ReadsLast, FromTable;
    match op
    case Write(e, n, r, _) => AgreementAfterUpdate(c.table, c.cache, e, n, r);
    case WriteAndCache(e, n, r, _, _) => CachedAgrees(c.table, c.cache, e, n, r);
    case Read(e, nodeIds, readUp, updates, writeUp) => ReadAgreement(c, Performed(c, op), e, nodeIds, readUp, updates, writeUp);
    case Evict(e, n) => DropAgrees(c.table, c.cache, e, n);
  }

  ghost predicate AgreesThroughout(ops: seq<Operation>) {
    forall i :: 0 <= i <= |ops| ==> AllAgree(After(ops[..i]).table, After(ops[..i]).cache)
  }

  ghost predicate NoneOvertaken(ops: seq<Operation>) {
    forall i :: 0 <= i < |ops| ==> !Overtaken(After(ops[..i]), ops[i])
  }

  lemma AfterNext(ops: seq<Operation>, i: nat)
    requires i < |ops|
    ensures After(ops[..i+1]) == Performed(After(ops[..i]), ops[i])
  {
    assert ops[..i+1][..i] == ops[..i];
  }

  lemma EmptyLooks(ops: seq<Operation>)
    ensures Looks(Contents(map[], map[]), After(ops[..0]))
  {
  }

  lemma EmptyAgrees()
    ensures AllAgree(EMPTY.table, EMPTY.cache)
  {
  }

  lemma {:induction false} AgreesUpTo(ops: seq<Operation>, i: nat)
    requires i <= |ops| && (forall j :: 0 <= j < |ops| ==> Reaches(ops[j])) && NoneOvertaken(ops)
    ensures AllAgree(After(ops[..i]).table, After(ops[..i]).cache)
  {
    hide AllAgree, Overtaken, Performed, Reaches;
    if i == 0 {
      EmptyAgrees();
      assert After(ops[..0]) == EMPTY;
    } else {
      hide After;
      AgreesUpTo(ops, i - 1);
      AfterNext(ops, i - 1);
      StepAgrees(After(ops[..i-1]), ops[i-1]);
    }
  }

  /**
   * Cache agreement over every sequence of operations, on any executions: as long as the updates
   * reach Redis, cache and table agree at all times exactly if no read is overtaken by an update
   * of a row that it then puts into the cache.
   */
  lemma AgreementIff(ops: seq<Operation>)
    requires forall i :: 0 <= i < |ops| ==> Reaches(ops[i])
    ensures AgreesThroughout(ops) <==> NoneOvertaken(ops)
  {
    hide AllAgree, Overtaken, Performed, Reaches, After;
    if NoneOvertaken(ops) {
      forall i | 0 <= i <= |ops| ensures AllAgree(After(ops[..i]).table, After(ops[..i]).cache) {
        AgreesUpTo(ops, i);
      }
    }
    if AgreesThroughout(ops) {
      forall i | 0 <= i < |ops| ensures !Overtaken(After(ops[..i]), ops[i]) {
        AfterNext(ops, i);
        assert AllAgree(After(ops[..i+1]).table, After(ops[..i+1]).cache);
        StepAgrees(After(ops[..i]), ops[i]);
      }
    }
  }

  /** So operations one after the other agree, and every read returns what the table has. */
  lemma SequentialReadsAgree(ops: seq<Operation>, i: nat)
    requires forall j :: 0 <= j < |ops| ==> Reaches(ops[j]) && (ops[j].Read? ==> ops[j].updates == [])
    requires i < |ops| && ops[i].Read?
    ensures AgreesThroughout(ops)
    ensures var rows, results := RowsOf(After(ops[..i]).table, ops[i].e), Answer(After(ops[..i]), ops[i]);
      && (forall id :: id in results <==> id in ops[i].nodeIds && id in rows && (ops[i].readUp ==> id != ""))
      && (forall id :: id in results ==> Normalise(results[id]) == FromRow(rows[id]))
  {
    hide AllAgree, Performed, Reaches, After, Normalise;
    forall j | 0 <= j < |ops| ensures !Overtaken(After(ops[..j]), ops[j]) {
      NotOvertaken(After(ops[..j]), ops[j]);
    }
    AgreementIff(ops);
    var c := After(ops[..i]);
    assert AllAgree(c.table, c.cache);
    AgreesOn(c, ops[i].e);
    AgreeingReads(RowsOf(c.table, ops[i].e), CachedOf(c.cache, ops[i].e), ops[i].nodeIds, ops[i].readUp);
  }

  lemma NotOvertaken(c: Contents, op: Operation)
    requires op.Read? ==> op.updates == []
    ensures !Overtaken(c, op)
  {
  }

  lemma AgreesOn(c: Contents, e: ExecutionId)
    requires AllAgree(c.table, c.cache)
    ensures Agrees(RowsOf(c.table, e), CachedOf(c.cache, e))
  {
  }

  /** What reads leave in the cache when nothing is updated in between. */
  function CachedAfterReads(rows: map<Id, Row>, cached: map<Id, ExecutionResult>, queries: seq<seq<Id>>): map<Id, ExecutionResult>
    decreases |queries|
  {
    if queries == [] then cached
    else CachedAfterReads(rows, cached + FromTable(rows, cached, queries[0], true), queries[1..])
  }

  /** A cached result, stale or not, is what every read returns, and no read refreshes it. */
  lemma {:induction false} ReadsKeepWhatIsCached(rows: map<Id, Row>, cached: map<Id, ExecutionResult>, queries: seq<seq<Id>>, n: Id)
    requires n in cached && n != ""
    ensures var after := CachedAfterReads(rows, cached, queries);
      && n in after && after[n] == cached[n]
      && forall nodeIds :: n in nodeIds ==> n in Hits(after, nodeIds) && Hits(after, nodeIds)[n] == cached[n]
    decreases |queries|
  {
    if queries != [] {
      ReadsKeepWhatIsCached(rows, cached + FromTable(rows, cached, queries[0], true), queries[1..], n);
    }
  }

  // ------------------------------------------------------------ completion

  predicate FailedRow(row: Row) {
    !row.success && !row.skipped
  }

  ghost predicate AnyFailed(rows: map<Id, Row>) {
    exists id :: id in rows && FailedRow(rows[id])
  }

  /** The status a set of rows stands for. */
  ghost function StatusOf(rows: map<Id, Row>, totalNodes: int): Status {
    if |rows| != totalNodes then Running
    else if AnyFailed(rows) then Failed
    else Completed
  }

  /** The selected rows are these results. */
  ghost predicate FoundIs(found: seq<(Id, Row)>, fetched: map<Id, ExecutionResult>) {
    && (forall i :: 0 <= i < |found| ==> found[i].0 in fetched && FromRow(found[i].1) == fetched[found[i].0])
    && (forall id :: id in fetched ==> exists j :: 0 <= j < |found| && found[j].0 == id)
  }

  /** These of the results were found in the first rows. */
  ghost predicate FoundSoFar(found: seq<(Id, Row)>, fetched: map<Id, ExecutionResult>, i: int, added: map<Id, ExecutionResult>) {
    && 0 <= i <= |found|
    && (forall id :: id in added ==> id in fetched && added[id] == fetched[id])
    && (forall j :: 0 <= j < i ==> found[j].0 in added)
  }

  lemma NoneFound(found: seq<(Id, Row)>, fetched: map<Id, ExecutionResult>)
    ensures FoundSoFar(found, fetched, 0, map[])
  {
  }

  lemma OneMoreFound(found: seq<(Id, Row)>, fetched: map<Id, ExecutionResult>, i: int, added: map<Id, ExecutionResult>)
    requires FoundIs(found, fetched) && FoundSoFar(found, fetched, i, added) && i < |found|
    ensures FoundSoFar(found, fetched, i + 1, added[found[i].0 := FromRow(found[i].1)])
  {
  }

  lemma AllFound(found: seq<(Id, Row)>, fetched: map<Id, ExecutionResult>, added: map<Id, ExecutionResult>)
    requires FoundIs(found, fetched) && FoundSoFar(found, fetched, |found|, added)
    ensures added == fetched
  {
    assert added.Keys == fetched.Keys;
  }

  lemma PlusOne<K, V>(a: map<K, V>, b: map<K, V>, k: K, v: V)
    ensures (a + b)[k := v] == a + b[k := v]
  {
  }

  lemma SameWhenWritten(cache: map<ExecutionId, map<Id, ExecutionResult>>, e: ExecutionId, n: Id, r: ExecutionResult)
    ensures Stored(Dropped(cache, e, n), e, n, r) == Stored(cache, e, n, r)
  {
    assert (CachedOf(cache, e) - {n})[n := r] == CachedOf(cache, e)[n := r];
  }

  lemma CachedAgrees(table: map<ExecutionId, map<Id, Row>>, cache: map<ExecutionId, map<Id, ExecutionResult>>,
                     e: ExecutionId, n: Id, r: ExecutionResult)
    requires AllAgree(table, cache)
    ensures AllAgree(Upserted(table, e, n, r), Stored(cache, e, n, r))
    ensures AllAgree(Upserted(table, e, n, r), Dropped(cache, e, n))
    ensures AllAgree(Upserted(table, e, n, r), cache) <==>
      n !in CachedOf(cache, e) || Normalise(CachedOf(cache, e)[n]) == Normalise(r)
  {
    AgreementAfterUpdate(table, cache, e, n, r);
    forall e' ensures Agrees(RowsOf(Upserted(table, e, n, r), e'), CachedOf(Stored(cache, e, n, r), e')) {
      assert Agrees(RowsOf(Upserted(table, e, n, r), e'), CachedOf(Dropped(cache, e, n), e'));
    }
  }

  class Store {
    const cacheEnabled: bool
    var table: map<ExecutionId, map<Id, Row>>
    var statuses: map<ExecutionId, Status>
    var cache: map<ExecutionId, map<Id, ExecutionResult>>

    constructor (cacheEnabled: bool)
      ensures this.cacheEnabled == cacheEnabled
      ensures table == map[] && statuses == map[] && cache == map[] && Consistent()
    {
      this.cacheEnabled := cacheEnabled;
      table, statuses, cache := map[], map[], map[];
    }

    /** The cache does not contradict the table. No operation relies on it. */
    ghost predicate Consistent()
      reads this
    {
      AllAgree(table, cache)
    }

    // --------------------------------------------------------- node results

    method Upsert(e: ExecutionId, n: Id, r: ExecutionResult)
      modifies `table
      ensures table == Upserted(old(table), e, n, r)
    {
      table := table[e := RowsOf(table, e)[n := ToRow(r)]];
    }

    /** Deletes the cached field, if there is a cache and it can be reached. */
    method Invalidate(e: ExecutionId, n: Id, redisUp: bool)
      modifies `cache
      ensures cache == if cacheEnabled && redisUp then Dropped(old(cache), e, n) else old(cache)
    {
      if cacheEnabled && redisUp {
        cache := cache[e := CachedOf(cache, e) - {n}];
      }
    }

    /**
     * The row first; then the cached field is dropped. If the cache cannot be reached, what it
     * holds for the node stays, and agreement is lost exactly when that says something else.
     */
    method UpdateNodeResult(e: ExecutionId, n: Id, r: ExecutionResult, redisUp: bool)
      modifies `table, `cache
      ensures table == Upserted(old(table), e, n, r)
      ensures cache == if cacheEnabled && redisUp then Dropped(old(cache), e, n) else old(cache)
      ensures old(Consistent()) ==>
        (Consistent() <==> (cacheEnabled && redisUp) || n !in CachedOf(old(cache), e)
                           || Normalise(CachedOf(old(cache), e)[n]) == Normalise(r))
    {
      if AllAgree(table, cache) {
        AgreementAfterUpdate(table, cache, e, n, r);
      }
      hide AllAgree, Normalise;
      Upsert(e, n, r);
      Invalidate(e, n, redisUp);
    }

    /**
     * Writes the row, then caches the result as it came, not as the table keeps it. The two
     * cache operations can fail on their own; a write that gets through repairs whatever was there.
     */
    method CacheNodeResult(e: ExecutionId, n: Id, r: ExecutionResult, deleteUp: bool, writeUp: bool)
      modifies `table, `cache
      ensures table == Upserted(old(table), e, n, r)
      ensures CachedOf(cache, e) ==
        if cacheEnabled && writeUp then CachedOf(old(cache), e)[n := r]
        else if cacheEnabled && deleteUp then CachedOf(old(cache), e) - {n}
        else CachedOf(old(cache), e)
      ensures forall e' :: e' != e ==> CachedOf(cache, e') == CachedOf(old(cache), e')
      ensures old(Consistent()) ==>
        (Consistent() <==> (cacheEnabled && (deleteUp || writeUp)) || n !in CachedOf(old(cache), e)
                           || Normalise(CachedOf(old(cache), e)[n]) == Normalise(r))
    {
      if AllAgree(table, cache) {
        CachedAgrees(table, cache, e, n, r);
      }
      hide AllAgree, Normalise;
      ghost var before := cache;
      UpdateNodeResult(e, n, r, deleteUp);
      if cacheEnabled && writeUp {
        SameWhenWritten(before, e, n, r);
        cache := cache[e := CachedOf(cache, e)[n := r]];
      }
    }

    /** A cached field expires or is evicted. */
    method Evict(e: ExecutionId, n: Id)
      modifies `cache
      ensures cache == if cacheEnabled then Dropped(old(cache), e, n) else old(cache)
      ensures old(Consistent()) ==> Consistent()
    {
      Invalidate(e, n, true);
    }

    /** The rows of the listed nodes, each once. */
    method Select(e: ExecutionId, nodeIds: seq<Id>) returns (found: seq<(Id, Row)>)
      ensures forall i :: 0 <= i < |found| ==>
        found[i].0 in nodeIds && found[i].0 in RowsOf(table, e) && found[i].1 == RowsOf(table, e)[found[i].0]
      ensures forall id :: id in nodeIds && id in RowsOf(table, e) ==> (id, RowsOf(table, e)[id]) in found
    {
      found := [];
      var rows := RowsOf(table, e);
      for i := 0 to |nodeIds|
        invariant forall j :: 0 <= j < |found| ==>
          found[j].0 in nodeIds && found[j].0 in rows && found[j].1 == rows[found[j].0]
        invariant forall j :: 0 <= j < i && nodeIds[j] in rows ==> (nodeIds[j], rows[nodeIds[j]]) in found
      {
        var id := nodeIds[i];
        if id in rows && (id, rows[id]) !in found {
          found := found + [(id, rows[id])];
        }
      }
    }

    /** What the cache has for the listed nodes, and which of them it does not have. */
    method ReadCache(e: ExecutionId, nodeIds: seq<Id>) returns (results: map<Id, ExecutionResult>, misses: seq<Id>)
      ensures results == Hits(CachedOf(cache, e), nodeIds)
      ensures forall id :: id in misses <==> id in nodeIds && id !in CachedOf(cache, e) && id != ""
    {
      results, misses := map[], [];
      var cached := CachedOf(cache, e);
      for i := 0 to |nodeIds|
        invariant forall id :: id in results <==> id in cached && id != "" && exists j :: 0 <= j < i && nodeIds[j] == id
        invariant forall id :: id in results ==> results[id] == cached[id]
        invariant forall id :: id in misses <==> id !in cached && id != "" && exists j :: 0 <= j < i && nodeIds[j] == id
      {
        var nodeId := nodeIds[i];
        if nodeId in cached && nodeId != "" {
          results := results[nodeId := cached[nodeId]];
        } else if nodeId != "" {
          misses := misses + [nodeId];
        }
      }
    }

    /**
     * A read in its steps: what the cache answers, then the rows of the ids it did not know, and,
     * after what others updated in the meantime, the population of the cache with those rows.
     * A hit is returned and kept as it is.
     */
    method GetNodeResults(e: ExecutionId, nodeIds: seq<Id>, readUp: bool, updates: seq<Update>, writeUp: bool)
      returns (results: map<Id, ExecutionResult>)
      modifies `table, `cache
      ensures var rows, cached, asked := RowsOf(old(table), e), CachedOf(old(cache), e), cacheEnabled && readUp;
        && results == ReadThrough(rows, cached, nodeIds, asked)
        && RowsOf(table, e) == RowsAfterAll(rows, updates)
        && CachedOf(cache, e) == (if cacheEnabled then CachedAfterAll(cached, updates) else cached)
                                 + if cacheEnabled && writeUp then FromTable(rows, cached, nodeIds, asked) else map[]
      ensures forall e' :: e' != e ==>
        RowsOf(table, e') == RowsOf(old(table), e') && CachedOf(cache, e') == CachedOf(old(cache), e')
      ensures old(Consistent()) && cacheEnabled && (forall i :: 0 <= i < |updates| ==> updates[i].redisUp) ==>
        (Consistent() <==>
           (writeUp ==> ReadsLast(RowsOf(old(table), e), CachedOf(old(cache), e), nodeIds, readUp, updates)))
      ensures old(Consistent()) && updates == [] ==> Consistent()
    {
      var misses := nodeIds;
      results := map[];
      if cacheEnabled && readUp {
        results, misses := ReadCache(e, nodeIds);
      }
      var found := Select(e, misses);
      ghost var fetched := FromTable(RowsOf(table, e), CachedOf(cache, e), nodeIds, cacheEnabled && readUp);
      assert FoundIs(found, fetched);
      ghost var before, rows, cached := Contents(table, cache), RowsOf(table, e), CachedOf(cache, e);
      Interfere(e, updates);
      results := AddRows(e, results, found, writeUp, fetched);
      if cacheEnabled && (forall i :: 0 <= i < |updates| ==> updates[i].redisUp) && AllAgree(before.table, before.cache) {
        ReadAgreement(before, Contents(table, cache), e, nodeIds, readUp, updates, writeUp);
      }
      if !cacheEnabled && updates == [] {
        SameAgreement(before, Contents(table, cache));
      }
    }

    /** Other workers' updates. */
    method Interfere(e: ExecutionId, updates: seq<Update>)
      modifies `table, `cache
      ensures RowsOf(table, e) == RowsAfterAll(RowsOf(old(table), e), updates)
      ensures CachedOf(cache, e) == if cacheEnabled then CachedAfterAll(CachedOf(old(cache), e), updates) else CachedOf(old(cache), e)
      ensures forall e' :: e' != e ==>
        RowsOf(table, e') == RowsOf(old(table), e') && CachedOf(cache, e') == CachedOf(old(cache), e')
      decreases |updates|
    {
      if updates != [] {
        UpdateNodeResult(e, updates[0].node, updates[0].r, updates[0].redisUp);
        Interfere(e, updates[1..]);
      }
    }

    method Populate(e: ExecutionId, n: Id, r: ExecutionResult, writeUp: bool)
      modifies `cache
      ensures CachedOf(cache, e) == if cacheEnabled && writeUp then CachedOf(old(cache), e)[n := r] else CachedOf(old(cache), e)
      ensures forall e' :: e' != e ==> CachedOf(cache, e') == CachedOf(old(cache), e')
    {
      if cacheEnabled && writeUp {
        cache := cache[e := CachedOf(cache, e)[n := r]];
      }
    }

    /** Adds what the table had to the results and, if the cache can be reached, to the cache. */
    method AddRows(e: ExecutionId, known: map<Id, ExecutionResult>, found: seq<(Id, Row)>, writeUp: bool,
                   ghost fetched: map<Id, ExecutionResult>)
      returns (results: map<Id, ExecutionResult>)
      requires FoundIs(found, fetched)
      modifies `cache
      ensures results == known + fetched
      ensures CachedOf(cache, e) == CachedOf(old(cache), e) + if cacheEnabled && writeUp then fetched else map[]
      ensures forall e' :: e' != e ==> CachedOf(cache, e') == CachedOf(old(cache), e')
    {
      hide CachedOf, FromRow, FoundIs, FoundSoFar;
      results := known;
      ghost var added: map<Id, ExecutionResult> := map[];
      NoneFound(found, fetched);
      for i := 0 to |found|
        invariant FoundSoFar(found, fetched, i, added)
        invariant results == known + added
        invariant CachedOf(cache, e) == CachedOf(old(cache), e) + if cacheEnabled && writeUp then added else map[]
        invariant forall e' :: e' != e ==> CachedOf(cache, e') == CachedOf(old(cache), e')
      {
        var (nodeId, row) := found[i];
        var nodeResult := FromRow(row);
        PlusOne(known, added, nodeId, nodeResult);
        PlusOne(CachedOf(old(cache), e), added, nodeId, nodeResult);
        OneMoreFound(found, fetched, i, added);
        results := results[nodeId := nodeResult];
        Populate(e, nodeId, nodeResult, writeUp);
        added := added[nodeId := nodeResult];
      }
      AllFound(found, fetched, added);
    }

    /** One operation, as the sequences above have it. */
    method Perform(op: Operation) returns (results: map<Id, ExecutionResult>)
      requires cacheEnabled
      modifies `table, `cache
      ensures Looks(Contents(table, cache), Performed(old(Contents(table, cache)), op))
      ensures op.Read? ==> results == Answer(old(Contents(table, cache)), op)
    {
      hide FromTable, Hits, RowsAfterAll, CachedAfterAll, ToRow, Normalise, AllAgree;
      ghost var before := Contents(table, cache);
      results := map[];
      match op
      case Write(e, n, r, redisUp) => UpdateNodeResult(e, n, r, redisUp);
      case WriteAndCache(e, n, r, deleteUp, writeUp) => CacheNodeResult(e, n, r, deleteUp, writeUp);
      case Read(e, nodeIds, readUp, updates, writeUp) =>
        results := GetNodeResults(e, nodeIds, readUp, updates, writeUp);
        hide RowsOf, CachedOf, Looks, ReadThrough;
        PerformedReads(before, Contents(table, cache), op);
      case Evict(e, n) => Evict(e, n);
    }

    /** So any client of an empty store gets the answers, and leaves the contents, of its sequence. */
    method PerformAll(ops: seq<Operation>) returns (answers: seq<map<Id, ExecutionResult>>)
      requires cacheEnabled && table == map[] && cache == map[]
      modifies `table, `cache
      ensures Looks(Contents(table, cache), After(ops))
      ensures |answers| == |ops|
      ensures forall i :: 0 <= i < |ops| && ops[i].Read? ==> answers[i] == Answer(After(ops[..i]), ops[i])
    {
      hide *;
      answers := [];
      EmptyLooks(ops);
      for i := 0 to |ops|
        invariant Looks(Contents(table, cache), After(ops[..i])) && |answers| == i
        invariant forall j :: 0 <= j < i && ops[j].Read? ==> answers[j] == Answer(After(ops[..j]), ops[j])
      {
        var answer := PerformNext(ops, i);
        answers := answers + [answer];
      }
      assert ops[..|ops|] == ops;
    }

    method PerformNext(ops: seq<Operation>, i: nat) returns (answer: map<Id, ExecutionResult>)
      requires cacheEnabled && i < |ops| && Looks(Contents(table, cache), After(ops[..i]))
      modifies `table, `cache
      ensures Looks(Contents(table, cache), After(ops[..i+1]))
      ensures ops[i].Read? ==> answer == Answer(After(ops[..i]), ops[i])
    {
      hide *;
      ghost var before := Contents(table, cache);
      SameLooks(before, After(ops[..i]), ops[i]);
      AfterNext(ops, i);
      answer := Perform(ops[i]);
      LooksAlike(Contents(table, cache), Performed(before, ops[i]), After(ops[..i+1]));
    }

    // --------------------------------------------------------------- status

    method CreateExecution(e: ExecutionId)
      requires e !in statuses
      modifies `statuses
      ensures statuses == old(statuses)[e := Running]
    {
      statuses := statuses[e := Running];
    }

    /** Only a running execution changes its status. */
    method SetExecutionStatus(e: ExecutionId, status: Status)
      modifies `statuses
      ensures e in old(statuses) ==> statuses == old(statuses)[e := Guarded(old(statuses)[e], status)]
      ensures e !in old(statuses) ==> statuses == old(statuses)
    {
      if e in statuses && statuses[e] == Running {
        statuses := statuses[e := status];
      }
    }

    method GetPendingNodeCount(e: ExecutionId, totalNodes: int) returns (pending: int)
      ensures pending == 0 <==> |RowsOf(table, e)| == totalNodes
    {
      pending := totalNodes - |RowsOf(table, e)|;
    }

    method HasFailedRow(e: ExecutionId) returns (failed: bool)
      ensures failed <==> AnyFailed(RowsOf(table, e))
    {
      var rows := RowsOf(table, e);
      var rest := rows.Keys;
      while rest != {}
        invariant rest <= rows.Keys
        invariant forall id :: id in rows && id !in rest ==> !FailedRow(rows[id])
        decreases |rest|
      {
        var id :| id in rest;
        if FailedRow(rows[id]) { return true; }
        rest := rest - {id};
      }
      return false;
    }

    /**
     * One transaction: the row, the count, and the status that all rows together stand for,
     * whatever the status was before. The cache is not told.
     */
    method UpdateNodeResultWithCompletion(e: ExecutionId, n: Id, r: ExecutionResult, totalNodes: int)
      returns (completed: bool, status: Status)
      requires e in statuses
      modifies `table, `statuses
      ensures table == Upserted(old(table), e, n, r)
      ensures completed <==> |RowsOf(table, e)| == totalNodes
      ensures status == StatusOf(RowsOf(table, e), totalNodes)
      ensures statuses == old(statuses)[e := StatusAfterRow(old(statuses)[e], RowsOf(table, e), totalNodes)]
      ensures old(Consistent()) ==>
        (Consistent() <==> n !in CachedOf(cache, e) || Normalise(CachedOf(cache, e)[n]) == Normalise(r))
    {
      if AllAgree(table, cache) {
        AgreementAfterUpdate(table, cache, e, n, r);
      }
      hide AllAgree, Normalise;
      Upsert(e, n, r);
      completed, status := CompleteIfAllDone(e, totalNodes);
    }

    method CompleteIfAllDone(e: ExecutionId, totalNodes: int) returns (completed: bool, status: Status)
      requires e in statuses
      modifies `statuses
      ensures completed <==> |RowsOf(table, e)| == totalNodes
      ensures status == StatusOf(RowsOf(table, e), totalNodes)
      ensures statuses == old(statuses)[e := StatusAfterRow(old(statuses)[e], RowsOf(table, e), totalNodes)]
    {
      completed, status := false, Running;
      var pendingCount := GetPendingNodeCount(e, totalNodes);
      if pendingCount == 0 {
        var failed := HasFailedRow(e);
        completed, status := true, if failed then Failed else Completed;
        statuses := statuses[e := status];
      }
    }
  }

  // -------------------------------------------- sequences of completions

  datatype Call = Call(node: Id, r: ExecutionResult)

  ghost function StatusAfterRow(before: Status, rows: map<Id, Row>, totalNodes: int): Status {
    if |rows| == totalNodes then StatusOf(rows, totalNodes) else before
  }

  function RowsAfter(calls: seq<Call>): map<Id, Row> {
    if calls == [] then map[]
    else RowsAfter(calls[..|calls|-1])[calls[|calls|-1].node := ToRow(calls[|calls|-1].r)]
  }

  /** The stored status after a sequence of calls on a new execution. */
  ghost function StatusAfter(calls: seq<Call>, totalNodes: int): Status {
    if calls == [] then Running
    else StatusAfterRow(StatusAfter(calls[..|calls|-1], totalNodes), RowsAfter(calls), totalNodes)
  }

  lemma {:induction false} RowsAreOwn(calls: seq<Call>, own: set<Id>)
    requires forall i :: 0 <= i < |calls| ==> calls[i].node in own
    ensures RowsAfter(calls).Keys <= own
  {
    if calls != [] {
      RowsAreOwn(calls[..|calls|-1], own);
    }
  }

  /** For calls on the workflow's own nodes, the stored status is a function of the rows. */
  lemma {:induction false} StatusIsFunctionOfRows(calls: seq<Call>, own: set<Id>)
    requires own != {} && forall i :: 0 <= i < |calls| ==> calls[i].node in own
    ensures StatusAfter(calls, |own|) == StatusOf(RowsAfter(calls), |own|)
  {
    if calls != [] {
      var before := calls[..|calls|-1];
      StatusIsFunctionOfRows(before, own);
      RowsAreOwn(before, own);
      RowsAreOwn(calls, own);
      var all, rows := RowsAfter(before).Keys, RowsAfter(calls).Keys;
      if |all| == |own| {
        SameSize(all, own);
      }
    }
  }

  /** The call is the last one for its node. */
  ghost predicate LastCall(calls: seq<Call>, i: int) {
    0 <= i < |calls| && forall j :: i < j < |calls| ==> calls[j].node != calls[i].node
  }

  /** A node's row is that of the last call for it. */
  lemma {:induction false} RowIsLastCall(calls: seq<Call>, i: int)
    requires LastCall(calls, i)
    ensures calls[i].node in RowsAfter(calls) && RowsAfter(calls)[calls[i].node] == ToRow(calls[i].r)
  {
    var before := calls[..|calls|-1];
    if i < |calls| - 1 {
      assert LastCall(before, i);
      RowIsLastCall(before, i);
    }
  }

  lemma {:induction false} LastCallFor(calls: seq<Call>, n: Id) returns (i: int)
    requires n in RowsAfter(calls)
    ensures LastCall(calls, i) && calls[i].node == n
  {
    var before, last := calls[..|calls|-1], calls[|calls|-1];
    if last.node == n {
      i := |calls| - 1;
    } else {
      i := LastCallFor(before, n);
    }
  }

  /**
   * Once every node of the workflow has had a call, the execution's status is failed exactly if the last
   * call for some node neither succeeded nor was skipped, and completed otherwise; before that
   * it is running.
   */
  lemma FinalStatus(calls: seq<Call>, own: set<Id>)
    requires own != {} && forall i :: 0 <= i < |calls| ==> calls[i].node in own
    ensures var all := forall n :: n in own ==> exists i :: 0 <= i < |calls| && calls[i].node == n;
      var anyFailed := exists i :: LastCall(calls, i) && !calls[i].r.success && !calls[i].r.skipped;
      StatusAfter(calls, |own|) == if !all then Running else if anyFailed then Failed else Completed
  {
    StatusIsFunctionOfRows(calls, own);
    RowsAreOwn(calls, own);
    var rows := RowsAfter(calls);
    AllHaveRows(calls, own);
    if |rows.Keys| == |own| {
      SameSize(rows.Keys, own);
    }
    SomeCallFailed(calls);
    hide RowsAfter;
  }

  lemma {:induction false} HasRow(calls: seq<Call>, n: Id)
    ensures n in RowsAfter(calls) <==> exists i :: 0 <= i < |calls| && calls[i].node == n
  {
    if calls != [] {
      var before := calls[..|calls|-1];
      HasRow(before, n);
      if i :| 0 <= i < |before| && before[i].node == n {
        assert calls[i].node == n;
      }
    }
  }

  lemma AllHaveRows(calls: seq<Call>, own: set<Id>)
    requires RowsAfter(calls).Keys <= own
    ensures RowsAfter(calls).Keys == own <==> forall n :: n in own ==> exists i :: 0 <= i < |calls| && calls[i].node == n
  {
    forall n ensures n in RowsAfter(calls) <==> exists i :: 0 <= i < |calls| && calls[i].node == n {
      HasRow(calls, n);
    }
    hide RowsAfter;
  }

  lemma SomeCallFailed(calls: seq<Call>)
    ensures AnyFailed(RowsAfter(calls)) <==> exists i :: LastCall(calls, i) && !calls[i].r.success && !calls[i].r.skipped
  {
    hide RowsAfter;
    var rows := RowsAfter(calls);
    if AnyFailed(rows) {
      var n :| n in rows && FailedRow(rows[n]);
      var i := LastCallFor(calls, n);
      RowIsLastCall(calls, i);
    }
    if i :| LastCall(calls, i) && !calls[i].r.success && !calls[i].r.skipped {
      RowIsLastCall(calls, i);
      assert FailedRow(rows[calls[i].node]);
    }
  }
}
