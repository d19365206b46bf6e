/** The in-memory store: expiry of finished executions, eviction of the least recently used, bounded logs. */
module InMemoryStore {
  import opened Graphs
  import opened Workflows
  import opened Scheduler

  type ExecutionId = string

  datatype ExecutionRecord = ExecutionRecord(
    workflowId: Id,
    status: Status,
    nodeResults: map<Id, ExecutionResult>,
    completedAt: Option<int>,
    parentExecutionId: Option<ExecutionId>,
    depth: int)

  /** An entry of the execution map; order is its place in the map's iteration order. */
  datatype Stamped = Stamped(value: ExecutionRecord, insertedAt: int, lastAccessedAt: int, order: nat)

  datatype LogEntry = LogEntry(message: string)

  datatype Span = Span(id: string, fields: map<string, Json>)

  /** Some of a span's properties, which may include its id. */
  datatype SpanUpdate = SpanUpdate(id: Option<string>, fields: map<string, Json>)

  /** Properties of the update replace those of the span. */
  function Merged(span: Span, update: SpanUpdate): (r: Span)
    ensures update.id.None? ==> r.id == span.id
    ensures update.id.Some? ==> r.id == update.id.value
    ensures forall p :: p in update.fields ==> p in r.fields && r.fields[p] == update.fields[p]
    ensures forall p :: p in span.fields && p !in update.fields ==> p in r.fields && r.fields[p] == span.fields[p]
  {
    Span(if update.id.Some? then update.id.value else span.id, span.fields + update.fields)
  }

  datatype Trace = Trace(workflowId: Id, spans: seq<Span>)

  datatype Config = Config(maxExecutions: int, maxLogsPerExecution: int, maxSpansPerExecution: int, completedExecutionTtl: int)

  const DEFAULT_CONFIG := Config(1000, 1000, 500, 60 * 60 * 1000)

  /** Limits for which taking the last so many elements means what it says. */
  predicate PositiveLimits(c: Config) {
    c.maxExecutions >= 1 && c.maxLogsPerExecution >= 1 && c.maxSpansPerExecution >= 1
  }

  /** The age of a terminal execution counts from its completion, or its last access if that is unset. */
  function AgeFrom(s: Stamped): int {
    if s.value.completedAt.Some? && s.value.completedAt.value != 0 then s.value.completedAt.value else s.lastAccessedAt
  }

  predicate Expired(s: Stamped, now: int, ttl: int) {
    Terminal(s.value.status) && now - AgeFrom(s) > ttl
  }

  /** The order of eviction: least recently accessed first, then first inserted. */
  predicate Older(a: Stamped, b: Stamped) {
    a.lastAccessedAt < b.lastAccessedAt || (a.lastAccessedAt == b.lastAccessedAt && a.order < b.order)
  }

  function LastN<T>(s: seq<T>, n: nat): seq<T> {
    if |s| <= n then s else s[|s| - n..]
  }

  lemma LastNKeeps<T>(s: seq<T>, n: nat)
    ensures |s| <= n ==> LastN(s, n) == s
    ensures |s| > n ==> |LastN(s, n)| == n && forall i :: 0 <= i < n ==> LastN(s, n)[i] == s[|s| - n + i]
  {
  }

  lemma LastNAppend<T>(s: seq<T>, n: nat, x: T)
    requires n >= 1
    ensures LastN(LastN(s, n) + [x], n) == LastN(s + [x], n)
  {
  }

  ghost predicate DistinctOrders(executions: map<ExecutionId, Stamped>) {
    forall a, b :: a in executions && b in executions && a != b ==> executions[a].order != executions[b].order
  }

  // -------------------------------------------------------------- sorting

  ghost predicate Sorted(m: map<ExecutionId, Stamped>, ids: seq<ExecutionId>) {
    && (forall i :: 0 <= i < |ids| ==> ids[i] in m)
    && (forall i, j :: 0 <= i < j < |ids| ==> Older(m[ids[i]], m[ids[j]]))
  }

  /** All keys, least recently accessed first; keys accessed at the same time in map order. */
  method SortByAccess(m: map<ExecutionId, Stamped>) returns (ids: seq<ExecutionId>)
    requires DistinctOrders(m)
    ensures Sorted(m, ids) && NoDup(ids)
    ensures forall id :: id in ids <==> id in m
    ensures |ids| == |m|
  {
    ids := [];
    var rest := m.Keys;
    while rest != {}
      invariant rest <= m.Keys && Sorted(m, ids)
      invariant forall id :: id in ids <==> id in m && id !in rest
      decreases rest
    {
      var id :| id in rest;
      rest := rest - {id};
      ids := Insert(m, ids, id);
    }
    SortedNoDup(m, ids);
    SameElements(ids, m.Keys);
  }

  method Insert(m: map<ExecutionId, Stamped>, ids: seq<ExecutionId>, id: ExecutionId) returns (r: seq<ExecutionId>)
    requires DistinctOrders(m) && Sorted(m, ids) && id in m && id !in ids
    ensures Sorted(m, r)
    ensures forall x :: x in r <==> x in ids || x == id
  {
    var i := 0;
    while i < |ids| && Older(m[ids[i]], m[id])
      invariant 0 <= i <= |ids|
      invariant forall j :: 0 <= j < i ==> Older(m[ids[j]], m[id])
    {
      i := i + 1;
    }
    r := ids[..i] + [id] + ids[i..];
    assert ids == ids[..i] + ids[i..];
  }

  lemma SortedNoDup(m: map<ExecutionId, Stamped>, ids: seq<ExecutionId>)
    requires Sorted(m, ids)
    ensures NoDup(ids)
  {
  }

  lemma {:induction false} SameElements<T>(ids: seq<T>, keys: set<T>)
    requires NoDup(ids) && forall x :: x in ids <==> x in keys
    ensures |ids| == |keys|
  {
    if ids == [] {
      assert keys == {};
    } else {
      var front, last := ids[..|ids|-1], ids[|ids|-1];
      assert ids == front + [last];
      forall x ensures x in front <==> x in keys - {last} {
        assert x in ids <==> x in front || x == last;
      }
      SameElements(front, keys - {last});
    }
  }

  // ------------------------------------------------------------- eviction

  function Unexpired(m: map<ExecutionId, Stamped>, now: int, ttl: int): set<ExecutionId> {
    set id | id in m && !Expired(m[id], now, ttl)
  }

  /**
   * What a cleanup removes: every expired execution, and of the others as many as exceed the
   * limit, each of them older than every execution that stays.
   */
  ghost predicate Evicts(m: map<ExecutionId, Stamped>, gone: set<ExecutionId>, now: int, c: Config) {
    var live := Unexpired(m, now, c.completedExecutionTtl);
    && m.Keys - live <= gone <= m.Keys
    && |m.Keys - gone| == (if |live| <= c.maxExecutions then |live| else c.maxExecutions)
    && (forall v, k :: v in gone && v in live && k in m && k !in gone ==> Older(m[v], m[k]))
  }

  /** A finished execution whose completion, or else last access, is longer ago than the time to live. */
  predicate PastTtl(s: Stamped, now: int, ttl: int) {
    && (s.value.status == Completed || s.value.status == Failed || s.value.status == Cancelled)
    && now - (match s.value.completedAt case None => s.lastAccessedAt case Some(t) => if t != 0 then t else s.lastAccessedAt) > ttl
  }

  /**
   * In the terms of the clock: what is past its time to live goes; of the rest, what goes was
   * last accessed no later than anything that stays, and was first in the map if at the same
   * time; and nothing of the rest goes as long as the limit allows.
   */
  lemma EvictionMeans(m: map<ExecutionId, Stamped>, gone: set<ExecutionId>, now: int, c: Config)
    requires Evicts(m, gone, now, c) && c.maxExecutions >= 1
    ensures forall id :: id in m && PastTtl(m[id], now, c.completedExecutionTtl) ==> id in gone
    ensures forall v, k :: v in gone && !PastTtl(m[v], now, c.completedExecutionTtl) && k in m && k !in gone ==>
      m[v].lastAccessedAt <= m[k].lastAccessedAt && (m[v].lastAccessedAt == m[k].lastAccessedAt ==> m[v].order < m[k].order)
    ensures |m.Keys - gone| <= c.maxExecutions
    ensures (exists v :: v in gone && !PastTtl(m[v], now, c.completedExecutionTtl)) ==> |m.Keys - gone| == c.maxExecutions
  {
    var live := Unexpired(m, now, c.completedExecutionTtl);
    forall id | id in m ensures PastTtl(m[id], now, c.completedExecutionTtl) <==> id !in live {
    }
    if v :| v in gone && !PastTtl(m[v], now, c.completedExecutionTtl) {
      SubsetSize(m.Keys - gone, live - {v});
    }
  }

  /** The newest unexpired execution is never evicted. */
  lemma NewestStays(m: map<ExecutionId, Stamped>, gone: set<ExecutionId>, now: int, c: Config, id: ExecutionId)
    requires Evicts(m, gone, now, c) && c.maxExecutions >= 1
    requires id in m && !Expired(m[id], now, c.completedExecutionTtl)
    requires forall k :: k in m && k != id ==> Older(m[k], m[id])
    ensures id !in gone
  {
    assert id in Unexpired(m, now, c.completedExecutionTtl);
    assert |m.Keys - gone| >= 1;
    var k :| k in m.Keys - gone;
    assert k != id ==> !Older(m[id], m[k]);
  }

  lemma SwappedElement<T>(all: set<T>, a: set<T>, b: set<T>, x: T) returns (y: T)
    requires a <= all && b <= all && |all - a| == |all - b| && x in a && x !in b
    ensures y in b && y !in a
  {
    assert x in all - b && x !in all - a;
    if b <= a {
      SameSize(all - a, all - b);
    }
    y :| y in b && y !in a;
  }

  lemma EvictsNoMore(m: map<ExecutionId, Stamped>, a: set<ExecutionId>, b: set<ExecutionId>, now: int, c: Config)
    requires Evicts(m, a, now, c) && Evicts(m, b, now, c)
    ensures a <= b
  {
    forall x | x in a ensures x in b {
      if x !in b {
        var y := SwappedElement(m.Keys, a, b, x);
      }
    }
  }

  /** What a cleanup removes is determined. */
  lemma EvictionIsDetermined(m: map<ExecutionId, Stamped>, a: set<ExecutionId>, b: set<ExecutionId>, now: int, c: Config)
    requires Evicts(m, a, now, c) && Evicts(m, b, now, c)
    ensures a == b
  {
    EvictsNoMore(m, a, b, now, c);
    EvictsNoMore(m, b, a, now, c);
  }

  datatype Contents = Contents(
    executions: map<ExecutionId, Stamped>,
    logs: map<ExecutionId, seq<LogEntry>>,
    traces: map<ExecutionId, Trace>,
    logged: map<ExecutionId, seq<LogEntry>>)

  function Minus(c: Contents, gone: set<ExecutionId>): (r: Contents)
    ensures r.executions == c.executions - gone
    ensures forall id :: id in r.logs <==> id in c.logs && id !in gone
    ensures forall id :: id in r.traces <==> id in c.traces && id !in gone
    ensures (forall id :: id in r.logs ==> r.logs[id] == c.logs[id]) && forall id :: id in r.traces ==> r.traces[id] == c.traces[id]
  {
    Contents(c.executions - gone, c.logs - gone, c.traces - gone, c.logged - gone)
  }

  lemma MinusMinus(c: Contents, a: set<ExecutionId>, b: set<ExecutionId>)
    ensures Minus(Minus(c, a), b) == Minus(c, a + b) && Minus(c, {}) == c
  {
  }

  /** What holds of the maps between any two calls. */
  ghost predicate Fits(c: Contents, config: Config, now: int, inserted: nat) {
    && config.maxLogsPerExecution >= 1
    && (forall id :: id in c.executions ==> c.executions[id].order < inserted && c.executions[id].lastAccessedAt <= now)
    && DistinctOrders(c.executions)
    && c.traces.Keys <= c.executions.Keys
    && (forall id :: id in c.traces ==> |c.traces[id].spans| <= config.maxSpansPerExecution)
    && c.logged.Keys == c.logs.Keys
    && (forall id :: id in c.logs ==> c.logs[id] == LastN(c.logged[id], config.maxLogsPerExecution))
  }

  lemma FitsOrders(c: Contents, config: Config, now: int, inserted: nat)
    requires Fits(c, config, now, inserted)
    ensures DistinctOrders(c.executions)
  {
  }

  lemma FitsNew(c: Contents, id: ExecutionId, s: Stamped, config: Config, now: int, inserted: nat)
    requires Fits(c, config, now, inserted) && id !in c.executions && s.order == inserted && s.lastAccessedAt == now
    ensures Fits(c.(executions := c.executions[id := s]), config, now, inserted + 1)
    ensures forall k :: k in c.executions ==> Older(c.executions[k], s)
  {
  }

  lemma MinusKeeps(c: Contents, gone: set<ExecutionId>, id: ExecutionId)
    requires id in c.executions && id !in gone
    ensures id in Minus(c, gone).executions && Minus(c, gone).executions[id] == c.executions[id]
  {
  }

  lemma FitsMinus(c: Contents, gone: set<ExecutionId>, config: Config, now: int, inserted: nat)
    requires Fits(c, config, now, inserted)
    ensures Fits(Minus(c, gone), config, now, inserted)
  {
  }

  function TrimmedLogs(logs: map<ExecutionId, seq<LogEntry>>, max: nat): map<ExecutionId, seq<LogEntry>> {
    map id | id in logs :: LastN(logs[id], max)
  }

  function TrimmedSpans(traces: map<ExecutionId, Trace>, max: nat): map<ExecutionId, Trace> {
    map id | id in traces :: traces[id].(spans := LastN(traces[id].spans, max))
  }

  /** Some entries are still as they were before. */
  ghost function Partly<V>(before: map<ExecutionId, V>, after: map<ExecutionId, V>, rest: set<ExecutionId>): map<ExecutionId, V>
    requires before.Keys == after.Keys
  {
    map id | id in before :: if id in rest then before[id] else after[id]
  }

  lemma PartlyEnds<V>(before: map<ExecutionId, V>, after: map<ExecutionId, V>)
    requires before.Keys == after.Keys
    ensures Partly(before, after, before.Keys) == before && Partly(before, after, {}) == after
  {
  }

  lemma PartlyNext<V>(before: map<ExecutionId, V>, after: map<ExecutionId, V>, rest: set<ExecutionId>, id: ExecutionId)
    requires before.Keys == after.Keys && id in rest && rest <= before.Keys
    ensures Partly(before, after, rest - {id}) == Partly(before, after, rest)[id := after[id]]
    ensures id in Partly(before, after, rest) && Partly(before, after, rest)[id] == before[id]
  {
  }

  lemma NothingToTrim(c: Contents, config: Config, now: int, inserted: nat)
    requires Fits(c, config, now, inserted) && PositiveLimits(config)
    ensures TrimmedLogs(c.logs, config.maxLogsPerExecution) == c.logs
    ensures TrimmedSpans(c.traces, config.maxSpansPerExecution) == c.traces
  {
  }

  /** The entries beyond the limit, each older than all that stay. */
  ghost predicate OldestBeyond(m: map<ExecutionId, Stamped>, gone: set<ExecutionId>, max: int) {
    && gone <= m.Keys
    && |m - gone| == (if |m| <= max then |m| else max)
    && forall v, k :: v in gone && k in m && k !in gone ==> Older(m[v], m[k])
  }

  /** Expiry and then eviction remove together what a cleanup removes. */
  lemma EvictsBoth(m: map<ExecutionId, Stamped>, expired: set<ExecutionId>, oldest: set<ExecutionId>, now: int, c: Config)
    requires expired == m.Keys - Unexpired(m, now, c.completedExecutionTtl)
    requires OldestBeyond(m - expired, oldest, c.maxExecutions)
    ensures Evicts(m, expired + oldest, now, c) && |m - (expired + oldest)| <= c.maxExecutions
  {
    var live, mid := Unexpired(m, now, c.completedExecutionTtl), m - expired;
    assert mid.Keys == live && |mid| == |live|;
    assert (mid - oldest).Keys == m.Keys - (expired + oldest) && |mid - oldest| == |m.Keys - (expired + oldest)|;
    assert (m - (expired + oldest)).Keys == m.Keys - (expired + oldest);
    forall v, k | v in expired + oldest && v in live && k in m && k !in expired + oldest ensures Older(m[v], m[k]) {
      assert v in oldest && k in mid && Older(mid[v], mid[k]);
    }
    hide Older, Unexpired, Expired;
  }

  class Store {
    const config: Config
    var now: int
    var executions: map<ExecutionId, Stamped>
    var logs: map<ExecutionId, seq<LogEntry>>
    var traces: map<ExecutionId, Trace>
    var inserted: nat
    /** All logs added since the list was created. */
    ghost var logged: map<ExecutionId, seq<LogEntry>>

    constructor (config: Config := DEFAULT_CONFIG)
      requires PositiveLimits(config)
      ensures Valid() && this.config == config && executions == map[] && logs == map[] && traces == map[]
    {
      this.config := config;
      now, inserted := 0, 0;
      executions, logs, traces, logged := map[], map[], map[], map[];
    }

    ghost function Current(): Contents
      reads this
    {
      Contents(executions, logs, traces, logged)
    }

    ghost predicate Consistent()
      reads this
    {
      PositiveLimits(config) && Fits(Current(), config, now, inserted)
    }

    ghost predicate Valid()
      reads this
    {
      Consistent() && |executions| <= config.maxExecutions
    }

    /** The clock only goes forward. */
    method Tick(dt: nat)
      requires Valid()
      modifies `now
      ensures Valid() && now == old(now) + dt
    {
      now := now + dt;
    }

    method Remove(id: ExecutionId, ghost was: Contents, ghost gone: set<ExecutionId>)
      requires Current() == Minus(was, gone)
      modifies `executions, `logs, `traces, `logged
      ensures Current() == Minus(was, gone + {id})
    {
      MinusMinus(was, gone, {id});
      executions, logs, traces, logged := executions - {id}, logs - {id}, traces - {id}, logged - {id};
    }

    method RemoveExpired() returns (ghost gone: set<ExecutionId>)
      modifies `executions, `logs, `traces, `logged
      ensures gone == old(executions).Keys - Unexpired(old(executions), now, config.completedExecutionTtl)
      ensures Current() == Minus(old(Current()), gone)
    {
      gone := {};
      ghost var was := Current();
      var before, rest := executions, executions.Keys;
      while rest != {}
        invariant rest <= before.Keys
        invariant gone == set id | id in before && id !in rest && Expired(before[id], now, config.completedExecutionTtl)
        invariant Current() == Minus(was, gone)
        decreases rest
      {
        hide Minus;
        var id :| id in rest;
        rest := rest - {id};
        if Expired(before[id], now, config.completedExecutionTtl) {
          Remove(id, was, gone);
          gone := gone + {id};
        }
      }
    }

    method RemoveOldest() returns (ghost gone: set<ExecutionId>)
      requires DistinctOrders(executions) && config.maxExecutions >= 0
      modifies `executions, `logs, `traces, `logged
      ensures Current() == Minus(old(Current()), gone)
      ensures OldestBeyond(old(executions), gone, config.maxExecutions)
    {
      gone := {};
      ghost var before := executions;
      hide OldestBeyond, Minus, FirstOf, Sorted, DistinctOrders, NoDup;
      MinusMinus(Current(), {}, {});
      if |executions| > config.maxExecutions {
        var entries := SortByAccess(executions);
        var toRemove := |executions| - config.maxExecutions;
        gone := RemoveFirst(entries, toRemove);
        FirstAreOldest(before, entries, toRemove, gone, config.maxExecutions);
      } else {
        NoneBeyond(before, config.maxExecutions);
      }
    }

    method RemoveFirst(entries: seq<ExecutionId>, toRemove: int) returns (ghost gone: set<ExecutionId>)
      requires NoDup(entries) && 0 <= toRemove <= |entries|
      modifies `executions, `logs, `traces, `logged
      ensures Current() == Minus(old(Current()), gone) && FirstOf(entries, toRemove, gone)
    {
      hide *;
      gone := {};
      ghost var was := Current();
      MinusMinus(was, {}, {});
      NoneYet(entries);
      for i := 0 to toRemove
        invariant FirstOf(entries, i, gone) && Current() == Minus(was, gone)
      {
        NextIsNew(entries, i, gone);
        Remove(entries[i], was, gone);
        gone := gone + {entries[i]};
      }
    }

    method TrimLogs()
      requires config.maxLogsPerExecution >= 1
      modifies `logs
      ensures logs == TrimmedLogs(old(logs), config.maxLogsPerExecution)
    {
      var before, rest := logs, logs.Keys;
      ghost var trimmed := TrimmedLogs(before, config.maxLogsPerExecution);
      PartlyEnds(before, trimmed);
      while rest != {}
        invariant rest <= before.Keys && logs == Partly(before, trimmed, rest)
        decreases rest
      {
        hide LastN, Partly;
        var id :| id in rest;
        PartlyNext(before, trimmed, rest, id);
        rest := rest - {id};
        TrimLog(id);
      }
    }

    method TrimLog(id: ExecutionId)
      requires config.maxLogsPerExecution >= 1 && id in logs
      modifies `logs
      ensures logs == old(logs)[id := LastN(old(logs)[id], config.maxLogsPerExecution)]
    {
      if |logs[id]| > config.maxLogsPerExecution {
        logs := logs[id := logs[id][|logs[id]| - config.maxLogsPerExecution..]];
      } else {
        assert logs == logs[id := logs[id]];
      }
    }

    method TrimSpans()
      requires config.maxSpansPerExecution >= 1
      modifies `traces
      ensures traces == TrimmedSpans(old(traces), config.maxSpansPerExecution)
    {
      var before, rest := traces, traces.Keys;
      ghost var trimmed := TrimmedSpans(before, config.maxSpansPerExecution);
      PartlyEnds(before, trimmed);
      while rest != {}
        invariant rest <= before.Keys && traces == Partly(before, trimmed, rest)
        decreases rest
      {
        hide LastN, Partly;
        var id :| id in rest;
        PartlyNext(before, trimmed, rest, id);
        rest := rest - {id};
        TrimSpan(id);
      }
    }

    method TrimSpan(id: ExecutionId)
      requires config.maxSpansPerExecution >= 1 && id in traces
      modifies `traces
      ensures traces == old(traces)[id := old(traces)[id].(spans := LastN(old(traces)[id].spans, config.maxSpansPerExecution))]
    {
      var spans, max := traces[id].spans, config.maxSpansPerExecution;
      if |spans| > max {
        traces := traces[id := traces[id].(spans := spans[|spans| - max..])];
      } else {
        assert traces == traces[id := traces[id].(spans := spans)];
      }
    }

    /** Expired executions go, then the least recently used beyond the limit; logs and spans with them. */
    method Cleanup() returns (ghost gone: set<ExecutionId>)
      requires Consistent()
      modifies `executions, `logs, `traces, `logged
      ensures Valid()
      ensures Evicts(old(executions), gone, now, config) && Current() == Minus(old(Current()), gone)
    {
      hide Fits, Minus, Evicts, TrimmedLogs, TrimmedSpans, OldestBeyond, DistinctOrders, Unexpired;
      ghost var was := Current();
      FitsOrders(was, config, now, inserted);
      ghost var expired := RemoveExpired();
      FitsMinus(was, expired, config, now, inserted);
      FitsOrders(Minus(was, expired), config, now, inserted);
      ghost var oldest := RemoveOldest();
      gone := expired + oldest;
      MinusMinus(was, expired, oldest);
      ghost var kept := Current();
      EvictsBoth(was.executions, expired, oldest, now, config);
      FitsMinus(was, gone, config, now, inserted);
      NothingToTrim(kept, config, now, inserted);
      TrimLogs();
      TrimSpans();
      assert Current() == kept;
    }

    // -------------------------------------------------------- executions

    /** A new execution is kept by the cleanup that its creation may trigger. */
    method CreateExecution(id: ExecutionId, workflowId: Id, parentExecutionId: Option<ExecutionId>, depth: int)
      returns (ghost gone: set<ExecutionId>)
      requires Valid() && id !in executions
      modifies `executions, `logs, `traces, `logged, `inserted
      ensures Valid()
      ensures var created := Stamped(ExecutionRecord(workflowId, Running, map[], None, parentExecutionId, depth), now, now, old(inserted));
        var all := old(executions)[id := created];
        && Current() == Minus(old(Current()).(executions := all), gone)
        && id in executions && executions[id] == created
        && (if |all| * 10 > config.maxExecutions * 9 then Evicts(all, gone, now, config) else gone == {})
    {
      hide Fits, Minus, Evicts, Older;
      var execution := ExecutionRecord(workflowId, Running, map[], None, parentExecutionId, depth);
      gone := {};
      AddExecution(id, execution);
      ghost var all := Current();
      MinusMinus(all, {}, {});
      if |executions| * 10 > config.maxExecutions * 9 {
        gone := Cleanup();
        NewestStays(all.executions, gone, now, config, id);
        MinusKeeps(all, gone, id);
      }
    }

    method AddExecution(id: ExecutionId, execution: ExecutionRecord)
      requires Valid() && id !in executions
      modifies `executions, `inserted
      ensures Consistent() && Current() == old(Current()).(executions := old(executions)[id := Stamped(execution, now, now, old(inserted))])
      ensures forall k :: k in old(executions) ==> Older(executions[k], executions[id])
    {
      hide Fits, Older;
      FitsNew(Current(), id, Stamped(execution, now, now, inserted), config, now, inserted);
      executions := executions[id := Stamped(execution, now, now, inserted)];
      inserted := inserted + 1;
    }

    /** Replaces an execution's record and counts as an access; without the execution, nothing happens. */
    method Update(id: ExecutionId, value: ExecutionRecord)
      requires Valid() && id in executions
      modifies `executions
      ensures Valid() && executions == Accessed(old(executions), id, value, now)
    {
      FitsAccess(Current(), id, value, config, now, inserted);
      hide Fits;
      ghost var before := executions;
      executions := executions[id := executions[id].(value := value, lastAccessedAt := now)];
      assert executions.Keys == before.Keys;
    }

    method UpdateNodeResult(id: ExecutionId, nodeId: Id, result: ExecutionResult)
      requires Valid()
      modifies `executions
      ensures Valid()
      ensures id !in old(executions) ==> executions == old(executions)
      ensures id in old(executions) ==> var was := old(executions)[id].value;
        executions == Accessed(old(executions), id, was.(nodeResults := was.nodeResults[nodeId := result]), now)
    {
      hide Fits, Accessed;
      if id in executions {
        var value := executions[id].value;
        Update(id, value.(nodeResults := value.nodeResults[nodeId := result]));
      }
    }

    /** Unlike the database store, any status replaces any other. */
    method SetExecutionStatus(id: ExecutionId, status: Status)
      requires Valid()
      modifies `executions
      ensures Valid()
      ensures id !in old(executions) ==> executions == old(executions)
      ensures id in old(executions) ==> var was := old(executions)[id].value;
        executions == Accessed(old(executions), id,
          was.(status := status, completedAt := if Terminal(status) then Some(now) else was.completedAt), now)
    {
      hide Fits, Accessed;
      if id in executions {
        var value := executions[id].value.(status := status);
        if Terminal(status) {
          value := value.(completedAt := Some(now));
        }
        Update(id, value);
      }
    }

    method GetNodeResults(id: ExecutionId, nodeIds: seq<Id>) returns (results: map<Id, ExecutionResult>)
      requires Valid()
      modifies `executions
      ensures Valid()
      ensures id !in old(executions) ==> executions == old(executions) && results == map[]
      ensures id in old(executions) ==> var was := old(executions)[id].value;
        && executions == Accessed(old(executions), id, was, now)
        && results == map n | n in nodeIds && n in was.nodeResults :: was.nodeResults[n]
    {
      hide Fits, Accessed;
      results := map[];
      if id !in executions { return; }
      var nodeResults := executions[id].value.nodeResults;
      Update(id, executions[id].value);
      for i := 0 to |nodeIds|
        invariant forall n :: n in results <==> n in nodeResults && exists j :: 0 <= j < i && nodeIds[j] == n
        invariant forall n :: n in results ==> results[n] == nodeResults[n]
      {
        if nodeIds[i] in nodeResults {
          results := results[nodeIds[i] := nodeResults[nodeIds[i]]];
        }
      }
    }

    method GetPendingNodeCount(id: ExecutionId, totalNodes: int) returns (pending: int)
      requires Valid()
      modifies `executions
      ensures Valid()
      ensures id !in old(executions) ==> pending == totalNodes && executions == old(executions)
      ensures id in old(executions) ==> pending == totalNodes - |old(executions)[id].value.nodeResults|
      ensures id in old(executions) ==> executions == Accessed(old(executions), id, old(executions)[id].value, now)
    {
      hide Fits, Accessed;
      if id !in executions { return totalNodes; }
      pending := totalNodes - |executions[id].value.nodeResults|;
      Update(id, executions[id].value);
    }

    // ------------------------------------------------------- logs and spans

    /** Each list is the last of all logs added since it was created. */
    method AddLog(id: ExecutionId, log: LogEntry)
      requires Valid()
      modifies `logs, `logged
      ensures Valid()
      ensures var all := (if id in old(logged) then old(logged)[id] else []) + [log];
        logs == old(logs)[id := LastN(all, config.maxLogsPerExecution)] && logged == old(logged)[id := all]
    {
      LogAppended(Current(), id, log, config, now, inserted);
      LogsAreKnown(Current(), id, config, now, inserted);
      hide Fits;
      if id in logs {
        var appended := logs[id] + [log];
        if |appended| > config.maxLogsPerExecution {
          appended := appended[|appended| - config.maxLogsPerExecution..];
        }
        logs := logs[id := appended];
      } else {
        logs := logs[id := [log]];
      }
      logged := logged[id := (if id in logged then logged[id] else []) + [log]];
    }

    /** Fails without the execution, so a trace never outlives it. */
    method AddSpan(id: ExecutionId, span: Span) returns (added: bool)
      requires Valid()
      modifies `traces
      ensures Valid() && (added <==> id in executions)
      ensures !added ==> traces == old(traces)
      ensures added ==> traces == old(traces)[id :=
        if id in old(traces) then old(traces)[id].(spans := LastN(old(traces)[id].spans + [span], config.maxSpansPerExecution))
        else Trace(executions[id].value.workflowId, [span])]
    {
      added := id in executions;
      if !added { return; }
      if id in traces {
        var spans := traces[id].spans + [span];
        if |spans| > config.maxSpansPerExecution {
          spans := spans[|spans| - config.maxSpansPerExecution..];
        }
        traces := traces[id := traces[id].(spans := spans)];
      } else {
        traces := traces[id := Trace(executions[id].value.workflowId, [span])];
      }
    }

    /** Merges the update into the first span with the id, and changes nothing else. */
    method UpdateSpan(id: ExecutionId, spanId: string, update: SpanUpdate) returns (ghost index: int)
      requires Valid()
      modifies `traces
      ensures Valid()
      ensures index == -1 ==> traces == old(traces)
      ensures index == -1 && id in traces ==> forall i :: 0 <= i < |traces[id].spans| ==> traces[id].spans[i].id != spanId
      ensures index != -1 ==> id in old(traces) && var spans := old(traces)[id].spans;
        && 0 <= index < |spans| && spans[index].id == spanId && (forall i :: 0 <= i < index ==> spans[i].id != spanId)
        && traces == old(traces)[id := old(traces)[id].(spans := spans[index := Merged(spans[index], update)])]
    {
      index := -1;
      if id !in traces { return; }
      var spans := traces[id].spans;
      var spanIndex := 0;
      while spanIndex < |spans| && spans[spanIndex].id != spanId
        invariant 0 <= spanIndex <= |spans|
        invariant forall i :: 0 <= i < spanIndex ==> spans[i].id != spanId
      {
        spanIndex := spanIndex + 1;
      }
      if spanIndex < |spans| {
        index := spanIndex;
        traces := traces[id := traces[id].(spans := spans[spanIndex := Merged(spans[spanIndex], update)])];
      }
    }
  }

  function Accessed(m: map<ExecutionId, Stamped>, id: ExecutionId, value: ExecutionRecord, now: int): (r: map<ExecutionId, Stamped>)
    requires id in m
    ensures r.Keys == m.Keys && forall k :: k in m && k != id ==> r[k] == m[k]
    ensures r[id].value == value && r[id].lastAccessedAt == now && r[id].order == m[id].order
  {
    m[id := m[id].(value := value, lastAccessedAt := now)]
  }

  /** Recency protects: an execution used now is evicted only after all that were last used before. */
  lemma AccessProtects(m: map<ExecutionId, Stamped>, id: ExecutionId, now: int, gone: set<ExecutionId>, later: int, c: Config)
    requires id in m && c.maxExecutions >= 1
    requires var used := Accessed(m, id, m[id].value, now);
      Evicts(used, gone, later, c) && !PastTtl(used[id], later, c.completedExecutionTtl)
    requires id in gone
    ensures forall k :: k in m && m[k].lastAccessedAt < now ==> k in gone
  {
    var used := Accessed(m, id, m[id].value, now);
    EvictionMeans(used, gone, later, c);
    hide Evicts, Accessed, PastTtl;
    forall k | k in m && m[k].lastAccessedAt < now ensures k in gone {
      assert k != id ==> used[k] == m[k];
    }
  }

  lemma FitsAccess(c: Contents, id: ExecutionId, value: ExecutionRecord, config: Config, now: int, inserted: nat)
    requires Fits(c, config, now, inserted) && id in c.executions
    ensures Fits(c.(executions := Accessed(c.executions, id, value, now)), config, now, inserted)
  {
  }

  lemma LogAppended(c: Contents, id: ExecutionId, log: LogEntry, config: Config, now: int, inserted: nat)
    requires Fits(c, config, now, inserted) && PositiveLimits(config)
    ensures var all := (if id in c.logged then c.logged[id] else []) + [log];
      Fits(c.(logs := c.logs[id := LastN(all, config.maxLogsPerExecution)], logged := c.logged[id := all]), config, now, inserted)
    ensures var max := config.maxLogsPerExecution;
      id in c.logged ==> id in c.logs && LastN(c.logs[id] + [log], max) == LastN(c.logged[id] + [log], max)
  {
    if id in c.logged {
      LastNAppend(c.logged[id], config.maxLogsPerExecution, log);
    }
  }

  lemma LogsAreKnown(c: Contents, id: ExecutionId, config: Config, now: int, inserted: nat)
    requires Fits(c, config, now, inserted)
    ensures id in c.logs <==> id in c.logged
    ensures config.maxLogsPerExecution >= 1
  {
  }

  ghost predicate FirstOf(ids: seq<ExecutionId>, n: int, gone: set<ExecutionId>) {
    0 <= n <= |ids| && |gone| == n && forall x :: x in gone <==> exists j :: 0 <= j < n && ids[j] == x
  }

  lemma NoneYet(ids: seq<ExecutionId>)
    ensures FirstOf(ids, 0, {})
  {
  }

  lemma NextIsNew(ids: seq<ExecutionId>, n: int, gone: set<ExecutionId>)
    requires FirstOf(ids, n, gone) && n < |ids| && NoDup(ids)
    ensures ids[n] !in gone && FirstOf(ids, n + 1, gone + {ids[n]})
  {
  }

  lemma FirstAreOldest(m: map<ExecutionId, Stamped>, ids: seq<ExecutionId>, n: int, gone: set<ExecutionId>, max: int)
    requires Sorted(m, ids) && FirstOf(ids, n, gone) && forall id :: id in ids <==> id in m
    requires n == |m| - max && max >= 0
    ensures OldestBeyond(m, gone, max)
  {
    forall v, k | v in gone && k in m && k !in gone ensures Older(m[v], m[k]) {
      var i :| 0 <= i < n && ids[i] == v;
      var j :| 0 <= j < |ids| && ids[j] == k;
    }
    assert (m - gone).Keys == m.Keys - gone;
  }

  lemma NoneBeyond(m: map<ExecutionId, Stamped>, max: int)
    requires |m| <= max
    ensures OldestBeyond(m, {}, max)
  {
    assert m - {} == m;
  }
}
