/** The strings that identify jobs in the queue, and when two jobs share one. */
module JobIds {
  import opened Graphs

  const NODE_MARK := "-node-"
  const RESUMED_MARK := "-delay-resumed"
  const MANUAL_MARK := "-manual-"

  /** The id of a released child, or of a delay node's resume job. */
  function GenerateNodeJobId(executionId: string, nodeId: Id, resumed: bool): string {
    if resumed then executionId + NODE_MARK + nodeId + RESUMED_MARK else executionId + NODE_MARK + nodeId
  }

  /** The id of a job that the engine enqueues itself; the timestamp is given in digits. */
  function ManualJobId(executionId: string, nodeId: Id, timestamp: string): string {
    executionId + "-" + nodeId + MANUAL_MARK + timestamp
  }

  lemma IdFormats(e: string, n: Id, timestamp: string)
    ensures GenerateNodeJobId(e, n, false) == e + "-node-" + n
    ensures GenerateNodeJobId(e, n, true) == e + "-node-" + n + "-delay-resumed"
    ensures ManualJobId(e, n, timestamp) == e + "-" + n + "-manual-" + timestamp
  {
  }

  /** Execution ids are made of an underscore-separated prefix, time and random part. */
  predicate DashFree(s: string) {
    '-' !in s
  }

  /** What comes before the first dash, and what comes after it, are determined. */
  lemma FirstDash(a: string, b: string, x: string, y: string)
    requires DashFree(a) && DashFree(b)
    ensures a + "-" + x == b + "-" + y <==> a == b && x == y
  {
    DashAt(a, x);
    DashAt(b, y);
    if a + "-" + x == b + "-" + y {
      assert |a| == |b|;
      assert (a + "-" + x)[..|a|] == a && (b + "-" + y)[..|b|] == b;
      assert (a + "-" + x)[|a|+1..] == x && (b + "-" + y)[|b|+1..] == y;
    }
  }

  lemma DashAt(a: string, x: string)
    requires DashFree(a)
    ensures |a + "-" + x| > |a| && (a + "-" + x)[|a|] == '-'
    ensures forall i :: 0 <= i < |a| ==> (a + "-" + x)[i] != '-'
  {
    forall i | 0 <= i < |a| ensures (a + "-" + x)[i] != '-' {
      assert (a + "-" + x)[i] == a[i];
    }
  }

  lemma SplitJobId(executionId: string, nodeId: Id, resumed: bool)
    ensures GenerateNodeJobId(executionId, nodeId, resumed)
         == executionId + "-" + ("node-" + (if resumed then nodeId + RESUMED_MARK else nodeId))
  {
    assert NODE_MARK == "-" + "node-";
    var tail := if resumed then nodeId + RESUMED_MARK else nodeId;
    assert GenerateNodeJobId(executionId, nodeId, resumed) == executionId + NODE_MARK + tail;
    assert executionId + ("-" + "node-") + tail == executionId + "-" + ("node-" + tail);
  }

  lemma SameAfterMark(mark: string, x: string, y: string)
    ensures mark + x == mark + y <==> x == y
    ensures x + mark == y + mark <==> x == y
  {
    assert (mark + x)[|mark|..] == x && (mark + y)[|mark|..] == y;
    assert (x + mark)[..|x|] == x && (y + mark)[..|y|] == y;
  }

  /**
   * Two jobs share an id exactly if they are the same job, or one is the resume job of a node
   * and the other the job of a node whose id is that id with the resume mark appended.
   */
  lemma SharedJobId(e: string, n: Id, resumed: bool, e': string, n': Id, resumed': bool)
    requires DashFree(e) && DashFree(e')
    ensures GenerateNodeJobId(e, n, resumed) == GenerateNodeJobId(e', n', resumed') <==>
      e == e' &&
      if resumed == resumed' then n == n'
      else if resumed then n' == n + RESUMED_MARK
      else n == n' + RESUMED_MARK
  {
    var tail := if resumed then n + RESUMED_MARK else n;
    var tail' := if resumed' then n' + RESUMED_MARK else n';
    SplitJobId(e, n, resumed);
    SplitJobId(e', n', resumed');
    FirstDash(e, e', "node-" + tail, "node-" + tail');
    SameAfterMark("node-", tail, tail');
    SameAfterMark(RESUMED_MARK, n, n');
  }

  predicate EndsWith(s: string, suffix: string) {
    |suffix| <= |s| && s[|s| - |suffix|..] == suffix
  }

  /** Node ids that do not end in the resume mark make job ids injective. */
  lemma JobIdsAreInjective(e: string, n: Id, resumed: bool, e': string, n': Id, resumed': bool)
    requires DashFree(e) && DashFree(e') && !EndsWith(n, RESUMED_MARK) && !EndsWith(n', RESUMED_MARK)
    requires GenerateNodeJobId(e, n, resumed) == GenerateNodeJobId(e', n', resumed')
    ensures e == e' && n == n' && resumed == resumed'
  {
    SharedJobId(e, n, resumed, e', n', resumed');
    assert EndsWith(n + RESUMED_MARK, RESUMED_MARK) && EndsWith(n' + RESUMED_MARK, RESUMED_MARK);
  }

  // -------------------------------------------------- engine-enqueued jobs

  predicate IsDigits(s: string) {
    s != "" && forall i :: 0 <= i < |s| ==> '0' <= s[i] <= '9'
  }

  /** The node ids of an entry and of a child that can share a job id, for this timestamp. */
  predicate ManualTwins(n: Id, timestamp: string, child: Id) {
    || (n == "node" && child == "manual-" + timestamp)
    || ("node-" <= n && child == n[|"node-"|..] + MANUAL_MARK + timestamp)
  }

  lemma ManualTail(n: Id, timestamp: string, tail: string)
    ensures n + MANUAL_MARK + timestamp == "node-" + tail <==> ManualTwins(n, timestamp, tail)
  {
    var s, t := n + MANUAL_MARK + timestamp, "node-" + tail;
    assert s[|n|] == '-' && s[..|n|] == n && t[..5] == "node-" && t[5..] == tail;
    if |n| >= 5 {
      assert s[..5] == n[..5] && s[5..] == n[5..] + MANUAL_MARK + timestamp;
      assert "node-" <= n <==> n[..5] == "node-";
      assert s == s[..5] + s[5..] && t == t[..5] + t[5..];
    } else if |n| == 4 {
      assert s[..5] == n + "-" && s[5..] == "manual-" + timestamp;
      assert n + "-" == "node-" <==> n == "node" by {
        assert (n + "-")[..4] == n && "node-"[..4] == "node";
      }
      assert s == s[..5] + s[5..] && t == t[..5] + t[5..];
    } else {
      assert t[|n|] == "node-"[|n|] && "node-"[|n|] != '-';
    }
  }

  /**
   * An engine-enqueued job shares its id exactly with the child job of a node whose id is
   * "manual-" and the timestamp, if the entry is called "node", or the rest of an entry id that
   * starts with "node-", followed by the manual mark and the timestamp. Never with a resume job.
   */
  lemma SharedManualId(e: string, n: Id, timestamp: string, e': string, n': Id, resumed: bool)
    requires DashFree(e) && DashFree(e') && IsDigits(timestamp)
    ensures ManualJobId(e, n, timestamp) == GenerateNodeJobId(e', n', resumed) <==>
      e == e' && !resumed && ManualTwins(n, timestamp, n')
  {
    var tail := if resumed then n' + RESUMED_MARK else n';
    SplitJobId(e', n', resumed);
    assert ManualJobId(e, n, timestamp) == e + "-" + (n + MANUAL_MARK + timestamp);
    FirstDash(e, e', n + MANUAL_MARK + timestamp, "node-" + tail);
    ManualTail(n, timestamp, tail);
    if resumed {
      var s, t := n + MANUAL_MARK + timestamp, "node-" + tail;
      assert s[|s|-1] == timestamp[|timestamp|-1] && t[|t|-1] == 'd';
    }
  }

  /** Two engine-enqueued jobs share an id only if node and time are the same. */
  lemma SharedManualIds(e: string, n: Id, timestamp: string, e': string, n': Id, timestamp': string)
    requires DashFree(e) && DashFree(e') && IsDigits(timestamp) && IsDigits(timestamp')
    ensures ManualJobId(e, n, timestamp) == ManualJobId(e', n', timestamp') <==>
      e == e' && n == n' && timestamp == timestamp'
  {
    var s, t := n + MANUAL_MARK + timestamp, n' + MANUAL_MARK + timestamp';
    assert ManualJobId(e, n, timestamp) == e + "-" + s && ManualJobId(e', n', timestamp') == e' + "-" + t;
    FirstDash(e, e', s, t);
    if s == t {
      LastMark(n, timestamp, n', timestamp');
    }
  }

  lemma LastMark(n: Id, timestamp: string, n': Id, timestamp': string)
    requires IsDigits(timestamp) && IsDigits(timestamp')
    requires n + MANUAL_MARK + timestamp == n' + MANUAL_MARK + timestamp'
    ensures n == n' && timestamp == timestamp'
  {
    MarkAt(n, timestamp);
    MarkAt(n', timestamp');
    assert |timestamp| == |timestamp'|;
    assert (n + MANUAL_MARK + timestamp)[..|n|] == n && (n' + MANUAL_MARK + timestamp')[..|n'|] == n';
    assert (n + MANUAL_MARK + timestamp)[|n| + |MANUAL_MARK|..] == timestamp;
    assert (n' + MANUAL_MARK + timestamp')[|n'| + |MANUAL_MARK|..] == timestamp';
  }

  lemma MarkAt(n: Id, timestamp: string)
    requires IsDigits(timestamp)
    ensures var s := n + MANUAL_MARK + timestamp;
      && s[|s| - |timestamp| - 1] == '-'
      && forall i :: |s| - |timestamp| <= i < |s| ==> s[i] != '-'
  {
    var s := n + MANUAL_MARK + timestamp;
    assert s[|s| - |timestamp| - 1] == MANUAL_MARK[|MANUAL_MARK| - 1];
    forall i | |s| - |timestamp| <= i < |s| ensures s[i] != '-' {
      assert s[i] == timestamp[i - (|s| - |timestamp|)];
    }
  }

  /** Whether some timestamp gives an entry and a child the same job id. */
  predicate CanShareManualId(n: Id, child: Id) {
    var mark, id := n + MANUAL_MARK, "node-" + child;
    mark <= id && IsDigits(id[|mark|..])
  }

  lemma SharingIsCheckable(n: Id, child: Id)
    ensures CanShareManualId(n, child) <==> exists timestamp :: IsDigits(timestamp) && ManualTwins(n, timestamp, child)
  {
    var mark, id := n + MANUAL_MARK, "node-" + child;
    if CanShareManualId(n, child) {
      var timestamp := id[|mark|..];
      assert mark + timestamp == id;
      ManualTail(n, timestamp, child);
    }
    forall timestamp | IsDigits(timestamp) && ManualTwins(n, timestamp, child) ensures CanShareManualId(n, child) {
      ManualTail(n, timestamp, child);
      assert id[|mark|..] == timestamp && id[..|mark|] == mark;
    }
  }
}
