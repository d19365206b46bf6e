/** Delay durations and the data a node receives from its parents. */
module NodeInputs {
  import opened Graphs
  import opened Workflows

  /** The first configured unit wins. */
  function ResolveDuration(config: Option<DelayConfig>): Option<int> {
    match config
    case None => None
    case Some(c) =>
      if c.duration.Some? then c.duration
      else if c.durationSeconds.Some? then Some(c.durationSeconds.value * 1000)
      else if c.durationMinutes.Some? then Some(c.durationMinutes.value * 60000)
      else None
  }

  /** This many milliseconds are what the configuration says: the finest unit that is given counts. */
  predicate Lasts(c: DelayConfig, ms: int) {
    && (c.duration.Some? ==> ms == c.duration.value)
    && (c.duration.None? && c.durationSeconds.Some? ==> ms == 1000 * c.durationSeconds.value)
    && (c.duration.None? && c.durationSeconds.None? && c.durationMinutes.Some? ==> ms == 60 * 1000 * c.durationMinutes.value)
  }

  /** A duration is found exactly if some unit is given, and it is that many milliseconds. */
  lemma DurationInMilliseconds(config: Option<DelayConfig>)
    ensures config.None? ==> ResolveDuration(config).None?
    ensures config.Some? ==>
      (ResolveDuration(config).None? <==>
         config.value.duration.None? && config.value.durationSeconds.None? && config.value.durationMinutes.None?)
    ensures ResolveDuration(config).Some? ==> Lasts(config.value, ResolveDuration(config).value)
  {
  }

  /** The same time in another unit is the same delay. */
  lemma UnitsAgree(minutes: int)
    ensures var inMinutes := ResolveDuration(Some(DelayConfig(None, None, Some(minutes))));
      && inMinutes == ResolveDuration(Some(DelayConfig(None, Some(60 * minutes), None)))
      && inMinutes == ResolveDuration(Some(DelayConfig(Some(60000 * minutes), None, None)))
  {
  }

  predicate ValidDuration(duration: Option<int>) {
    duration.Some? && duration.value >= 0
  }

  /** A parent that succeeded with data. */
  predicate Delivers(results: map<Id, ExecutionResult>, parent: Id) {
    parent in results && results[parent].success && results[parent].data.Some?
  }

  /** One parent passes its data on as it is; several are keyed by parent. */
  function NodeInputData(inputData: Option<Json>, parents: seq<Id>, results: map<Id, ExecutionResult>): Option<Json> {
    if parents == [] then inputData
    else if |parents| == 1 then
      if parents[0] != "" && Delivers(results, parents[0]) then results[parents[0]].data else inputData
    else
      Some(Obj(map p | p in parents && Delivers(results, p) :: results[p].data.value))
  }

  /**
   * Without parents a node gets the job's own data; a single parent that succeeded with data
   * passes that on; of several, each key is a parent that succeeded with data and holds its data.
   */
  lemma InputDataByParents(inputData: Option<Json>, parents: seq<Id>, results: map<Id, ExecutionResult>)
    ensures |parents| == 0 ==> NodeInputData(inputData, parents, results) == inputData
    ensures |parents| == 1 ==> var p := parents[0];
      NodeInputData(inputData, parents, results) ==
        if p != "" && p in results && results[p].success && results[p].data != None then results[p].data else inputData
    ensures |parents| >= 2 ==> var d := NodeInputData(inputData, parents, results);
      && d.Some? && d.value.Obj?
      && (forall p :: p in d.value.fields <==> p in parents && p in results && results[p].success && results[p].data != None)
      && (forall p :: p in d.value.fields ==> results[p].data == Some(d.value.fields[p]))
  {
  }

  method BuildNodeInputData(inputData: Option<Json>, parentIds: seq<Id>, previousResults: map<Id, ExecutionResult>)
    returns (r: Option<Json>)
    ensures r == NodeInputData(inputData, parentIds, previousResults)
  {
    if |parentIds| == 0 {
      return inputData;
    }
    if |parentIds| == 1 {
      var parentId := parentIds[0];
      if parentId != "" && Delivers(previousResults, parentId) {
        return previousResults[parentId].data;
      }
      return inputData;
    }
    var mergedData: map<string, Json> := map[];
    for i := 0 to |parentIds|
      invariant mergedData == map p | p in parentIds[..i] && Delivers(previousResults, p) :: previousResults[p].data.value
    {
      var parentId := parentIds[i];
      assert parentIds[..i+1] == parentIds[..i] + [parentId];
      if Delivers(previousResults, parentId) {
        mergedData := mergedData[parentId := previousResults[parentId].data.value];
      }
    }
    assert parentIds[..|parentIds|] == parentIds;
    return Some(Obj(mergedData));
  }
}
