/** The transformers of the pipeline (transform/): each meets the stage contract that the engine's
    counters rely on, also when it returns an error. */
module Pipeline {
  import opened Wrappers
  import opened Records
  import opened Engine
  import opened EngineAccounting

  // ----- Partition of a batch by per-record results -----

  function OkOf(r: Result<Record, string>): seq<Record> { if r.Ok? then [r.value] else [] }

  function ErrOf(record: Record, r: Result<Record, string>, stage: Stage): seq<FailedRecord> {
    if r.Err? then [FailedRecord(record, r.error, stage)] else []
  }

  function Oks(results: seq<Result<Record, string>>): seq<Record> {
    if results == [] then [] else Oks(results[..|results| - 1]) + OkOf(results[|results| - 1])
  }

  function Errs(records: seq<Record>, results: seq<Result<Record, string>>, stage: Stage): seq<FailedRecord>
    requires |results| <= |records|
  {
    if results == [] then []
    else
      var n := |results| - 1;
      Errs(records, results[..n], stage) + ErrOf(records[n], results[n], stage)
  }

  /** Every record comes out or is listed as failed, once. */
  lemma {:induction false} PartitionCounts(records: seq<Record>, results: seq<Result<Record, string>>, stage: Stage)
    requires |results| <= |records|
    ensures |Oks(results)| + |Errs(records, results, stage)| == |results|
  {
    if results != [] {
      PartitionCounts(records, results[..|results| - 1], stage);
    }
  }

  /** Positions in a list, in order. */
  ghost predicate Positions(js: seq<nat>, n: nat) {
    && (forall k :: 0 <= k < |js| ==> js[k] < n)
    && forall k, l :: 0 <= k < l < |js| ==> js[k] < js[l]
  }

  /** The two lists, record by record: in the order of the batch, what each good result holds, and each
      bad one's record with its error and the stage. */
  ghost predicate Partitioned(records: seq<Record>, results: seq<Result<Record, string>>, stage: Stage,
                              oks: seq<Record>, errs: seq<FailedRecord>, good: seq<nat>, bad: seq<nat>)
    requires |results| <= |records|
  {
    && Positions(good, |results|) && Positions(bad, |results|) && |oks| == |good| && |errs| == |bad|
    && (forall k :: 0 <= k < |good| ==> results[good[k]].Ok? && oks[k] == results[good[k]].value)
    && (forall k :: 0 <= k < |bad| ==> results[bad[k]].Err?
                                       && errs[k] == FailedRecord(records[bad[k]], results[bad[k]].error, stage))
    && forall i :: 0 <= i < |results| ==> if results[i].Ok? then i in good else i in bad
  }

  lemma PositionsSnoc(js: seq<nat>, n: nat)
    requires Positions(js, n)
    ensures Positions(js, n + 1) && Positions(js + [n], n + 1)
  {
  }

  lemma GoodStep(records: seq<Record>, results: seq<Result<Record, string>>, r: Result<Record, string>, stage: Stage,
                 oks: seq<Record>, errs: seq<FailedRecord>, good: seq<nat>, bad: seq<nat>)
    requires |results| < |records| && Partitioned(records, results, stage, oks, errs, good, bad) && r.Ok?
    ensures Partitioned(records, results + [r], stage, oks + [r.value], errs, good + [|results|], bad)
  {
    PositionsSnoc(good, |results|);
    PositionsSnoc(bad, |results|);
    var js := good + [|results|];
    assert forall i :: i in good ==> i in js;
    assert js[|good|] == |results|;
  }

  lemma BadStep(records: seq<Record>, results: seq<Result<Record, string>>, r: Result<Record, string>, stage: Stage,
                oks: seq<Record>, errs: seq<FailedRecord>, good: seq<nat>, bad: seq<nat>)
    requires |results| < |records| && Partitioned(records, results, stage, oks, errs, good, bad) && r.Err?
    ensures Partitioned(records, results + [r], stage, oks,
                        errs + [FailedRecord(records[|results|], r.error, stage)], good, bad + [|results|])
  {
    PositionsSnoc(good, |results|);
    PositionsSnoc(bad, |results|);
    var js := bad + [|results|];
    assert forall i :: i in bad ==> i in js;
    assert js[|bad|] == |results|;
  }

  lemma {:induction false} PartitionInOrder(records: seq<Record>, results: seq<Result<Record, string>>, stage: Stage)
    returns (good: seq<nat>, bad: seq<nat>)
    requires |results| <= |records|
    ensures Partitioned(records, results, stage, Oks(results), Errs(records, results, stage), good, bad)
  {
    if results == [] {
      good, bad := [], [];
    } else {
      var n := |results| - 1;
      var init, r := results[..n], results[n];
      good, bad := PartitionInOrder(records, init, stage);
      assert results == init + [r];
      if r.Ok? {
        GoodStep(records, init, r, stage, Oks(init), Errs(records, init, stage), good, bad);
        assert Errs(records, init, stage) + [] == Errs(records, init, stage);
        good := good + [n];
      } else {
        BadStep(records, init, r, stage, Oks(init), Errs(records, init, stage), good, bad);
        assert Oks(init) + [] == Oks(init);
        bad := bad + [n];
      }
    }
  }

  lemma PartitionStep(records: seq<Record>, results: seq<Result<Record, string>>, r: Result<Record, string>,
                      stage: Stage)
    requires |results| < |records|
    ensures Oks(results + [r]) == Oks(results) + OkOf(r)
    ensures Errs(records, results + [r], stage) == Errs(records, results, stage) + ErrOf(records[|results|], r, stage)
  {
    assert (results + [r])[..|results|] == results;
  }

  // ----- DefaultTransformer -----

  method DefaultTransform(records: seq<Record>) returns (r: StageResult)
    ensures r == StageResult(records, [], false) && StageContract(records, r)
  {
    r := StageResult(records, [], false);
  }

  // ----- LuaEngine -----

  /** The result of the i-th record: given up once the context is done, else what the script says. */
  function LuaResult(records: seq<Record>, done: nat -> bool, run: (nat, Record) -> Result<Record, string>, i: nat)
    : Result<Record, string>
    requires i < |records|
  {
    if done(i + 1) then Err("context canceled") else run(i, records[i])
  }

  function LuaResults(records: seq<Record>, done: nat -> bool, run: (nat, Record) -> Result<Record, string>, n: nat)
    : (results: seq<Result<Record, string>>)
    requires n <= |records|
    ensures |results| == n
    ensures forall i :: 0 <= i < n ==>
              (done(i + 1) ==> results[i].Err?) && (!done(i + 1) ==> results[i] == run(i, records[i]))
  {
    if n == 0 then [] else LuaResults(records, done, run, n - 1) + [LuaResult(records, done, run, n - 1)]
  }

  /** What one more record adds to the two lists. */
  lemma LuaStep(records: seq<Record>, done: nat -> bool, run: (nat, Record) -> Result<Record, string>, i: nat)
    requires i < |records|
    ensures var r, next := LuaResult(records, done, run, i), LuaResults(records, done, run, i + 1);
      && Oks(next) == Oks(LuaResults(records, done, run, i)) + OkOf(r)
      && Errs(records, next, TransformStage)
         == Errs(records, LuaResults(records, done, run, i), TransformStage) + ErrOf(records[i], r, TransformStage)
  {
    PartitionStep(records, LuaResults(records, done, run, i), LuaResult(records, done, run, i), TransformStage);
  }

  /** The loop over the records; `done(i + 1)` is the context at record i. */
  method LuaLoop(records: seq<Record>, done: nat -> bool, run: (nat, Record) -> Result<Record, string>)
    returns (success: seq<Record>, failed: seq<FailedRecord>)
    ensures success == Oks(LuaResults(records, done, run, |records|))
    ensures failed == Errs(records, LuaResults(records, done, run, |records|), TransformStage)
  {
    success, failed := [], [];
    for i := 0 to |records|
      invariant success == Oks(LuaResults(records, done, run, i))
      invariant failed == Errs(records, LuaResults(records, done, run, i), TransformStage)
    {
      LuaStep(records, done, run, i);
      if done(i + 1) {
        failed := failed + [FailedRecord(records[i], "context canceled", TransformStage)];
      } else {
        var r := run(i, records[i]);
        if r.Err? {
          failed := failed + [FailedRecord(records[i], r.error, TransformStage)];
        } else {
          success := success + [r.value];
        }
      }
    }
  }

  /** `done(0)` is the context at entry. */
  method LuaExecute(script: string, records: seq<Record>, done: nat -> bool,
                    run: (nat, Record) -> Result<Record, string>)
    returns (r: StageResult)
    ensures StageContract(records, r)
    ensures script == "" ==> r == StageResult(records, [], false)
    ensures r.err <==> script != "" && done(0)
    ensures r.err ==> r == StageResult([], [], true)
    ensures script != "" && !r.err ==>
              r.out == Oks(LuaResults(records, done, run, |records|))
              && r.failed == Errs(records, LuaResults(records, done, run, |records|), TransformStage)
  {
    if script == "" {
      return StageResult(records, [], false);
    }
    if done(0) {
      return StageResult([], [], true);
    }
    var success, failed := LuaLoop(records, done, run);
    PartitionCounts(records, LuaResults(records, done, run, |records|), TransformStage);
    r := StageResult(success, failed, false);
  }

  /** `ScriptTransformer.Transform`; `registered` says whether the language has an engine. */
  method ScriptTransform(script: string, registered: bool, records: seq<Record>, done: nat -> bool,
                         run: (nat, Record) -> Result<Record, string>)
    returns (r: StageResult)
    ensures StageContract(records, r)
    ensures script == "" || records == [] ==> r == StageResult(records, [], false)
    ensures script != "" && records != [] ==> (r.err <==> !registered || done(0))
    ensures script != "" && records != [] && !r.err ==>
              r.out == Oks(LuaResults(records, done, run, |records|))
              && r.failed == Errs(records, LuaResults(records, done, run, |records|), TransformStage)
    ensures r.err ==> r == StageResult([], [], true)
  {
    if script == "" || |records| == 0 {
      return StageResult(records, [], false);
    }
    if !registered {
      return StageResult([], [], true);
    }
    r := LuaExecute(script, records, done, run);
  }

  // ----- RedisMessageTransformer -----

  /** A source field of the mapping that the record has and that is renamed to k. */
  predicate Feeds(mapping: map<string, string>, data: Data, source: string, k: string) {
    source in mapping && source in data && mapping[source] == k
  }

  ghost predicate Fed(mapping: map<string, string>, data: Data, k: string) {
    exists source :: Feeds(mapping, data, source, k)
  }

  /** What `transformRecord` may produce: a renamed field wins over an unmapped field of that name,
      which wins over a field of the payload. */
  ghost predicate Renames(mapping: map<string, string>, payload: Data, data: Data, result: Data) {
    forall k ::
      && (k in result <==> Fed(mapping, data, k) || (k in data && k !in mapping) || k in payload)
      && (Fed(mapping, data, k) ==>
            k in result && exists source :: Feeds(mapping, data, source, k) && result[k] == data[source])
      && (!Fed(mapping, data, k) && k in data && k !in mapping ==> k in result && result[k] == data[k])
      && (!Fed(mapping, data, k) && !(k in data && k !in mapping) && k in payload ==>
            k in result && result[k] == payload[k])
  }

  /** Every field of the payload that no renamed and no unmapped field claims is there. */
  ghost predicate Expanded(mapping: map<string, string>, payload: Data, data: Data, result: Data) {
    forall k :: k in payload && !Fed(mapping, data, k) && (k !in data || k in mapping) ==>
      k in result && result[k] == payload[k]
  }

  /** No two renamed fields of the record carry different values to one target. */
  ghost predicate NoClash(mapping: map<string, string>, data: Data) {
    forall s, s', k :: Feeds(mapping, data, s, k) && Feeds(mapping, data, s', k) ==> data[s] == data[s']
  }

  // ----- One walk over the mapping -----

  /** An order in which a Go loop can walk a map with those keys. */
  ghost predicate IsOrder(keys: set<string>, order: seq<string>) {
    && (forall k :: k in keys <==> k in order)
    && forall i, j :: 0 <= i < j < |order| ==> order[i] != order[j]
  }

  /** The renamed fields, written in that order. */
  function Walk(mapping: map<string, string>, data: Data, order: seq<string>): Data {
    if order == [] then map[]
    else
      var before, s := Walk(mapping, data, order[..|order| - 1]), order[|order| - 1];
      if s in mapping && s in data then before[mapping[s] := data[s]] else before
  }

  /** The source at position i is the last one in the order that feeds k. */
  predicate LastFeeder(mapping: map<string, string>, data: Data, order: seq<string>, k: string, i: nat) {
    && i < |order| && Feeds(mapping, data, order[i], k)
    && forall j :: i < j < |order| ==> !Feeds(mapping, data, order[j], k)
  }

  /** A key has a value exactly when a source in the order feeds it, and it is that of the last one. */
  lemma {:induction false} WalkLastWins(mapping: map<string, string>, data: Data, order: seq<string>, k: string)
    ensures k in Walk(mapping, data, order) <==> exists i: nat :: LastFeeder(mapping, data, order, k, i)
    ensures k in Walk(mapping, data, order) ==>
      exists i: nat :: LastFeeder(mapping, data, order, k, i) && Walk(mapping, data, order)[k] == data[order[i]]
  {
    if order != [] {
      var n := |order| - 1;
      var init, s := order[..n], order[n];
      WalkLastWins(mapping, data, init, k);
      if Feeds(mapping, data, s, k) {
        assert LastFeeder(mapping, data, order, k, n);
      } else {
        forall i: nat ensures LastFeeder(mapping, data, order, k, i) <==> LastFeeder(mapping, data, init, k, i) {
        }
      }
    }
  }

  lemma {:induction false} FedHasLast(mapping: map<string, string>, data: Data, order: seq<string>, s: string,
                                      k: string)
    returns (i: nat)
    requires s in order && Feeds(mapping, data, s, k)
    ensures LastFeeder(mapping, data, order, k, i)
  {
    var n := |order| - 1;
    if Feeds(mapping, data, order[n], k) {
      i := n;
    } else {
      i := FedHasLast(mapping, data, order[..n], s, k);
    }
  }

  lemma WalkFeeds(mapping: map<string, string>, data: Data, order: seq<string>, k: string)
    requires IsOrder(mapping.Keys, order)
    ensures k in Walk(mapping, data, order) <==> Fed(mapping, data, k)
  {
    WalkLastWins(mapping, data, order, k);
    if Fed(mapping, data, k) {
      var s :| Feeds(mapping, data, s, k);
      var i := FedHasLast(mapping, data, order, s, k);
    }
  }

  /** The unmapped fields of the record and the fields of the payload, each only into a gap. */
  function Completed(mapping: map<string, string>, payload: Data, data: Data, fed: Data): Data {
    map k | k in fed.Keys + data.Keys + payload.Keys && (k in fed || (k in data && k !in mapping) || k in payload) ::
      if k in fed then fed[k] else if k in data && k !in mapping then data[k] else payload[k]
  }

  /** What `transformRecord` makes of a record when it walks its mapping in that order. */
  function Transformed(mapping: map<string, string>, payload: Data, data: Data, order: seq<string>): Data {
    Completed(mapping, payload, data, Walk(mapping, data, order))
  }

  ghost predicate Produced(mapping: map<string, string>, payload: Data, data: Data, result: Data) {
    exists order :: IsOrder(mapping.Keys, order) && result == Transformed(mapping, payload, data, order)
  }

  lemma TransformedRenames(mapping: map<string, string>, payload: Data, data: Data, order: seq<string>)
    requires IsOrder(mapping.Keys, order)
    ensures Renames(mapping, payload, data, Transformed(mapping, payload, data, order))
  {
    forall k
      ensures k in Walk(mapping, data, order) <==> Fed(mapping, data, k)
      ensures k in Walk(mapping, data, order) ==>
        exists source :: Feeds(mapping, data, source, k) && Walk(mapping, data, order)[k] == data[source]
    {
      WalkFeeds(mapping, data, order, k);
      WalkLastWins(mapping, data, order, k);
    }
  }

  lemma {:induction false} OrderOf(keys: set<string>) returns (order: seq<string>)
    ensures IsOrder(keys, order)
    decreases keys
  {
    if keys == {} {
      order := [];
    } else {
      var k :| k in keys;
      var rest := OrderOf(keys - {k});
      order := rest + [k];
    }
  }

  lemma OrdersConcat(a: set<string>, b: set<string>, x: seq<string>, y: seq<string>)
    requires IsOrder(a, x) && IsOrder(b, y) && a !! b
    ensures IsOrder(a + b, x + y)
  {
    forall i, j | 0 <= i < j < |x + y| ensures (x + y)[i] != (x + y)[j] {
      if i < |x| <= j {
        assert x[i] in a && y[j - |x|] in b;
      }
    }
  }

  /** A key whose feeders from position n on, one at least, all carry the wanted value gets it. */
  lemma WalkTo(mapping: map<string, string>, data: Data, order: seq<string>, n: nat, j: nat, k: string, wanted: Value)
    requires n <= j < |order| && Feeds(mapping, data, order[j], k)
    requires forall i :: n <= i < |order| && Feeds(mapping, data, order[i], k) ==> data[order[i]] == wanted
    ensures k in Walk(mapping, data, order) && Walk(mapping, data, order)[k] == wanted
  {
    WalkLastWins(mapping, data, order, k);
    var last := FedHasLast(mapping, data, order, order[j], k);
    var i: nat :| LastFeeder(mapping, data, order, k, i) && Walk(mapping, data, order)[k] == data[order[i]];
    assert !(i < j);
  }

  /** The sources that carry the value a result has for their target. */
  ghost function Carriers(mapping: map<string, string>, data: Data, result: Data): set<string> {
    set s | s in mapping.Keys && s in data && mapping[s] in result && result[mapping[s]] == data[s]
  }

  lemma CarriersLast(mapping: map<string, string>, payload: Data, data: Data, result: Data, x: seq<string>,
                     y: seq<string>, k: string)
    requires Renames(mapping, payload, data, result) && Fed(mapping, data, k)
    requires IsOrder(Carriers(mapping, data, result), y)
    ensures k in Walk(mapping, data, x + y) && Walk(mapping, data, x + y)[k] == result[k]
  {
    var order := x + y;
    var s :| Feeds(mapping, data, s, k) && result[k] == data[s];
    assert s in Carriers(mapping, data, result);
    var j :| 0 <= j < |y| && y[j] == s;
    assert order[|x| + j] == s;
    forall i | |x| <= i < |order| && Feeds(mapping, data, order[i], k) ensures data[order[i]] == result[k] {
      assert order[i] == y[i - |x|] && y[i - |x|] in Carriers(mapping, data, result);
    }
    WalkTo(mapping, data, order, |x|, |x| + j, k, result[k]);
  }

  lemma CompletedIs(mapping: map<string, string>, payload: Data, data: Data, result: Data, x: seq<string>,
                    y: seq<string>)
    requires Renames(mapping, payload, data, result) && IsOrder(mapping.Keys, x + y)
    requires IsOrder(Carriers(mapping, data, result), y)
    ensures result == Transformed(mapping, payload, data, x + y)
  {
    var fed := Walk(mapping, data, x + y);
    forall k
      ensures k in fed <==> Fed(mapping, data, k)
      ensures k in fed ==> k in result && fed[k] == result[k]
    {
      WalkFeeds(mapping, data, x + y, k);
      if Fed(mapping, data, k) {
        CarriersLast(mapping, payload, data, result, x, y, k);
      }
    }
    var r := Transformed(mapping, payload, data, x + y);
    assert forall k :: k in r <==> k in result;
    assert forall k :: k in r ==> r[k] == result[k];
  }

  /** Every result the precedence allows is what some order of the walk produces. */
  lemma RenamesIsProduced(mapping: map<string, string>, payload: Data, data: Data, result: Data)
    requires Renames(mapping, payload, data, result)
    ensures Produced(mapping, payload, data, result)
  {
    var good := Carriers(mapping, data, result);
    var x := OrderOf(mapping.Keys - good);
    var y := OrderOf(good);
    OrdersConcat(mapping.Keys - good, good, x, y);
    assert mapping.Keys - good + good == mapping.Keys;
    CompletedIs(mapping, payload, data, result, x, y);
  }

  lemma CompletedFills(mapping: map<string, string>, payload: Data, data: Data, fed: Data, result: Data)
    requires forall k :: k in result <==> k in fed || (k in data && k !in mapping) || k in payload
    requires forall k :: k in result ==>
      result[k] == if k in fed then fed[k] else if k in data && k !in mapping then data[k] else payload[k]
    ensures result == Completed(mapping, payload, data, fed)
  {
  }

  class RedisMessageTransformer {
    const fieldMapping: map<string, string>
    /** json.Unmarshal of a payload text; None when it is not an object. */
    const parse: string -> Option<Data>

    constructor (fieldMapping: map<string, string>, parse: string -> Option<Data>)
      ensures this.fieldMapping == fieldMapping && this.parse == parse
    {
      this.fieldMapping, this.parse := fieldMapping, parse;
    }

    function Payload(data: Data): Data {
      if "payload" in data && data["payload"].Str? && parse(data["payload"].text).Some?
      then parse(data["payload"].text).value else map[]
    }

    /** The loop over the mapping, in whatever order it picks the keys. */
    method RenameFields(data: Data) returns (newData: Data, ghost order: seq<string>)
      ensures IsOrder(fieldMapping.Keys, order) && newData == Walk(fieldMapping, data, order)
    {
      newData, order := map[], [];
      var sources := fieldMapping.Keys;
      while sources != {}
        invariant sources <= fieldMapping.Keys
        invariant IsOrder(fieldMapping.Keys - sources, order) && newData == Walk(fieldMapping, data, order)
        decreases sources
      {
        var s :| s in sources;
        sources := sources - {s};
        if s in data {
          newData := newData[fieldMapping[s] := data[s]];
        }
        assert (order + [s])[..|order|] == order;
        order := order + [s];
      }
    }

    /** The loop over the fields, or over the parsed payload: what is not there yet is copied. */
    method FillGaps(fields: Data, skip: set<string>, before: Data) returns (newData: Data)
      ensures forall k :: k in newData <==> k in before || (k in fields && k !in skip)
      ensures forall k :: k in newData ==> newData[k] == if k in before then before[k] else fields[k]
    {
      newData := before;
      var rest := fields.Keys;
      while rest != {}
        invariant rest <= fields.Keys
        invariant forall k :: k in newData <==> k in before || (k in fields && k !in rest && k !in skip)
        invariant forall k :: k in newData ==> newData[k] == if k in before then before[k] else fields[k]
        decreases rest
      {
        var k :| k in rest;
        rest := rest - {k};
        if k !in skip && k !in newData {
          newData := newData[k := fields[k]];
        }
      }
    }

    method TransformRecord(record: Record) returns (r: Record)
      ensures r.sourcePK == record.sourcePK
      // every field of the payload that nothing else of the record claims comes out
      ensures "payload" in record.data && record.data["payload"].Str? ==>
                var fields := parse(record.data["payload"].text);
                fields.Some? ==> Expanded(fieldMapping, fields.value, record.data, r.data)
      ensures Produced(fieldMapping, Payload(record.data), record.data, r.data)
      ensures Renames(fieldMapping, Payload(record.data), record.data, r.data)
    {
      var data := record.data;
      var newData;
      ghost var order;
      newData, order := RenameFields(data);
      newData := FillGaps(data, fieldMapping.Keys, newData);
      if "payload" in data && data["payload"].Str? {
        var parsed := parse(data["payload"].text);
        if parsed.Some? {
          newData := FillGaps(parsed.value, {}, newData);
        }
      }
      r := Record(newData, record.sourcePK);
      CompletedFills(fieldMapping, Payload(data), data, Walk(fieldMapping, data, order), newData);
      TransformedRenames(fieldMapping, Payload(data), data, order);
    }

    /** `done(i)` is the context after record i; a cancelled transform returns what it has. */
    method Transform(records: seq<Record>, done: nat -> bool) returns (r: StageResult)
      ensures StageContract(records, r) && r.failed == []
      ensures r.err <==> exists i :: 0 <= i < |records| && done(i)
      ensures |r.out| <= |records| && (!r.err ==> |r.out| == |records|)
      ensures r.err ==> |r.out| > 0 && done(|r.out| - 1) && forall i :: 0 <= i < |r.out| - 1 ==> !done(i)
      ensures forall i :: 0 <= i < |r.out| ==>
        Renames(fieldMapping, Payload(records[i].data), records[i].data, r.out[i].data)
        && r.out[i].sourcePK == records[i].sourcePK
    {
      var result: seq<Record> := [];
      for i := 0 to |records|
        invariant |result| == i
        invariant forall j :: 0 <= j < i ==> !done(j)
        invariant forall j :: 0 <= j < i ==>
          Renames(fieldMapping, Payload(records[j].data), records[j].data, result[j].data)
          && result[j].sourcePK == records[j].sourcePK
      {
        var transformed := TransformRecord(records[i]);
        result := result + [transformed];
        if done(i) {
          return StageResult(result, [], true);
        }
      }
      r := StageResult(result, [], false);
    }
  }

  lemma NoClashUnique(mapping: map<string, string>, payload: Data, data: Data, a: Data, b: Data)
    requires NoClash(mapping, data)
    requires Renames(mapping, payload, data, a) && Renames(mapping, payload, data, b)
    ensures a == b
  {
    forall k
      ensures k in a <==> k in b
      ensures k in a ==> a[k] == b[k]
    {
      if Fed(mapping, data, k) {
        var s :| Feeds(mapping, data, s, k) && a[k] == data[s];
        var s' :| Feeds(mapping, data, s', k) && b[k] == data[s'];
      }
    }
  }

  lemma FeedChosen(mapping: map<string, string>, payload: Data, data: Data, r: Data, s: string, k: string)
    requires Renames(mapping, payload, data, r) && Feeds(mapping, data, s, k)
    ensures Renames(mapping, payload, data, r[k := data[s]])
  {
    var r' := r[k := data[s]];
    forall k'
      ensures k' in r' <==> Fed(mapping, data, k') || (k' in data && k' !in mapping) || k' in payload
      ensures Fed(mapping, data, k') ==>
                k' in r' && exists source :: Feeds(mapping, data, source, k') && r'[k'] == data[source]
    {
      if k' == k {
        assert Fed(mapping, data, k');
      }
    }
  }

  /** Two walks that differ only in which of two clashing sources comes last. */
  lemma ClashMatters(mapping: map<string, string>, payload: Data, data: Data, s: string, s': string, k: string)
    returns (a: seq<string>, b: seq<string>)
    requires Feeds(mapping, data, s, k) && Feeds(mapping, data, s', k) && data[s] != data[s']
    ensures IsOrder(mapping.Keys, a) && IsOrder(mapping.Keys, b)
    ensures Transformed(mapping, payload, data, a) != Transformed(mapping, payload, data, b)
  {
    var order := OrderOf(mapping.Keys);
    var base := Transformed(mapping, payload, data, order);
    TransformedRenames(mapping, payload, data, order);
    FeedChosen(mapping, payload, data, base, s, k);
    FeedChosen(mapping, payload, data, base, s', k);
    RenamesIsProduced(mapping, payload, data, base[k := data[s]]);
    RenamesIsProduced(mapping, payload, data, base[k := data[s']]);
    a :| IsOrder(mapping.Keys, a) && base[k := data[s]] == Transformed(mapping, payload, data, a);
    b :| IsOrder(mapping.Keys, b) && base[k := data[s']] == Transformed(mapping, payload, data, b);
    assert base[k := data[s]][k] != base[k := data[s']][k];
  }

  /** Walking the mapping in any two orders gives the same record. */
  ghost predicate OrderIrrelevant(mapping: map<string, string>, payload: Data, data: Data) {
    forall a, b :: IsOrder(mapping.Keys, a) && IsOrder(mapping.Keys, b) ==>
      Transformed(mapping, payload, data, a) == Transformed(mapping, payload, data, b)
  }

  /** The transformed record is independent of the order in which Go walks the mapping exactly when no
      two renamed fields clash. */
  lemma OrderIrrelevantExactly(mapping: map<string, string>, payload: Data, data: Data)
    ensures NoClash(mapping, data) <==> OrderIrrelevant(mapping, payload, data)
  {
    if NoClash(mapping, data) {
      forall a, b | IsOrder(mapping.Keys, a) && IsOrder(mapping.Keys, b)
        ensures Transformed(mapping, payload, data, a) == Transformed(mapping, payload, data, b)
      {
        TransformedRenames(mapping, payload, data, a);
        TransformedRenames(mapping, payload, data, b);
        NoClashUnique(mapping, payload, data, Transformed(mapping, payload, data, a),
                      Transformed(mapping, payload, data, b));
      }
    } else {
      var s, s', k :| Feeds(mapping, data, s, k) && Feeds(mapping, data, s', k) && data[s] != data[s'];
      var a, b := ClashMatters(mapping, payload, data, s, s', k);
    }
  }
}
