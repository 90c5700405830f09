/** The field-mapping engine (mapping/mapping.go): an ordered list of mappings, each overwriting
    what earlier ones wrote, followed by the record's unmapped fields in any order. */
module Mapping {
  import opened Wrappers
  import opened Records
  import opened Strings
  import opened Engine
  import opened EngineAccounting
  import opened Pipeline

  /** `default_` is Nil when the mapping has no default. */
  datatype FieldMapping = FieldMapping(
    source: string, target: string, transform: string, default_: Value, required: bool)

  datatype MappingConfig = MappingConfig(
    mappings: seq<FieldMapping>, defaults: Data, strict: bool, autoMapping: bool)

  datatype MappingError = TransformFailed(field: string) | RequiredMissing(fields: seq<string>)

  /** `ApplyBuiltinTransform`; None is its error. */
  function ApplyBuiltin(value: Value, name: string): Option<Value> {
    var n := Lower(name);
    if n in {"tostring", "to_string"} then
      Some(Str(match value case Nil => "<nil>" case Str(t) => t case Opaque(_, shown) => shown))
    else if n in {"toupper", "to_upper"} then
      if value.Str? then Some(Str(Upper(value.text))) else None
    else if n in {"tolower", "to_lower"} then
      if value.Str? then Some(Str(Lower(value.text))) else None
    else if n == "trim" then
      if value.Str? then Some(Str(TrimSpace(value.text))) else None
    else None
  }

  lemma NamesFold(name: string)
    ensures Lower(name) == "tostring" <==> EqualFold(name, "tostring")
    ensures Lower(name) == "to_string" <==> EqualFold(name, "to_string")
    ensures Lower(name) == "toupper" <==> EqualFold(name, "toupper")
    ensures Lower(name) == "to_upper" <==> EqualFold(name, "to_upper")
    ensures Lower(name) == "tolower" <==> EqualFold(name, "tolower")
    ensures Lower(name) == "to_lower" <==> EqualFold(name, "to_lower")
    ensures Lower(name) == "trim" <==> EqualFold(name, "trim")
  {
    LowerFolds(name, "tostring");
    LowerFolds(name, "to_string");
    LowerFolds(name, "toupper");
    LowerFolds(name, "to_upper");
    LowerFolds(name, "tolower");
    LowerFolds(name, "to_lower");
    LowerFolds(name, "trim");
  }

  /** The transforms by their names, in any case. */
  lemma BuiltinsExactly(value: Value, name: string)
    ensures EqualFold(name, "tostring") || EqualFold(name, "to_string") ==>
              ApplyBuiltin(value, name) == Some(Str(if value.Nil? then "<nil>" else if value.Str? then value.text
                                                    else value.shown))
    ensures EqualFold(name, "toupper") || EqualFold(name, "to_upper") ==>
              (ApplyBuiltin(value, name).Some? <==> value.Str?)
              && (value.Str? ==> ApplyBuiltin(value, name).value.Str?
                                 && EqualFold(ApplyBuiltin(value, name).value.text, value.text)
                                 && NoSmallLetters(ApplyBuiltin(value, name).value.text))
    ensures EqualFold(name, "tolower") || EqualFold(name, "to_lower") ==>
              (ApplyBuiltin(value, name).Some? <==> value.Str?)
              && (value.Str? ==> ApplyBuiltin(value, name).value.Str?
                                 && EqualFold(ApplyBuiltin(value, name).value.text, value.text)
                                 && NoCapitals(ApplyBuiltin(value, name).value.text))
    ensures EqualFold(name, "trim") ==>
              (ApplyBuiltin(value, name).Some? <==> value.Str?)
              && (value.Str? ==> ApplyBuiltin(value, name).value.Str?
                                 && IsTrimmed(value.text, ApplyBuiltin(value, name).value.text))
  {
    NamesFold(name);
    if value.Str? {
      FoldedLetters(value.text);
      TrimmedExactly(value.text);
    }
  }

  /** No other name is a transform. */
  lemma OnlyTheseBuiltins(value: Value, name: string)
    requires ApplyBuiltin(value, name).Some?
    ensures EqualFold(name, "tostring") || EqualFold(name, "to_string") || EqualFold(name, "toupper")
            || EqualFold(name, "to_upper") || EqualFold(name, "tolower") || EqualFold(name, "to_lower")
            || EqualFold(name, "trim")
  {
    NamesFold(name);
  }

  function Source(m: FieldMapping, data: Data): Value {
    if m.source in data then data[m.source] else Nil
  }

  predicate TransformBreaks(m: FieldMapping, data: Data) {
    Source(m, data) != Nil && m.transform != "" && ApplyBuiltin(Source(m, data), m.transform).None?
  }

  predicate LacksRequired(c: MappingConfig, m: FieldMapping, data: Data) {
    Source(m, data) == Nil && m.default_ == Nil && m.target !in c.defaults && m.required
  }

  /** The value a mapping writes to its target, if it fires. */
  function Fires(c: MappingConfig, m: FieldMapping, data: Data): Option<Value> {
    var v := Source(m, data);
    if v == Nil then
      if m.default_ != Nil then Some(m.default_)
      else if m.target in c.defaults then Some(c.defaults[m.target])
      else None
    else if m.transform != "" && ApplyBuiltin(v, m.transform).Some? then ApplyBuiltin(v, m.transform)
    else Some(v)
  }

  /** The value of the last mapping to `k` that fires. */
  function LastWrite(c: MappingConfig, ms: seq<FieldMapping>, data: Data, k: string): Option<Value> {
    if ms == [] then None
    else
      var m := ms[|ms| - 1];
      if m.target == k && Fires(c, m, data).Some? then Fires(c, m, data)
      else LastWrite(c, ms[..|ms| - 1], data, k)
  }

  predicate IsSource(ms: seq<FieldMapping>, k: string) {
    exists i :: 0 <= i < |ms| && ms[i].source == k
  }

  /** The closed form: an unmapped field of the record overrides the mappings when auto-mapping is
      on and only fills a gap when it is off. */
  function Lookup(c: MappingConfig, data: Data, k: string): Option<Value> {
    var w := LastWrite(c, c.mappings, data, k);
    if k in data && !IsSource(c.mappings, k) && (c.autoMapping || w.None?) then Some(data[k]) else w
  }

  /** A map that holds exactly what a lookup says. */
  ghost predicate Holds(result: Data, lookup: string -> Option<Value>) {
    && (forall k :: k in result <==> lookup(k).Some?)
    && (forall k :: k in result ==> result[k] == lookup(k).value)
  }

  ghost predicate MapsTo(c: MappingConfig, data: Data, result: Data) {
    Holds(result, k => Lookup(c, data, k))
  }

  /** The closed form determines the record, so no iteration order can matter. */
  lemma MappingDeterminesRecord(c: MappingConfig, data: Data, a: Data, b: Data)
    requires MapsTo(c, data, a) && MapsTo(c, data, b)
    ensures a == b
  {
  }

  /** `LastWrite`, read off the list: some mapping to k fires, and none after it does. */
  lemma {:induction false} LastWriteIsLast(c: MappingConfig, ms: seq<FieldMapping>, data: Data, k: string)
    ensures LastWrite(c, ms, data, k).None? <==>
      forall i :: 0 <= i < |ms| && ms[i].target == k ==> Fires(c, ms[i], data).None?
    ensures LastWrite(c, ms, data, k).Some? <==>
      exists i :: 0 <= i < |ms| && ms[i].target == k && Fires(c, ms[i], data).Some?
        && LastWrite(c, ms, data, k) == Fires(c, ms[i], data)
        && forall j :: i < j < |ms| && ms[j].target == k ==> Fires(c, ms[j], data).None?
  {
    if ms != [] {
      var init, m := ms[..|ms| - 1], ms[|ms| - 1];
      LastWriteIsLast(c, init, data, k);
      assert forall i :: 0 <= i < |init| ==> init[i] == ms[i];
      if !(m.target == k && Fires(c, m, data).Some?) && LastWrite(c, init, data, k).Some? {
        var i :| 0 <= i < |init| && init[i].target == k && Fires(c, init[i], data).Some?
          && LastWrite(c, init, data, k) == Fires(c, init[i], data)
          && forall j :: i < j < |init| && init[j].target == k ==> Fires(c, init[j], data).None?;
        assert ms[i].target == k && Fires(c, ms[i], data).Some?;
      } else if m.target == k && Fires(c, m, data).Some? {
        assert ms[|ms| - 1].target == k;
      }
    }
  }

  /** The source fields of the required mappings that find no value. */
  function MissingFields(c: MappingConfig, ms: seq<FieldMapping>, data: Data): seq<string> {
    if ms == [] then []
    else
      var m := ms[|ms| - 1];
      MissingFields(c, ms[..|ms| - 1], data) + if LacksRequired(c, m, data) then [m.source] else []
  }

  lemma {:induction false} MissingFieldsEmpty(c: MappingConfig, ms: seq<FieldMapping>, data: Data)
    ensures MissingFields(c, ms, data) == [] <==> forall i :: 0 <= i < |ms| ==> !LacksRequired(c, ms[i], data)
  {
    if ms != [] {
      MissingFieldsEmpty(c, ms[..|ms| - 1], data);
      assert LacksRequired(c, ms[|ms| - 1], data) ==> MissingFields(c, ms, data) != [];
    }
  }

  predicate NoneBreaks(ms: seq<FieldMapping>, data: Data) {
    forall i :: 0 <= i < |ms| ==> !TransformBreaks(ms[i], data)
  }

  /** A record is mapped unless a transform fails in strict mode or a required field is missing. */
  ghost predicate Mappable(c: MappingConfig, data: Data) {
    && (forall i :: 0 <= i < |c.mappings| ==> !LacksRequired(c, c.mappings[i], data))
    && (c.strict ==> NoneBreaks(c.mappings, data))
  }

  /** What the mappings of a list have written. */
  ghost predicate Written(c: MappingConfig, ms: seq<FieldMapping>, data: Data, newData: Data) {
    Holds(newData, k => LastWrite(c, ms, data, k))
  }

  /** One mapping extends what the list before it wrote. */
  lemma WriteStep(c: MappingConfig, ms: seq<FieldMapping>, m: FieldMapping, data: Data, newData: Data)
    requires Written(c, ms, data, newData)
    ensures var f := Fires(c, m, data);
      Written(c, ms + [m], data, if f.Some? then newData[m.target := f.value] else newData)
    ensures MissingFields(c, ms + [m], data)
         == MissingFields(c, ms, data) + if LacksRequired(c, m, data) then [m.source] else []
  {
    assert (ms + [m])[..|ms|] == ms;
  }

  lemma NoneBreaksStep(ms: seq<FieldMapping>, m: FieldMapping, data: Data)
    ensures NoneBreaks(ms + [m], data) <==> NoneBreaks(ms, data) && !TransformBreaks(m, data)
  {
    if NoneBreaks(ms + [m], data) {
      forall i | 0 <= i < |ms| ensures !TransformBreaks(ms[i], data) {
        assert (ms + [m])[i] == ms[i];
      }
      assert (ms + [m])[|ms|] == m;
    }
  }

  // ----- Validation -----

  datatype ValidationError = NoMappings | EmptySource | EmptyTarget(source: string) | DuplicateTarget(target: string)

  ghost predicate Valid(ms: seq<FieldMapping>) {
    && ms != []
    && (forall i :: 0 <= i < |ms| ==> ms[i].source != "" && ms[i].target != "")
    && (forall i, j :: 0 <= i < j < |ms| ==> ms[i].target != ms[j].target)
  }

  class FieldMappingEngine {
    const config: MappingConfig

    constructor (config: MappingConfig)
      ensures this.config == config
    {
      this.config := config;
    }

    method ExplicitSources() returns (sources: set<string>)
      ensures forall k :: k in sources <==> IsSource(config.mappings, k)
      ensures forall k :: k in sources <==> exists i :: 0 <= i < |config.mappings| && config.mappings[i].source == k
    {
      var ms := config.mappings;
      sources := {};
      for i := 0 to |ms|
        invariant forall k :: k in sources <==> exists j :: 0 <= j < i && ms[j].source == k
      {
        sources := sources + {ms[i].source};
      }
    }

    /** One turn of the loop: the value written, if any, and what is wrong with the mapping. */
    method ApplyMapping(m: FieldMapping, data: Data, before: Data) returns (newData: Data, lacks: bool, breaks: bool)
      ensures breaks == TransformBreaks(m, data) && lacks == LacksRequired(config, m, data)
      // an absent or nil field: the mapping's default, then the engine's, else nothing
      ensures m.source !in data || data[m.source] == Nil ==>
                && !breaks && (lacks <==> m.required && m.default_ == Nil && m.target !in config.defaults)
                && newData == (if m.default_ != Nil then before[m.target := m.default_]
                               else if m.target in config.defaults then before[m.target := config.defaults[m.target]]
                               else before)
      // a field with a value: transformed if it can be, and else as it is unless that is an error
      ensures m.source in data && data[m.source] != Nil ==>
                !lacks && (breaks <==> m.transform != "" && ApplyBuiltin(data[m.source], m.transform).None?)
      ensures m.source in data && data[m.source] != Nil && !breaks ==>
                newData == before[m.target := if m.transform == "" then data[m.source]
                                              else ApplyBuiltin(data[m.source], m.transform).value]
      ensures m.source in data && data[m.source] != Nil && breaks && !config.strict ==>
                newData == before[m.target := data[m.source]]
      ensures !(breaks && config.strict) ==>
                newData == if Fires(config, m, data).Some? then before[m.target := Fires(config, m, data).value]
                           else before
    {
      newData, lacks, breaks := before, false, false;
      var v := if m.source in data then data[m.source] else Nil;
      if v == Nil {
        if m.default_ != Nil {
          newData := newData[m.target := m.default_];
        } else if m.target in config.defaults {
          newData := newData[m.target := config.defaults[m.target]];
        } else if m.required {
          lacks := true;
        }
      } else if m.transform != "" {
        var transformed := ApplyBuiltin(v, m.transform);
        if transformed.None? {
          breaks := true;
          if !config.strict {
            newData := newData[m.target := v];
          }
        } else {
          newData := newData[m.target := transformed.value];
        }
      } else {
        newData := newData[m.target := v];
      }
    }

    /** What holds behind the mappings of a list: their writes, the missing fields, no fatal transform. */
    ghost predicate Applied(ms: seq<FieldMapping>, data: Data, newData: Data, missing: seq<string>) {
      && Written(config, ms, data, newData) && missing == MissingFields(config, ms, data)
      && (config.strict ==> NoneBreaks(ms, data))
    }

    method ApplyNext(ghost ms: seq<FieldMapping>, m: FieldMapping, data: Data, before: Data, missed: seq<string>)
      returns (newData: Data, missing: seq<string>, fatal: bool)
      requires Applied(ms, data, before, missed)
      ensures fatal <==> config.strict && TransformBreaks(m, data)
      ensures !fatal ==> Applied(ms + [m], data, newData, missing)
    {
      WriteStep(config, ms, m, data, before);
      NoneBreaksStep(ms, m, data);
      var lacks, breaks;
      newData, lacks, breaks := ApplyMapping(m, data, before);
      missing := if lacks then missed + [m.source] else missed;
      fatal := breaks && config.strict;
    }

    /** The loop over the mappings. */
    method ApplyMappings(data: Data) returns (newData: Data, missing: seq<string>, broken: Option<nat>)
      ensures broken.None? ==> Written(config, config.mappings, data, newData)
      ensures broken.None? ==> missing == MissingFields(config, config.mappings, data)
      ensures broken.None? && config.strict ==> NoneBreaks(config.mappings, data)
      ensures broken.Some? ==> config.strict && broken.value < |config.mappings|
      ensures broken.Some? ==> TransformBreaks(config.mappings[broken.value], data)
      ensures broken.Some? ==> NoneBreaks(config.mappings[..broken.value], data)
    {
      var ms := config.mappings;
      newData, missing := map[], [];
      for i := 0 to |ms|
        invariant Applied(ms[..i], data, newData, missing)
      {
        assert ms[..i + 1] == ms[..i] + [ms[i]];
        var fatal;
        newData, missing, fatal := ApplyNext(ms[..i], ms[i], data, newData, missing);
        if fatal {
          return newData, missing, Some(i);
        }
      }
      assert ms[..|ms|] == ms;
      broken := None;
    }

    /** The loop over the record's fields, in whatever order it picks them. */
    method AddUnmapped(data: Data, sources: set<string>, explicit: Data) returns (newData: Data)
      requires forall k :: k in sources <==> IsSource(config.mappings, k)
      requires Written(config, config.mappings, data, explicit)
      ensures MapsTo(config, data, newData)
    {
      newData := explicit;
      var rest := data.Keys;
      while rest != {}
        invariant rest <= data.Keys
        invariant forall k :: k in newData <==> k in explicit || (k in data && k !in rest && k !in sources)
        invariant forall k :: k in newData ==>
          newData[k] == if k in data && k !in rest && k !in sources && (config.autoMapping || k !in explicit)
                        then data[k] else explicit[k]
        decreases rest
      {
        var k :| k in rest;
        rest := rest - {k};
        if k !in sources {
          if config.autoMapping {
            newData := newData[k := data[k]];
          } else if k !in newData {
            newData := newData[k := data[k]];
          }
        }
      }
    }

    method MapRecord(record: Record) returns (r: Result<Record, MappingError>)
      ensures r.Ok? <==> Mappable(config, record.data)
      ensures r.Ok? ==> MapsTo(config, record.data, r.value.data) && r.value.sourcePK == record.sourcePK
      ensures r.Err? && r.error.RequiredMissing? ==>
                r.error.fields == MissingFields(config, config.mappings, record.data) != []
      ensures r.Err? && r.error.TransformFailed? ==> config.strict
      ensures r.Err? && r.error.TransformFailed? ==>
                exists i :: 0 <= i < |config.mappings| && TransformBreaks(config.mappings[i], record.data)
                  && r.error.field == config.mappings[i].source
                  && forall j :: 0 <= j < i ==> !TransformBreaks(config.mappings[j], record.data)
    {
      var sources := ExplicitSources();
      var newData, missing, broken := ApplyMappings(record.data);
      if broken.Some? {
        return Err(TransformFailed(config.mappings[broken.value].source));
      }
      newData := AddUnmapped(record.data, sources, newData);
      MissingFieldsEmpty(config, config.mappings, record.data);
      if missing != [] {
        return Err(RequiredMissing(missing));
      }
      r := Ok(Record(newData, record.sourcePK));
    }

    /** The spec of one record, as the mapper's stage sees it. */
    ghost predicate MapResult(record: Record, r: Result<Record, string>) {
      && (r.Ok? <==> Mappable(config, record.data))
      && (r.Ok? ==> MapsTo(config, record.data, r.value.data) && r.value.sourcePK == record.sourcePK)
    }

    ghost predicate MapResults(records: seq<Record>, results: seq<Result<Record, string>>) {
      |results| <= |records| && forall i :: 0 <= i < |results| ==> MapResult(records[i], results[i])
    }

    method MapOne(record: Record) returns (r: Result<Record, string>)
      ensures MapResult(record, r)
    {
      var mapped := MapRecord(record);
      r := if mapped.Ok? then Ok(mapped.value) else Err("mapping failed");
    }

    ghost predicate AllMappable(records: seq<Record>) {
      forall i :: 0 <= i < |records| ==> Mappable(config, records[i].data)
    }

    lemma MapStep(records: seq<Record>, results: seq<Result<Record, string>>, r: Result<Record, string>)
      requires |results| < |records| && MapResults(records, results) && MapResult(records[|results|], r)
      ensures MapResults(records, results + [r])
      ensures AllMappable(records[..|results|]) && r.Ok? ==> AllMappable(records[..|results| + 1])
      ensures r.Err? ==> !AllMappable(records)
    {
      forall i | 0 <= i < |results + [r]| ensures MapResult(records[i], (results + [r])[i]) {
        if i < |results| {
          assert (results + [r])[i] == results[i];
        }
      }
    }

    /** Maps a batch; in strict mode the first record that cannot be mapped fails the whole batch,
        otherwise the batch splits, in order, into mapped and failed records. */
    method Map(records: seq<Record>) returns (r: StageResult, ghost results: seq<Result<Record, string>>)
      ensures StageContract(records, r)
      ensures r.err <==> config.strict && !AllMappable(records)
      ensures !r.err ==> |results| == |records| && MapResults(records, results)
      ensures !r.err ==> r.out == Oks(results) && r.failed == Errs(records, results, MapStage)
    {
      var result: seq<Record>, failed: seq<FailedRecord> := [], [];
      results := [];
      for i := 0 to |records|
        invariant |results| == i && MapResults(records, results)
        invariant result == Oks(results) && failed == Errs(records, results, MapStage)
        invariant config.strict ==> AllMappable(records[..i])
      {
        var mapped := MapOne(records[i]);
        MapStep(records, results, mapped);
        if mapped.Err? && config.strict {
          return StageResult([], [], true), [];
        }
        PartitionStep(records, results, mapped, MapStage);
        if mapped.Err? {
          failed := failed + [FailedRecord(records[i], mapped.error, MapStage)];
        } else {
          result := result + [mapped.value];
        }
        results := results + [mapped];
      }
      PartitionCounts(records, results, MapStage);
      assert records[..|records|] == records;
      r := StageResult(result, failed, false);
    }

    method Validate() returns (r: Option<ValidationError>)
      ensures r.None? <==> Valid(config.mappings)
      ensures r.Some? && r.value.DuplicateTarget? ==>
                exists i, j :: 0 <= i < j < |config.mappings|
                  && config.mappings[i].target == config.mappings[j].target == r.value.target
      ensures r == Some(NoMappings) <==> config.mappings == []
      ensures r == Some(EmptySource) ==> exists i :: 0 <= i < |config.mappings| && config.mappings[i].source == ""
      ensures r.Some? && r.value.EmptyTarget? ==>
                exists i :: 0 <= i < |config.mappings|
                  && config.mappings[i].target == "" && config.mappings[i].source == r.value.source != ""
    {
      var ms := config.mappings;
      if |ms| == 0 {
        return Some(NoMappings);
      }
      var seen: set<string> := {};
      for i := 0 to |ms|
        invariant forall j :: 0 <= j < i ==> ms[j].source != "" && ms[j].target != ""
        invariant forall j, k :: 0 <= j < k < i ==> ms[j].target != ms[k].target
        invariant forall t :: t in seen <==> exists j :: 0 <= j < i && ms[j].target == t
      {
        if ms[i].source == "" {
          return Some(EmptySource);
        }
        if ms[i].target == "" {
          return Some(EmptyTarget(ms[i].source));
        }
        if ms[i].target in seen {
          return Some(DuplicateTarget(ms[i].target));
        }
        seen := seen + {ms[i].target};
      }
      r := None;
    }
  }
}
