/** The mapping debugger (`MappingDebugger.DebugRecord`), a second implementation of the mapping
    that records its steps, and when it agrees with the first. */
module MappingDebug {
  import opened Wrappers
  import opened Records
  import opened Mapping

  datatype StepStatus = Missing | DefaultApplied | TransformError | Transformed | Direct | AutoMapped

  datatype MappingStep = MappingStep(source: string, target: string, value: Value, result: Value, status: StepStatus)

  function StepOf(m: FieldMapping, data: Data): MappingStep {
    if m.source !in data then
      MappingStep(m.source, m.target, Nil, m.default_, if m.default_ != Nil then DefaultApplied else Missing)
    else
      var v := data[m.source];
      if m.transform == "" then MappingStep(m.source, m.target, v, v, Direct)
      else match ApplyBuiltin(v, m.transform)
        case None => MappingStep(m.source, m.target, v, v, TransformError)
        case Some(t) => MappingStep(m.source, m.target, v, t, Transformed)
  }

  /** The value the debugger writes for a mapping. */
  function DebugFires(m: FieldMapping, data: Data): Option<Value> {
    if StepOf(m, data).result == Nil then None else Some(StepOf(m, data).result)
  }

  function LastDebugWrite(ms: seq<FieldMapping>, data: Data, k: string): Option<Value> {
    if ms == [] then None
    else
      var m := ms[|ms| - 1];
      if m.target == k && DebugFires(m, data).Some? then DebugFires(m, data)
      else LastDebugWrite(ms[..|ms| - 1], data, k)
  }

  predicate IsAutoMapped(c: MappingConfig, data: Data, k: string) {
    c.autoMapping && k in data && !IsSource(c.mappings, k) && LastDebugWrite(c.mappings, data, k).None?
  }

  function DebugLookup(c: MappingConfig, data: Data, k: string): Option<Value> {
    if IsAutoMapped(c, data, k) then Some(data[k]) else LastDebugWrite(c.mappings, data, k)
  }

  ghost function AutoMappedFields(c: MappingConfig, data: Data): set<string> {
    set k | k in data && IsAutoMapped(c, data, k)
  }

  method HasSource(ms: seq<FieldMapping>, k: string) returns (found: bool)
    ensures found <==> IsSource(ms, k)
    ensures found <==> exists i :: 0 <= i < |ms| && ms[i].source == k
  {
    found := false;
    for i := 0 to |ms|
      invariant found <==> exists j :: 0 <= j < i && ms[j].source == k
    {
      if ms[i].source == k {
        found := true;
        break;
      }
    }
  }

  /** One step each for distinct fields of a set, showing the field's value. */
  ghost predicate AutoStepsOf(steps: seq<MappingStep>, data: Data, auto: set<string>) {
    && |steps| == |auto|
    && (forall i :: 0 <= i < |steps| ==> steps[i].source in auto && steps[i].source in data
                                         && steps[i] == MappingStep(steps[i].source, steps[i].source,
                                                                    data[steps[i].source], data[steps[i].source],
                                                                    AutoMapped))
    && forall i, j :: 0 <= i < j < |steps| ==> steps[i].source != steps[j].source
  }

  lemma AutoStepsAdd(steps: seq<MappingStep>, data: Data, added: set<string>, k: string)
    requires AutoStepsOf(steps, data, added) && k !in added && k in data
    ensures AutoStepsOf(steps + [MappingStep(k, k, data[k], data[k], AutoMapped)], data, added + {k})
  {
  }

  /** The unmapped fields of the record that no mapping has written, in whatever order the loop
      picks them; `auto` names them for the proof. */
  method AutoSteps(ms: seq<FieldMapping>, data: Data, explicit: Data, ghost auto: set<string>)
    returns (targetFields: Data, steps: seq<MappingStep>)
    requires forall k :: k in auto <==> k in data && !IsSource(ms, k) && k !in explicit
    ensures forall k :: k in targetFields <==> k in explicit || k in auto
    ensures forall k :: k in explicit ==> targetFields[k] == explicit[k]
    ensures forall k :: k in auto ==> targetFields[k] == data[k]
    ensures AutoStepsOf(steps, data, auto)
  {
    ghost var added: set<string> := {};
    targetFields, steps := explicit, [];
    var rest := data.Keys;
    while rest != {}
      invariant rest <= data.Keys
      invariant forall k :: k in added <==> k in auto && k !in rest
      invariant forall k :: k in targetFields <==> k in explicit || k in added
      invariant forall k :: k in explicit ==> targetFields[k] == explicit[k]
      invariant forall k :: k in added ==> targetFields[k] == data[k]
      invariant AutoStepsOf(steps, data, added)
      decreases rest
    {
      var k :| k in rest;
      rest := rest - {k};
      var explicitSource := HasSource(ms, k);
      if !explicitSource && k !in targetFields {
        targetFields := targetFields[k := data[k]];
        AutoStepsAdd(steps, data, added, k);
        steps := steps + [MappingStep(k, k, data[k], data[k], AutoMapped)];
        added := added + {k};
      }
    }
    assert added == auto;
  }

  lemma DebugLookupSplit(c: MappingConfig, data: Data, explicit: Data, all: Data)
    requires Holds(explicit, k => LastDebugWrite(c.mappings, data, k))
    requires forall k :: k in all <==> k in explicit || k in AutoMappedFields(c, data)
    requires forall k :: k in explicit ==> all[k] == explicit[k]
    requires forall k :: k in AutoMappedFields(c, data) ==> all[k] == data[k]
    ensures Holds(all, k => DebugLookup(c, data, k))
  {
  }

  method MakeStep(m: FieldMapping, data: Data) returns (step: MappingStep)
    ensures step == StepOf(m, data)
    ensures step.source == m.source && step.target == m.target
    ensures m.source !in data ==>
              step.value == Nil && step.result == m.default_
              && step.status == if m.default_ != Nil then DefaultApplied else Missing
    ensures m.source in data && m.transform == "" ==>
              step.value == step.result == data[m.source] && step.status == Direct
    ensures m.source in data && m.transform != "" ==>
              var t := ApplyBuiltin(data[m.source], m.transform);
              && step.value == data[m.source]
              && step.result == (if t.Some? then t.value else data[m.source])
              && step.status == if t.Some? then Transformed else TransformError
  {
    step := MappingStep(m.source, m.target, Nil, Nil, Missing);
    if m.source !in data {
      if m.default_ != Nil {
        step := step.(result := m.default_, status := DefaultApplied);
      }
    } else {
      step := step.(value := data[m.source]);
      if m.transform != "" {
        var transformed := ApplyBuiltin(data[m.source], m.transform);
        if transformed.None? {
          step := step.(status := TransformError, result := data[m.source]);
        } else {
          step := step.(status := Transformed, result := transformed.value);
        }
      } else {
        step := step.(status := Direct, result := data[m.source]);
      }
    }
  }

  lemma DebugWriteStep(ms: seq<FieldMapping>, m: FieldMapping, data: Data, targetFields: Data)
    requires Holds(targetFields, k => LastDebugWrite(ms, data, k))
    ensures Holds(if StepOf(m, data).result != Nil then targetFields[m.target := StepOf(m, data).result]
                  else targetFields,
                  k => LastDebugWrite(ms + [m], data, k))
  {
    assert (ms + [m])[..|ms|] == ms;
  }

  method ExplicitSteps(engine: FieldMappingEngine, data: Data) returns (targetFields: Data, steps: seq<MappingStep>)
    ensures Holds(targetFields, k => LastDebugWrite(engine.config.mappings, data, k))
    ensures |steps| == |engine.config.mappings|
    ensures forall i :: 0 <= i < |steps| ==> steps[i] == StepOf(engine.config.mappings[i], data)
  {
    var ms := engine.config.mappings;
    targetFields, steps := map[], [];
    for i := 0 to |ms|
      invariant Holds(targetFields, k => LastDebugWrite(ms[..i], data, k))
      invariant |steps| == i && forall j :: 0 <= j < i ==> steps[j] == StepOf(ms[j], data)
    {
      var m := ms[i];
      DebugWriteStep(ms[..i], m, data, targetFields);
      assert ms[..i + 1] == ms[..i] + [m];
      var step := MakeStep(m, data);
      steps := steps + [step];
      if step.result != Nil {
        targetFields := targetFields[m.target := step.result];
      }
    }
    assert ms[..|ms|] == ms;
  }

  method DebugRecord(engine: FieldMappingEngine, record: Record)
    returns (sourceFields: Data, targetFields: Data, steps: seq<MappingStep>)
    ensures sourceFields == record.data
    ensures Holds(targetFields, k => DebugLookup(engine.config, record.data, k))
    ensures |steps| >= |engine.config.mappings|
    ensures forall i :: 0 <= i < |engine.config.mappings| ==> steps[i] == StepOf(engine.config.mappings[i], record.data)
    ensures AutoStepsOf(steps[|engine.config.mappings|..], record.data, AutoMappedFields(engine.config, record.data))
  {
    sourceFields := record.data;
    targetFields, steps := ExplicitSteps(engine, record.data);
    if engine.config.autoMapping {
      ghost var explicit := targetFields;
      var more;
      targetFields, more := AutoSteps(engine.config.mappings, record.data, targetFields,
                                      AutoMappedFields(engine.config, record.data));
      DebugLookupSplit(engine.config, record.data, explicit, targetFields);
      steps := steps + more;
      assert steps[|engine.config.mappings|..] == more;
    } else {
      assert AutoMappedFields(engine.config, record.data) == {};
    }
  }

  // ----- Agreement with the mapper -----

  /** Both implementations write the same value for every mapping. */
  ghost predicate SameFiring(c: MappingConfig, data: Data) {
    forall i :: 0 <= i < |c.mappings| ==> Fires(c, c.mappings[i], data) == DebugFires(c.mappings[i], data)
  }

  /** An unmapped field of the record that a mapping targets keeps its value; with auto-mapping off
      every unmapped field is targeted. */
  ghost predicate NoShadowing(c: MappingConfig, data: Data) {
    forall k :: k in data && !IsSource(c.mappings, k) ==>
      var w := LastWrite(c, c.mappings, data, k);
      if c.autoMapping then w.None? || w.value == data[k] else w.Some?
  }

  ghost predicate Agrees(c: MappingConfig, data: Data) {
    forall k :: DebugLookup(c, data, k) == Lookup(c, data, k)
  }

  lemma {:induction false} SameWrites(c: MappingConfig, ms: seq<FieldMapping>, data: Data, k: string)
    requires forall i :: 0 <= i < |ms| ==> Fires(c, ms[i], data) == DebugFires(ms[i], data)
    ensures LastWrite(c, ms, data, k) == LastDebugWrite(ms, data, k)
  {
    if ms != [] {
      SameWrites(c, ms[..|ms| - 1], data, k);
    }
  }

  predicate Targets(ms: seq<FieldMapping>, k: string) {
    exists i :: 0 <= i < |ms| && ms[i].target == k
  }

  lemma {:induction false} UntargetedIsUnwritten(c: MappingConfig, ms: seq<FieldMapping>, data: Data, k: string)
    requires !Targets(ms, k)
    ensures LastWrite(c, ms, data, k).None?
  {
    LastWriteIsLast(c, ms, data, k);
  }

  lemma {:induction false} UntargetedIsUnshown(ms: seq<FieldMapping>, data: Data, k: string)
    requires !Targets(ms, k)
    ensures LastDebugWrite(ms, data, k).None?
  {
    if ms != [] {
      var init := ms[..|ms| - 1];
      assert forall i :: 0 <= i < |init| ==> init[i] == ms[i];
      assert ms[|ms| - 1].target != k;
      UntargetedIsUnshown(init, data, k);
    }
  }

  predicate Unmapped(c: MappingConfig, data: Data, k: string) { k in data && !IsSource(c.mappings, k) }

  /** The mapper's last write to a target against the debugger's.  Where the target is no unmapped
      field of the record they must be the same; else the mapper keeps that field's value, at once
      with auto-mapping on and in a gap with it off, and only the debugger prefers the mapping. */
  predicate SameAtTarget(c: MappingConfig, data: Data, k: string, real_: Option<Value>, shown: Option<Value>) {
    if !Unmapped(c, data, k) then real_ == shown
    else if c.autoMapping then shown.None? || shown == Some(data[k])
    else shown == if real_.None? then Some(data[k]) else real_
  }

  /** With auto-mapping off the mapper still copies unmapped fields and the debugger does not, so each
      of them must be targeted. */
  ghost predicate NoSilentCopy(c: MappingConfig, data: Data) {
    c.autoMapping || forall k :: Unmapped(c, data, k) ==> Targets(c.mappings, k)
  }

  ghost predicate TargetsAgree(c: MappingConfig, data: Data) {
    forall i :: 0 <= i < |c.mappings| ==>
      var k := c.mappings[i].target;
      SameAtTarget(c, data, k, LastWrite(c, c.mappings, data, k), LastDebugWrite(c.mappings, data, k))
  }

  lemma TargetAgrees(c: MappingConfig, data: Data, k: string)
    ensures Targets(c.mappings, k) ==>
      (DebugLookup(c, data, k) == Lookup(c, data, k)
       <==> SameAtTarget(c, data, k, LastWrite(c, c.mappings, data, k), LastDebugWrite(c.mappings, data, k)))
    ensures !Targets(c.mappings, k) ==>
      (DebugLookup(c, data, k) == Lookup(c, data, k) <==> c.autoMapping || !Unmapped(c, data, k))
  {
    if !Targets(c.mappings, k) {
      UntargetedIsUnwritten(c, c.mappings, data, k);
      UntargetedIsUnshown(c.mappings, data, k);
    }
  }

  /** For every mapping list, engine defaults and record, nil cells included: debugger and mapper agree
      on all keys exactly when they agree at the listed targets and no unmapped field is copied
      silently. */
  lemma DebugAgreesExactly(c: MappingConfig, data: Data)
    ensures Agrees(c, data) <==> TargetsAgree(c, data) && NoSilentCopy(c, data)
  {
    forall k
      ensures Targets(c.mappings, k) ==>
        (DebugLookup(c, data, k) == Lookup(c, data, k)
         <==> SameAtTarget(c, data, k, LastWrite(c, c.mappings, data, k), LastDebugWrite(c.mappings, data, k)))
      ensures !Targets(c.mappings, k) ==>
        (DebugLookup(c, data, k) == Lookup(c, data, k) <==> c.autoMapping || !Unmapped(c, data, k))
    {
      TargetAgrees(c, data, k);
    }
    if Agrees(c, data) {
      forall i | 0 <= i < |c.mappings|
        ensures var k := c.mappings[i].target;
          SameAtTarget(c, data, k, LastWrite(c, c.mappings, data, k), LastDebugWrite(c.mappings, data, k))
      {
        var k := c.mappings[i].target;
        assert Targets(c.mappings, k);
        assert DebugLookup(c, data, k) == Lookup(c, data, k);
      }
      if !c.autoMapping {
        forall k | Unmapped(c, data, k) ensures Targets(c.mappings, k) {
          assert DebugLookup(c, data, k) == Lookup(c, data, k);
        }
      }
    }
    if TargetsAgree(c, data) && NoSilentCopy(c, data) {
      forall k ensures DebugLookup(c, data, k) == Lookup(c, data, k) {
      }
    }
  }

  ghost predicate DistinctTargets(ms: seq<FieldMapping>) {
    forall i, j :: 0 <= i < j < |ms| ==> ms[i].target != ms[j].target
  }

  lemma {:induction false} OnlyWriter(c: MappingConfig, ms: seq<FieldMapping>, data: Data, i: nat)
    requires i < |ms| && DistinctTargets(ms)
    ensures LastWrite(c, ms, data, ms[i].target) == Fires(c, ms[i], data)
    ensures LastDebugWrite(ms, data, ms[i].target) == DebugFires(ms[i], data)
  {
    var init, m := ms[..|ms| - 1], ms[|ms| - 1];
    if i < |ms| - 1 {
      assert init[i] == ms[i];
      OnlyWriter(c, init, data, i);
    } else {
      assert !Targets(init, m.target);
      UntargetedIsUnwritten(c, init, data, m.target);
      UntargetedIsUnshown(init, data, m.target);
    }
  }

  /** Mapping by mapping, what each of the two would write. */
  ghost predicate MappingsAgree(c: MappingConfig, data: Data) {
    forall i :: 0 <= i < |c.mappings| ==>
      var m := c.mappings[i];
      SameAtTarget(c, data, m.target, Fires(c, m, data), DebugFires(m, data))
  }

  /** For a list that passes Validate the condition can be read off mapping by mapping. */
  lemma ValidListAgreesExactly(c: MappingConfig, data: Data)
    requires Valid(c.mappings)
    ensures Agrees(c, data) <==> MappingsAgree(c, data) && NoSilentCopy(c, data)
  {
    forall i | 0 <= i < |c.mappings|
      ensures LastWrite(c, c.mappings, data, c.mappings[i].target) == Fires(c, c.mappings[i], data)
      ensures LastDebugWrite(c.mappings, data, c.mappings[i].target) == DebugFires(c.mappings[i], data)
    {
      OnlyWriter(c, c.mappings, data, i);
    }
    DebugAgreesExactly(c, data);
  }

  /** Where every mapping fires alike, the debugger agrees with the mapper exactly when no mapping
      shadows an unmapped field. */
  lemma SameFiringAgreesExactly(c: MappingConfig, data: Data)
    requires SameFiring(c, data)
    ensures Agrees(c, data) <==> NoShadowing(c, data)
  {
    forall k ensures LastWrite(c, c.mappings, data, k) == LastDebugWrite(c.mappings, data, k) {
      SameWrites(c, c.mappings, data, k);
    }
    if Agrees(c, data) {
      forall k | k in data && !IsSource(c.mappings, k)
        ensures var w := LastWrite(c, c.mappings, data, k);
          if c.autoMapping then w.None? || w.value == data[k] else w.Some?
      {
        assert DebugLookup(c, data, k) == Lookup(c, data, k);
      }
    }
  }

  const NIL_TEXT := Str("<nil>")

  /** The mapping's transform turns a nil cell into text, which only the debugger applies to it. */
  predicate ShowsNil(m: FieldMapping) { m.transform != "" && ApplyBuiltin(Nil, m.transform).Some? }

  /** The default of the mapping, else that of the engine. */
  function DefaultOf(c: MappingConfig, m: FieldMapping): Option<Value> {
    if m.default_ != Nil then Some(m.default_)
    else if m.target in c.defaults then Some(c.defaults[m.target]) else None
  }

  lemma TransformsAreNotNil(v: Value, name: string)
    ensures ApplyBuiltin(v, name).Some? ==> ApplyBuiltin(v, name).value != Nil
  {
  }

  /** Exactly when one mapping fires differently in the two: for an absent field, through an engine
      default; for a nil cell, through any default, or through a text made of nil; else never. */
  lemma FiringDiffers(c: MappingConfig, m: FieldMapping, data: Data)
    ensures m.source !in data ==>
              (Fires(c, m, data) != DebugFires(m, data) <==> m.default_ == Nil && m.target in c.defaults)
    ensures m.source in data && data[m.source] == Nil ==>
              (Fires(c, m, data) != DebugFires(m, data) <==>
                 DefaultOf(c, m) != if ShowsNil(m) then Some(NIL_TEXT) else None)
    ensures m.source in data && data[m.source] != Nil ==> Fires(c, m, data) == DebugFires(m, data)
  {
    TransformsAreNotNil(Source(m, data), m.transform);
  }

  /** With auto-mapping on, no nil source cell, no engine defaults and no target naming an unmapped
      field of the record, the debugger shows what the mapper produces. */
  lemma DebugShowsTheMapping(c: MappingConfig, data: Data, shown: Data, mapped: Data)
    requires c.autoMapping && c.defaults == map[]
    requires forall i :: 0 <= i < |c.mappings| && c.mappings[i].source in data ==> data[c.mappings[i].source] != Nil
    requires forall k :: k in data && !IsSource(c.mappings, k) ==> !Targets(c.mappings, k)
    requires Holds(shown, k => DebugLookup(c, data, k)) && MapsTo(c, data, mapped)
    ensures shown == mapped
  {
    forall i | 0 <= i < |c.mappings|
      ensures Fires(c, c.mappings[i], data) == DebugFires(c.mappings[i], data)
    {
      FiringDiffers(c, c.mappings[i], data);
    }
    forall k | k in data && !IsSource(c.mappings, k)
      ensures LastWrite(c, c.mappings, data, k).None?
    {
      UntargetedIsUnwritten(c, c.mappings, data, k);
    }
    SameFiringAgreesExactly(c, data);
    assert forall k :: k in shown <==> k in mapped;
    assert forall k :: k in shown ==> shown[k] == mapped[k];
  }
}
