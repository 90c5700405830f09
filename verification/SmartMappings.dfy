/** `BuildSmartMappings`: existing mappings, completed by same-named source and target fields. */
module SmartMappings {
  import opened Wrappers
  import opened Records
  import opened Strings
  import opened Mapping

  predicate UsesSource(ms: seq<FieldMapping>, src: string) {
    exists i :: 0 <= i < |ms| && Lower(ms[i].source) == Lower(src)
  }

  predicate UsesTarget(ms: seq<FieldMapping>, name: string) {
    exists i :: 0 <= i < |ms| && Lower(ms[i].target) == Lower(name)
  }

  /** The last target field of that name, ignoring case. */
  function TargetNamed(targets: seq<string>, name: string): Option<string> {
    if targets == [] then None
    else if Lower(targets[|targets| - 1]) == Lower(name) then Some(targets[|targets| - 1])
    else TargetNamed(targets[..|targets| - 1], name)
  }

  predicate IsAdded(targets: seq<string>, existing: seq<FieldMapping>, src: string) {
    !UsesSource(existing, src) && TargetNamed(targets, src).Some? && !UsesTarget(existing, src)
  }

  function Added(sources: seq<string>, targets: seq<string>, existing: seq<FieldMapping>): seq<FieldMapping> {
    if sources == [] then []
    else
      var src := sources[|sources| - 1];
      Added(sources[..|sources| - 1], targets, existing)
      + if IsAdded(targets, existing, src)
        then [FieldMapping(src, TargetNamed(targets, src).value, "", Nil, false)] else []
  }

  function Smart(sources: seq<string>, targets: seq<string>, existing: seq<FieldMapping>): seq<FieldMapping> {
    existing + Added(sources, targets, existing)
  }

  method LoweredFields(existing: seq<FieldMapping>) returns (targets: set<string>, sources: set<string>)
    ensures forall t :: t in targets <==> exists i :: 0 <= i < |existing| && Lower(existing[i].target) == t
    ensures forall s :: s in sources <==> exists i :: 0 <= i < |existing| && Lower(existing[i].source) == s
  {
    targets, sources := {}, {};
    for i := 0 to |existing|
      invariant forall t :: t in targets <==> exists j :: 0 <= j < i && Lower(existing[j].target) == t
      invariant forall s :: s in sources <==> exists j :: 0 <= j < i && Lower(existing[j].source) == s
    {
      targets := targets + {Lower(existing[i].target)};
      sources := sources + {Lower(existing[i].source)};
    }
  }

  method BuildSmartMappings(sources: seq<string>, targets: seq<string>, existing: seq<FieldMapping>)
    returns (result: seq<FieldMapping>)
    ensures result == Smart(sources, targets, existing)
  {
    var explicitTargets, explicitSources := LoweredFields(existing);
    var targetSet: map<string, string> := map[];
    for i := 0 to |targets|
      invariant forall n :: Lower(n) in targetSet <==> TargetNamed(targets[..i], n).Some?
      invariant forall n :: Lower(n) in targetSet ==> TargetNamed(targets[..i], n) == Some(targetSet[Lower(n)])
    {
      assert targets[..i + 1][..i] == targets[..i];
      targetSet := targetSet[Lower(targets[i]) := targets[i]];
    }
    assert targets[..|targets|] == targets;
    result := existing;
    for i := 0 to |sources|
      invariant result == existing + Added(sources[..i], targets, existing)
    {
      var src := sources[i];
      assert sources[..i + 1][..i] == sources[..i];
      if Lower(src) !in explicitSources {
        if Lower(src) in targetSet && Lower(src) !in explicitTargets {
          result := result + [FieldMapping(src, targetSet[Lower(src)], "", Nil, false)];
        }
      }
    }
    assert sources[..|sources|] == sources;
  }

  lemma {:induction false} TargetNamedMatches(targets: seq<string>, name: string)
    ensures var t := TargetNamed(targets, name); t.Some? ==> t.value in targets && Lower(t.value) == Lower(name)
    ensures TargetNamed(targets, name).None? <==> forall i :: 0 <= i < |targets| ==> Lower(targets[i]) != Lower(name)
  {
    if targets != [] {
      var init := targets[..|targets| - 1];
      TargetNamedMatches(init, name);
      assert forall i :: 0 <= i < |init| ==> init[i] == targets[i];
    }
  }

  /** Every added mapping names a listed source and a target equal to it ignoring case, neither of
      them used by the existing mappings. */
  lemma {:induction false} AddedFacts(sources: seq<string>, targets: seq<string>, existing: seq<FieldMapping>)
    ensures forall m :: m in Added(sources, targets, existing) ==>
      m.source in sources && m.target in targets && Lower(m.source) == Lower(m.target)
      && IsAdded(targets, existing, m.source)
    ensures forall s :: s in sources && IsAdded(targets, existing, s) ==>
      exists m :: m in Added(sources, targets, existing) && m.source == s
  {
    if sources != [] {
      var init, src := sources[..|sources| - 1], sources[|sources| - 1];
      AddedFacts(init, targets, existing);
      TargetNamedMatches(targets, src);
      assert sources == init + [src];
      var rest := Added(init, targets, existing);
      forall s | s in sources && IsAdded(targets, existing, s)
        ensures exists m :: m in Added(sources, targets, existing) && m.source == s
      {
        if s in init {
          var m :| m in rest && m.source == s;
          assert m in Added(sources, targets, existing);
        } else {
          var m := FieldMapping(src, TargetNamed(targets, src).value, "", Nil, false);
          assert m in Added(sources, targets, existing);
        }
      }
    }
  }

  ghost predicate DistinctIgnoringCase(names: seq<string>) {
    forall i, j :: 0 <= i < j < |names| ==> Lower(names[i]) != Lower(names[j])
  }

  predicate SameTarget(a: FieldMapping, b: FieldMapping) { Lower(a.target) == Lower(b.target) }

  ghost predicate TargetsDistinct(ms: seq<FieldMapping>) {
    forall i, j :: 0 <= i < j < |ms| ==> !SameTarget(ms[i], ms[j])
  }

  lemma {:induction false} AddedTargetsDistinct(sources: seq<string>, targets: seq<string>, existing: seq<FieldMapping>)
    requires DistinctIgnoringCase(sources)
    ensures TargetsDistinct(Added(sources, targets, existing))
  {
    if sources != [] {
      var init, src := sources[..|sources| - 1], sources[|sources| - 1];
      AddedTargetsDistinct(init, targets, existing);
      AddedFacts(init, targets, existing);
      TargetNamedMatches(targets, src);
      var rest, a := Added(init, targets, existing), Added(sources, targets, existing);
      forall i | 0 <= i < |rest|
        ensures Lower(rest[i].target) != Lower(src)
        ensures IsAdded(targets, existing, src) ==> !SameTarget(rest[i], a[|rest|])
      {
        assert rest[i] in rest;
        var k :| 0 <= k < |init| && init[k] == rest[i].source;
        assert Lower(sources[k]) != Lower(sources[|sources| - 1]);
      }
    }
  }

  lemma {:induction false} NothingAdded(sources: seq<string>, targets: seq<string>, existing: seq<FieldMapping>)
    requires forall s :: s in sources ==> !IsAdded(targets, existing, s)
    ensures Added(sources, targets, existing) == []
  {
    if sources != [] {
      assert sources[|sources| - 1] in sources;
      NothingAdded(sources[..|sources| - 1], targets, existing);
    }
  }

  lemma UsesMore(ms: seq<FieldMapping>, more: seq<FieldMapping>, name: string)
    ensures UsesSource(ms, name) ==> UsesSource(ms + more, name)
    ensures UsesTarget(ms, name) ==> UsesTarget(ms + more, name)
  {
    if UsesSource(ms, name) {
      var i :| 0 <= i < |ms| && Lower(ms[i].source) == Lower(name);
      assert (ms + more)[i] == ms[i];
    }
    if UsesTarget(ms, name) {
      var i :| 0 <= i < |ms| && Lower(ms[i].target) == Lower(name);
      assert (ms + more)[i] == ms[i];
    }
  }

  /** The existing mappings stay in front, and a second pass adds nothing. */
  lemma SmartIdempotent(sources: seq<string>, targets: seq<string>, existing: seq<FieldMapping>)
    ensures existing <= Smart(sources, targets, existing)
    ensures Smart(sources, targets, Smart(sources, targets, existing)) == Smart(sources, targets, existing)
  {
    var once := Smart(sources, targets, existing);
    forall s | s in sources ensures !IsAdded(targets, once, s) {
      AddedFacts(sources, targets, existing);
      if IsAdded(targets, existing, s) {
        var m :| m in Added(sources, targets, existing) && m.source == s;
        assert m in once;
        var i :| 0 <= i < |once| && once[i] == m;
        assert UsesSource(once, s);
      } else {
        UsesMore(existing, Added(sources, targets, existing), s);
      }
    }
    NothingAdded(sources, targets, once);
  }

  /** A valid list stays valid, and no added target equals any other target, ignoring case. */
  lemma SmartKeepsValid(sources: seq<string>, targets: seq<string>, existing: seq<FieldMapping>)
    requires Valid(existing) && DistinctIgnoringCase(sources) && forall s :: s in sources ==> s != ""
    ensures var r := Smart(sources, targets, existing);
      && Valid(r)
      && forall i, j :: 0 <= i < |r| && |existing| <= j < |r| && i != j ==> Lower(r[i].target) != Lower(r[j].target)
  {
    var a := Added(sources, targets, existing);
    var r := Smart(sources, targets, existing);
    AddedFacts(sources, targets, existing);
    AddedTargetsDistinct(sources, targets, existing);
    forall i, j | 0 <= i < |r| && |existing| <= j < |r| && i != j
      ensures Lower(r[i].target) != Lower(r[j].target)
    {
      assert r[j] == a[j - |existing|] && r[j] in a;
      assert Lower(r[j].source) == Lower(r[j].target) && IsAdded(targets, existing, r[j].source);
      if i < |existing| {
        assert r[i] == existing[i];
        assert Lower(existing[i].target) != Lower(r[j].source);
      } else if i < j {
        assert r[i] == a[i - |existing|];
        assert !SameTarget(a[i - |existing|], a[j - |existing|]);
      } else {
        assert r[i] == a[i - |existing|];
        assert !SameTarget(a[j - |existing|], a[i - |existing|]);
      }
    }
    forall j | |existing| <= j < |r| ensures r[j].source != "" && r[j].target != "" {
      assert r[j] in a;
      assert |Lower(r[j].source)| == |r[j].source| && |Lower(r[j].target)| == |r[j].target|;
    }
    forall i, j | 0 <= i < j < |r| ensures r[i].target != r[j].target {
      if j >= |existing| {
        assert Lower(r[i].target) != Lower(r[j].target);
      } else {
        assert r[i] == existing[i] && r[j] == existing[j];
      }
    }
  }
}
