/** Reducing the invocations captured by one composition into the finished
    graph description (`CompleteCompositionContext`). */
module Completion {
  import opened Errors
  import opened Dicts
  import opened Handles

  /** A solid instance in the dependency map: definition name and instance name. */
  datatype SolidInstance = SolidInstance(name: string, alias: string)

  /** An input's upstream: instance name and output name. */
  datatype Dependency = Dependency(solidName: string, outputName: string)

  datatype CompleteContext<O> = CompleteContext(
    name: string,
    solidDefs: seq<SolidDefinition>,
    dependencies: map<SolidInstance, map<string, Dependency>>,
    inputMappings: seq<InputMapping>,
    outputMappings: O)

  function InstanceOf(inv: InvokedSolidNode): SolidInstance {
    SolidInstance(inv.solidDef.name, inv.solidName)
  }

  /** The dependency entry of one invocation: each bound input to the instance
      and output of the handle bound to it. */
  function DependencyEntry(inv: InvokedSolidNode): (deps: map<string, Dependency>)
    ensures deps.Keys == inv.inputBindings.entries.Keys
    ensures forall k :: k in deps ==>
      deps[k].solidName == inv.inputBindings.entries[k].solidName &&
      deps[k].outputName == inv.inputBindings.entries[k].outputName
  {
    map k | k in inv.inputBindings.entries ::
      Dependency(inv.inputBindings.entries[k].solidName, inv.inputBindings.entries[k].outputName)
  }

  /** The external-input mappings one invocation contributes, one per
      placeholder, in the order the placeholders were bound. */
  function MappingsOf(inv: InvokedSolidNode): seq<InputMapping> {
    var ms := inv.inputMappings;
    seq(|ms.keys|, i requires 0 <= i < |ms.keys| =>
      InputMapping(ms.entries[ms.keys[i]].inputDef, inv.solidName, ms.keys[i]))
  }

  /** The definitions recorded by name after the first `n` invocations, or the
      conflict that stopped the loop. */
  function DefsSeen(invs: seq<InvokedSolidNode>, n: nat): (r: Result<Dict<SolidDefinition>>)
    requires n <= |invs|
    ensures r.Err? ==> r.error.ConflictingDefinitions?
    ensures r.Ok? ==> forall k :: k in r.value.entries ==> r.value.entries[k].name == k
  {
    if n == 0 then Ok(Empty())
    else
      match DefsSeen(invs, n - 1)
      case Err(e) => Err(e)
      case Ok(d) =>
        var def := invs[n - 1].solidDef;
        if def.name in d.entries && d.entries[def.name] != def then Err(ConflictingDefinitions(def.name))
        else Ok(Put(d, def.name, def))
  }

  /** The dependency map after the first `n` invocations. */
  function Dependencies(invs: seq<InvokedSolidNode>, n: nat): map<SolidInstance, map<string, Dependency>>
    requires n <= |invs|
  {
    if n == 0 then map[]
    else Dependencies(invs, n - 1)[InstanceOf(invs[n - 1]) := DependencyEntry(invs[n - 1])]
  }

  /** The external-input mappings after the first `n` invocations. */
  function InputMappings(invs: seq<InvokedSolidNode>, n: nat): seq<InputMapping>
    requires n <= |invs|
  {
    if n == 0 then [] else InputMappings(invs, n - 1) + MappingsOf(invs[n - 1])
  }

  /** The completed graph of a composition named `name` whose invocations, in
      recording order, are `invs`. */
  function Assembled<O>(name: string, invs: seq<InvokedSolidNode>, output: O): (r: Result<CompleteContext<O>>)
    ensures r.Err? ==> r.error.ConflictingDefinitions?
    ensures r.Ok? ==> r.value.name == name && r.value.outputMappings == output
  {
    match DefsSeen(invs, |invs|)
    case Err(e) => Err(e)
    case Ok(d) =>
      Ok(CompleteContext(name, Values(d), Dependencies(invs, |invs|), InputMappings(invs, |invs|), output))
  }

  /** `CompleteCompositionContext.__new__`: one pass over the invocations. */
  method Assemble<O>(name: string, invs: seq<InvokedSolidNode>, output: O) returns (r: Result<CompleteContext<O>>)
    ensures r == Assembled(name, invs, output)
  {
    var depDict: map<SolidInstance, map<string, Dependency>> := map[];
    var solidDefDict: Dict<SolidDefinition> := Empty();
    var inputMappings: seq<InputMapping> := [];
    var i := 0;
    while i < |invs|
      invariant i <= |invs|
      invariant DefsSeen(invs, i) == Ok(solidDefDict)
      invariant depDict == Dependencies(invs, i)
      invariant inputMappings == InputMappings(invs, i)
    {
      var invocation := invs[i];
      var defName := invocation.solidDef.name;
      DefsSeenStep(invs, i, solidDefDict);
      AccumulatorsStep(invs, i);
      if defName in solidDefDict.entries && solidDefDict.entries[defName] != invocation.solidDef {
        ConflictPersists(invs, i + 1, |invs|);
        return Err(ConflictingDefinitions(defName));
      }
      solidDefDict := Put(solidDefDict, defName, invocation.solidDef);
      depDict := depDict[SolidInstance(defName, invocation.solidName) := DependencyEntry(invocation)];
      inputMappings := inputMappings + MappingsOf(invocation);
      i := i + 1;
    }
    return Ok(CompleteContext(name, Values(solidDefDict), depDict, inputMappings, output));
  }

  /** One step of the definition pass. */
  lemma DefsSeenStep(invs: seq<InvokedSolidNode>, i: nat, d: Dict<SolidDefinition>)
    requires i < |invs|
    requires DefsSeen(invs, i) == Ok(d)
    ensures var def := invs[i].solidDef;
      DefsSeen(invs, i + 1) ==
        if def.name in d.entries && d.entries[def.name] != def then Err(ConflictingDefinitions(def.name))
        else Ok(Put(d, def.name, def))
  {
  }

  /** One step of the dependency and input-mapping passes. */
  lemma AccumulatorsStep(invs: seq<InvokedSolidNode>, i: nat)
    requires i < |invs|
    ensures Dependencies(invs, i + 1) == Dependencies(invs, i)[InstanceOf(invs[i]) := DependencyEntry(invs[i])]
    ensures InputMappings(invs, i + 1) == InputMappings(invs, i) + MappingsOf(invs[i])
  {
  }

  /** Once a conflict is found, later invocations do not change the outcome. */
  lemma {:induction false} ConflictPersists(invs: seq<InvokedSolidNode>, n: nat, m: nat)
    requires n <= m <= |invs|
    requires DefsSeen(invs, n).Err?
    ensures DefsSeen(invs, m) == DefsSeen(invs, n)
    decreases m
  {
    if m > n {
      ConflictPersists(invs, n, m - 1);
    }
  }

  /** Two invocations among the first `n` use distinct definition objects with the same name. */
  ghost predicate Conflicting(invs: seq<InvokedSolidNode>, n: nat)
    requires n <= |invs|
  {
    exists i, j :: 0 <= i < n && 0 <= j < n &&
      invs[i].solidDef.name == invs[j].solidDef.name && invs[i].solidDef != invs[j].solidDef
  }

  /** After `n` invocations without conflict, each invocation's definition is
      the one recorded under its name, and every recorded name was invoked. */
  lemma {:induction false} DefsSeenRecords(invs: seq<InvokedSolidNode>, n: nat)
    requires n <= |invs|
    requires DefsSeen(invs, n).Ok?
    ensures var d := DefsSeen(invs, n).value;
      && (forall i :: 0 <= i < n ==> invs[i].solidDef.name in d.entries && d.entries[invs[i].solidDef.name] == invs[i].solidDef)
      && (forall k :: k in d.entries ==> exists i :: 0 <= i < n && invs[i].solidDef.name == k)
  {
    if n > 0 {
      DefsSeenRecords(invs, n - 1);
      var d := DefsSeen(invs, n - 1).value;
      var def := invs[n - 1].solidDef;
      var d' := Put(d, def.name, def);
      assert DefsSeen(invs, n) == Ok(d');
      forall k | k in d'.entries ensures exists i :: 0 <= i < n && invs[i].solidDef.name == k {
        if k != def.name {
          var i :| 0 <= i < n - 1 && invs[i].solidDef.name == k;
        } else {
          assert invs[n - 1].solidDef.name == k;
        }
      }
    }
  }

  /** The definitions recorded by name form a proper dict. */
  lemma {:induction false} DefsSeenWellformed(invs: seq<InvokedSolidNode>, n: nat)
    requires n <= |invs|
    requires DefsSeen(invs, n).Ok?
    ensures Wellformed(DefsSeen(invs, n).value)
  {
    if n > 0 {
      DefsSeenWellformed(invs, n - 1);
    }
  }

  /** A conflict found by the definition pass is a real one. */
  lemma {:induction false} DefsSeenErrConflicting(invs: seq<InvokedSolidNode>, n: nat)
    requires n <= |invs|
    requires DefsSeen(invs, n).Err?
    ensures Conflicting(invs, n)
  {
    var def := invs[n - 1].solidDef;
    if DefsSeen(invs, n - 1).Err? {
      DefsSeenErrConflicting(invs, n - 1);
      var i, j :| 0 <= i < n - 1 && 0 <= j < n - 1 &&
        invs[i].solidDef.name == invs[j].solidDef.name && invs[i].solidDef != invs[j].solidDef;
      assert Conflicting(invs, n);
    } else {
      DefsSeenRecords(invs, n - 1);
      var d := DefsSeen(invs, n - 1).value;
      assert def.name in d.entries && d.entries[def.name] != def;
      var i :| 0 <= i < n - 1 && invs[i].solidDef.name == def.name;
      assert invs[i].solidDef != invs[n - 1].solidDef;
      assert Conflicting(invs, n);
    }
  }

  /** The definition pass fails after `n` invocations exactly when two of them conflict. */
  lemma {:induction false} DefsSeenConflict(invs: seq<InvokedSolidNode>, n: nat)
    requires n <= |invs|
    ensures DefsSeen(invs, n).Err? <==> Conflicting(invs, n)
  {
    if DefsSeen(invs, n).Err? {
      DefsSeenErrConflicting(invs, n);
    } else {
      DefsSeenRecords(invs, n);
    }
  }

  /** The recorded names are in first-invoked order: any invocation of a later
      name comes after some invocation of each earlier one. */
  lemma {:induction false} DefsSeenOrder(invs: seq<InvokedSolidNode>, n: nat)
    requires n <= |invs|
    requires DefsSeen(invs, n).Ok?
    ensures var d := DefsSeen(invs, n).value;
      forall a, b, j :: 0 <= a < b < |d.keys| && 0 <= j < n && invs[j].solidDef.name == d.keys[b] ==>
        exists i :: 0 <= i < j && invs[i].solidDef.name == d.keys[a]
  {
    if n > 0 {
      DefsSeenOrder(invs, n - 1);
      DefsSeenRecords(invs, n - 1);
      var d := DefsSeen(invs, n - 1).value;
      var def := invs[n - 1].solidDef;
      var d' := Put(d, def.name, def);
      assert DefsSeen(invs, n) == Ok(d');
      forall a, b, j | 0 <= a < b < |d'.keys| && 0 <= j < n && invs[j].solidDef.name == d'.keys[b]
        ensures exists i :: 0 <= i < j && invs[i].solidDef.name == d'.keys[a]
      {
        assert d'.keys[a] == d.keys[a];
        assert d.keys[a] in d.entries;
        if j < n - 1 {
          if b < |d.keys| {
            assert d'.keys[b] == d.keys[b];
          }
        } else {
          var i :| 0 <= i < n - 1 && invs[i].solidDef.name == d.keys[a];
        }
      }
    }
  }

  /** Completion fails exactly when two invocations use distinct definition
      objects that share a name. */
  lemma ConflictDetected<O>(name: string, invs: seq<InvokedSolidNode>, output: O)
    ensures Assembled(name, invs, output).Err? <==> Conflicting(invs, |invs|)
  {
    DefsSeenConflict(invs, |invs|);
  }

  /** On success the graph lists each distinct definition once, and exactly the
      definitions that were invoked. */
  lemma OneDefinitionPerName<O>(name: string, invs: seq<InvokedSolidNode>, output: O)
    requires Assembled(name, invs, output).Ok?
    ensures var defs := Assembled(name, invs, output).value.solidDefs;
      && (forall a, b :: 0 <= a < b < |defs| ==> defs[a].name != defs[b].name)
      && (forall i :: 0 <= i < |invs| ==> invs[i].solidDef in defs)
      && (forall k :: 0 <= k < |defs| ==> exists i :: 0 <= i < |invs| && invs[i].solidDef == defs[k])
  {
    DefsSeenRecords(invs, |invs|);
    DefsSeenWellformed(invs, |invs|);
    var d := DefsSeen(invs, |invs|).value;
    var defs := Values(d);
    assert defs == Assembled(name, invs, output).value.solidDefs;
    forall a, b | 0 <= a < b < |defs| ensures defs[a].name != defs[b].name {
      assert d.keys[a] in d.entries && d.keys[b] in d.entries;
    }
    forall i | 0 <= i < |invs| ensures invs[i].solidDef in defs {
      var k := invs[i].solidDef.name;
      assert k in d.keys;
      var x :| 0 <= x < |d.keys| && d.keys[x] == k;
      assert defs[x] == invs[i].solidDef;
    }
    forall k | 0 <= k < |defs| ensures exists i :: 0 <= i < |invs| && invs[i].solidDef == defs[k] {
      assert d.keys[k] in d.entries;
      var i :| 0 <= i < |invs| && invs[i].solidDef.name == d.keys[k];
      assert invs[i].solidDef == defs[k];
    }
  }

  /** On success the definitions are listed in the order they were first
      invoked: any invocation of a later-listed definition comes after some
      invocation of each earlier-listed one. */
  lemma DefinitionsInFirstSeenOrder<O>(name: string, invs: seq<InvokedSolidNode>, output: O)
    requires Assembled(name, invs, output).Ok?
    ensures var defs := Assembled(name, invs, output).value.solidDefs;
      forall a, b, j :: 0 <= a < b < |defs| && 0 <= j < |invs| && invs[j].solidDef == defs[b] ==>
        exists i :: 0 <= i < j && invs[i].solidDef == defs[a]
  {
    DefsSeenRecords(invs, |invs|);
    DefsSeenOrder(invs, |invs|);
    var d := DefsSeen(invs, |invs|).value;
    var defs := Values(d);
    assert defs == Assembled(name, invs, output).value.solidDefs;
    forall a, b, j | 0 <= a < b < |defs| && 0 <= j < |invs| && invs[j].solidDef == defs[b]
      ensures exists i :: 0 <= i < j && invs[i].solidDef == defs[a]
    {
      assert d.keys[a] in d.entries && d.keys[b] in d.entries;
      assert invs[j].solidDef.name == d.keys[b];
      var i :| 0 <= i < j && invs[i].solidDef.name == d.keys[a];
      assert invs[i].solidDef == defs[a];
    }
  }

  /** A solid `A` with no inputs invoked as `a1`, then a solid `B` invoked as
      `b1` with its input `in` fed by output `out` of `a1`: the graph lists
      `A` then `B`, `b1` depends on `a1`'s `out`, and `a1` depends on nothing. */
  lemma TwoSolidChain(a: SolidDefinition, b: SolidDefinition)
    requires a.name == "A" && b.name == "B"
    ensures var invs := [InvokedSolidNode("a1", a, Empty(), Empty()),
                         InvokedSolidNode("b1", b, Put(Empty(), "in", OutputHandle("a1", "out")), Empty())];
      var r := Assembled("chain", invs, 0);
      && r.Ok?
      && r.value.solidDefs == [a, b]
      && r.value.dependencies == map[SolidInstance("A", "a1") := map[],
                                     SolidInstance("B", "b1") := map["in" := Dependency("a1", "out")]]
      && r.value.inputMappings == []
  {
    var invs := [InvokedSolidNode("a1", a, Empty(), Empty()),
                 InvokedSolidNode("b1", b, Put(Empty(), "in", OutputHandle("a1", "out")), Empty())];
    var d1 := Put(Empty(), "A", a);
    assert DefsSeen(invs, 1) == Ok(d1);
    assert "B" !in d1.entries;
    var d2 := Put(d1, "B", b);
    assert DefsSeen(invs, 2) == Ok(d2);
    assert d2.keys == ["A", "B"];
    assert Values(d2) == [a, b];
    assert DependencyEntry(invs[0]) == map[];
    assert DependencyEntry(invs[1]) == map["in" := Dependency("a1", "out")];
    var deps := map[SolidInstance("A", "a1") := map[], SolidInstance("B", "b1") := map["in" := Dependency("a1", "out")]];
    AccumulatorsStep(invs, 0);
    AccumulatorsStep(invs, 1);
    assert Dependencies(invs, 2) == deps;
    assert MappingsOf(invs[0]) == [] && MappingsOf(invs[1]) == [];
    assert InputMappings(invs, 2) == [];
    assert Assembled("chain", invs, 0) == Ok(CompleteContext("chain", [a, b], deps, [], 0));
  }

  /** No two invocations share an instance name (a composition context keys
      its invocations by instance name). */
  ghost predicate DistinctInstances(invs: seq<InvokedSolidNode>) {
    forall i, j :: 0 <= i < j < |invs| ==> invs[i].solidName != invs[j].solidName
  }

  lemma {:induction false} DependenciesFacts(invs: seq<InvokedSolidNode>, n: nat)
    requires n <= |invs|
    requires DistinctInstances(invs)
    ensures Dependencies(invs, n).Keys == set i | 0 <= i < n :: InstanceOf(invs[i])
    ensures forall i :: 0 <= i < n ==> Dependencies(invs, n)[InstanceOf(invs[i])] == DependencyEntry(invs[i])
  {
    if n > 0 {
      DependenciesFacts(invs, n - 1);
      forall i | 0 <= i < n - 1 ensures InstanceOf(invs[i]) != InstanceOf(invs[n - 1]) {
        assert invs[i].solidName != invs[n - 1].solidName;
      }
    }
  }

  /** The dependency map has exactly one key per invocation, mapping each bound
      input to the instance and output of its handle. */
  lemma DependenciesPerInvocation<O>(name: string, invs: seq<InvokedSolidNode>, output: O)
    requires DistinctInstances(invs)
    requires Assembled(name, invs, output).Ok?
    ensures var deps := Assembled(name, invs, output).value.dependencies;
      && deps.Keys == (set i | 0 <= i < |invs| :: SolidInstance(invs[i].solidDef.name, invs[i].solidName))
      && (forall i :: 0 <= i < |invs| ==>
            var entry := deps[SolidInstance(invs[i].solidDef.name, invs[i].solidName)];
            && entry.Keys == invs[i].inputBindings.entries.Keys
            && forall k :: k in entry ==>
                 entry[k] == Dependency(invs[i].inputBindings.entries[k].solidName,
                                        invs[i].inputBindings.entries[k].outputName))
  {
    DependenciesFacts(invs, |invs|);
  }

  /** The number of placeholders bound in the first `n` invocations. */
  function PlaceholderCount(invs: seq<InvokedSolidNode>, n: nat): nat
    requires n <= |invs|
  {
    if n == 0 then 0 else PlaceholderCount(invs, n - 1) + |invs[n - 1].inputMappings.keys|
  }

  lemma MappingsOfFacts(inv: InvokedSolidNode)
    requires Wellformed(inv.inputMappings)
    ensures |MappingsOf(inv)| == |inv.inputMappings.keys|
    ensures forall x :: x in MappingsOf(inv) <==>
      exists k :: k in inv.inputMappings.entries &&
        x == InputMapping(inv.inputMappings.entries[k].inputDef, inv.solidName, k)
  {
    var ms := inv.inputMappings;
    forall x | x in MappingsOf(inv)
      ensures exists k :: k in ms.entries && x == InputMapping(ms.entries[k].inputDef, inv.solidName, k)
    {
      var i :| 0 <= i < |MappingsOf(inv)| && MappingsOf(inv)[i] == x;
      assert ms.keys[i] in ms.entries;
    }
    forall k | k in ms.entries
      ensures InputMapping(ms.entries[k].inputDef, inv.solidName, k) in MappingsOf(inv)
    {
      var i :| 0 <= i < |ms.keys| && ms.keys[i] == k;
      assert MappingsOf(inv)[i] == InputMapping(ms.entries[k].inputDef, inv.solidName, k);
    }
  }

  lemma {:induction false} InputMappingsFacts(invs: seq<InvokedSolidNode>, n: nat)
    requires n <= |invs|
    requires forall i :: 0 <= i < |invs| ==> Wellformed(invs[i].inputMappings)
    ensures |InputMappings(invs, n)| == PlaceholderCount(invs, n)
    ensures forall x :: x in InputMappings(invs, n) <==>
      exists i, k :: 0 <= i < n && k in invs[i].inputMappings.entries &&
        x == InputMapping(invs[i].inputMappings.entries[k].inputDef, invs[i].solidName, k)
  {
    if n > 0 {
      InputMappingsFacts(invs, n - 1);
      MappingsOfFacts(invs[n - 1]);
      forall x | x in InputMappings(invs, n)
        ensures exists i, k :: (0 <= i < n && k in invs[i].inputMappings.entries &&
          x == InputMapping(invs[i].inputMappings.entries[k].inputDef, invs[i].solidName, k))
      {
        if x !in InputMappings(invs, n - 1) {
          assert x in MappingsOf(invs[n - 1]);
        }
      }
      forall i, k | 0 <= i < n && k in invs[i].inputMappings.entries
        ensures InputMapping(invs[i].inputMappings.entries[k].inputDef, invs[i].solidName, k) in InputMappings(invs, n)
      {
        var x := InputMapping(invs[i].inputMappings.entries[k].inputDef, invs[i].solidName, k);
        if i < n - 1 {
          assert x in InputMappings(invs, n - 1);
        } else {
          assert x in MappingsOf(invs[n - 1]);
        }
      }
    }
  }

  /** The external-input mappings hold one entry per placeholder bound in any
      invocation, routing the placeholder's input to that instance and input. */
  lemma InputMappingsPerPlaceholder<O>(name: string, invs: seq<InvokedSolidNode>, output: O)
    requires forall i :: 0 <= i < |invs| ==> Wellformed(invs[i].inputMappings)
    requires Assembled(name, invs, output).Ok?
    ensures var ms := Assembled(name, invs, output).value.inputMappings;
      && |ms| == PlaceholderCount(invs, |invs|)
      && forall x :: x in ms <==>
           exists i, k :: 0 <= i < |invs| && k in invs[i].inputMappings.entries &&
             x == InputMapping(invs[i].inputMappings.entries[k].inputDef, invs[i].solidName, k)
  {
    InputMappingsFacts(invs, |invs|);
  }
}
