/** The in-progress composition context and the stack of contexts being built.
    The process-wide list `_composition_stack` becomes a `CompositionStack`
    object that the caller passes around. */
module Contexts {
  import opened Errors
  import opened Dicts
  import opened Handles
  import opened Completion

  /** What an invocation sees of the current context: the names its errors
      report and the instance names already invoked. */
  datatype Scope = Scope(name: string, source: string, seen: set<string>)

  /** The invocations captured by one composition function (a composite solid
      or a pipeline), keyed by instance name in the order they were made. */
  class InProgressContext {
    const name: string
    const source: string
    var invocations: Dict<InvokedSolidNode>

    /** Each invocation is recorded under its own instance name. */
    ghost predicate Valid()
      reads this
    {
      && Wellformed(invocations)
      && forall k :: k in invocations.entries ==> invocations.entries[k].solidName == k
    }

    /** What an invocation made in this context sees of it. */
    function View(): Scope
      reads this
    {
      Scope(name, source, invocations.entries.Keys)
    }

    constructor (name: string, source: string)
      ensures Valid()
      ensures this.name == name && this.source == source
      ensures invocations == Empty()
    {
      this.name := name;
      this.source := source;
      invocations := Empty();
    }

    function HasSeenInvocation(solidName: string): (seen: bool)
      requires Valid()
      reads this
      ensures seen <==> solidName in invocations.entries
      ensures seen <==> exists i :: 0 <= i < |Values(invocations)| && Values(invocations)[i].solidName == solidName
    {
      SeenAmongRecorded(invocations, solidName);
      solidName in invocations.entries
    }

    method ObserveInvocation(invocation: InvokedSolidNode)
      requires Valid()
      modifies this
      ensures Valid()
      ensures invocations == Put(old(invocations), invocation.solidName, invocation)
      ensures View() == old(View()).(seen := old(View()).seen + {invocation.solidName})
    {
      invocations := Put(invocations, invocation.solidName, invocation);
      assert invocations.entries.Keys == old(invocations.entries.Keys) + {invocation.solidName};
    }

    method Complete<O>(output: O) returns (r: Result<CompleteContext<O>>)
      ensures r == Assembled(name, Values(invocations), output)
    {
      r := Assemble(name, Values(invocations), output);
    }
  }

  /** In a dict that stores each invocation under its own instance name, a name
      is a key exactly when some recorded invocation carries it. */
  lemma SeenAmongRecorded(d: Dict<InvokedSolidNode>, solidName: string)
    requires Wellformed(d)
    requires forall k :: k in d.entries ==> d.entries[k].solidName == k
    ensures solidName in d.entries <==> exists i :: 0 <= i < |Values(d)| && Values(d)[i].solidName == solidName
  {
    var vs := Values(d);
    if solidName in d.entries {
      var i :| 0 <= i < |d.keys| && d.keys[i] == solidName;
      assert vs[i].solidName == solidName;
    } else {
      assert forall i :: 0 <= i < |vs| ==> d.keys[i] in d.entries;
    }
  }

  /** The invocations of a context never share an instance name. */
  lemma RecordedInstancesDistinct(c: InProgressContext)
    requires c.Valid()
    ensures DistinctInstances(Values(c.invocations))
  {
    var d := c.invocations;
    forall i, j | 0 <= i < j < |d.keys| ensures Values(d)[i].solidName != Values(d)[j].solidName {
      assert d.keys[i] in d.entries && d.keys[j] in d.entries;
    }
  }

  class CompositionStack {
    var contexts: seq<InProgressContext>

    ghost predicate Valid()
      reads this, contexts
    {
      && (forall i, j :: 0 <= i < j < |contexts| ==> contexts[i] != contexts[j])
      && (forall i :: 0 <= i < |contexts| ==> contexts[i].Valid())
    }

    constructor ()
      ensures Valid() && contexts == []
    {
      contexts := [];
    }

    /** `current_context()`: the top of the stack, if there is one. */
    function CurrentContext(): (c: Option<InProgressContext>)
      reads this
      ensures c.None? <==> contexts == []
      ensures c.Some? ==> c.value == contexts[|contexts| - 1]
    {
      if contexts == [] then None else Some(contexts[|contexts| - 1])
    }

    /** What the current context shows an invocation. */
    function CurrentScope(): Option<Scope>
      reads this, contexts
    {
      if contexts == [] then None else Some(contexts[|contexts| - 1].View())
    }

    /** `current_context().observe_invocation(invocation)`: record the
        invocation in the top context; no other context changes. */
    method ObserveInCurrent(invocation: InvokedSolidNode)
      requires Valid() && contexts != []
      modifies contexts[|contexts| - 1]
      ensures Valid()
      ensures contexts[|contexts| - 1].invocations ==
        Put(old(contexts[|contexts| - 1].invocations), invocation.solidName, invocation)
    {
      var top := contexts[|contexts| - 1];
      top.ObserveInvocation(invocation);
      forall i | 0 <= i < |contexts| - 1 ensures contexts[i].Valid() {
        assert contexts[i] != top;
      }
    }

    /** `enter_composition`: push one fresh, empty context. */
    method Enter(name: string, source: string)
      requires Valid()
      modifies this
      ensures Valid()
      ensures |contexts| == |old(contexts)| + 1 && contexts[..|old(contexts)|] == old(contexts)
      ensures var top := contexts[|contexts| - 1];
        fresh(top) && top.name == name && top.source == source && top.invocations == Empty()
    {
      var c := new InProgressContext(name, source);
      contexts := contexts + [c];
    }

    /** `exit_composition`: pop the top context and complete it. */
    method Exit<O>(output: O) returns (r: Result<CompleteContext<O>>)
      requires Valid()
      modifies this
      ensures Valid()
      ensures old(contexts) == [] ==> r == Err(EmptyStack) && contexts == []
      ensures old(contexts) != [] ==>
        && contexts == old(contexts)[..|old(contexts)| - 1]
        && r == Assembled(old(contexts[|contexts| - 1].name), Values(old(contexts[|contexts| - 1].invocations)), output)
    {
      if contexts == [] {
        return Err(EmptyStack);
      }
      var top := contexts[|contexts| - 1];
      contexts := contexts[..|contexts| - 1];
      r := top.Complete(output);
    }
  }

  /** An `enter_composition` followed at once by `exit_composition` leaves the
      stack as it was and completes an empty graph. */
  method EnterExitBalanced<O>(stack: CompositionStack, name: string, source: string, output: O)
    returns (r: Result<CompleteContext<O>>)
    requires stack.Valid()
    modifies stack
    ensures stack.Valid() && stack.contexts == old(stack.contexts)
    ensures r == Ok(CompleteContext(name, [], map[], [], output))
  {
    stack.Enter(name, source);
    r := stack.Exit(output);
    assert Values(Empty<SolidDefinition>()) == [];
  }
}
