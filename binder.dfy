/** Invoking a solid inside a composition function (`CallableSolidNode`): the
    arguments are sorted into input bindings and input mappings, the invocation
    is recorded in the current context, and handles to the solid's outputs are
    returned. */
module Binder {
  import opened Errors
  import opened Dicts
  import opened Handles
  import opened Completion
  import opened Contexts

  /** A value passed to a solid invocation. `Tuple` is a named tuple: the name
      of its class, its field names and its items; `EmptyContext` is the `EmptySolidContext` sentinel; `Other`
      is any other value, by the name of its type. */
  datatype Arg =
    | Handle(handle: OutputHandle)
    | Mapping(node: InputMappingNode)
    | Tuple(typeName: string, fields: seq<string>, items: seq<Arg>)
    | EmptyContext
    | Other(typeName: string)

  /** What an invocation returns: `None`, one handle, or a named tuple of
      handles, given here as (output name, handle) pairs in field order. */
  datatype CallResult =
    | NoOutputs
    | SingleOutput(handle: OutputHandle)
    | NamedOutputs(typeName: string, outputs: seq<(string, OutputHandle)>)

  /** The two dictionaries an invocation fills from its arguments. */
  datatype Bindings = Bindings(inputBindings: Dict<OutputHandle>, inputMappings: Dict<InputMappingNode>)

  /** A successful invocation: the record kept by the context and the value returned. */
  datatype Invocation = Invocation(node: InvokedSolidNode, returned: CallResult)

  function NoBindings(): Bindings {
    Bindings(Empty(), Empty())
  }

  predicate Acceptable(arg: Arg) {
    arg.Handle? || arg.Mapping?
  }

  predicate AllHandles(items: seq<Arg>) {
    forall i :: 0 <= i < |items| ==> items[i].Handle?
  }

  function TypeName(arg: Arg): string {
    match arg
    case Handle(_) => "InvokedSolidOutputHandle"
    case Mapping(_) => "InputMappingNode"
    case Tuple(t, _, _) => t
    case EmptyContext => "EmptySolidContext"
    case Other(t) => t
  }

  /** The error raised for an argument that is neither a handle nor a placeholder. */
  function ArgumentError(scope: Scope, solidName: string, inputName: string, arg: Arg, site: Site): Error
    requires !Acceptable(arg)
  {
    if arg.Tuple? && AllHandles(arg.items) then
      MultiOutputNotUnpacked(scope.source, scope.name, solidName, inputName, site, arg.fields)
    else
      InvalidInputType(scope.source, scope.name, solidName, inputName, site, TypeName(arg))
  }

  /** Sort one argument for input `inputName`. */
  function Classify(scope: Scope, solidName: string, b: Bindings, inputName: string, arg: Arg, site: Site): (r: Result<Bindings>)
    ensures r.Ok? <==> Acceptable(arg)
    ensures arg.Handle? ==>
      && r.Ok?
      && r.value.inputBindings.entries == b.inputBindings.entries[inputName := arg.handle]
      && r.value.inputMappings == b.inputMappings
    ensures arg.Mapping? ==>
      && r.Ok?
      && r.value.inputMappings.entries == b.inputMappings.entries[inputName := arg.node]
      && r.value.inputBindings == b.inputBindings
    ensures arg.Tuple? && AllHandles(arg.items) ==>
      r == Err(MultiOutputNotUnpacked(scope.source, scope.name, solidName, inputName, site, arg.fields))
    ensures !Acceptable(arg) && !(arg.Tuple? && AllHandles(arg.items)) ==>
      r == Err(InvalidInputType(scope.source, scope.name, solidName, inputName, site, TypeName(arg)))
  {
    match arg
    case Handle(h) => Ok(b.(inputBindings := Put(b.inputBindings, inputName, h)))
    case Mapping(m) => Ok(b.(inputMappings := Put(b.inputMappings, inputName, m)))
    case _ => Err(ArgumentError(scope, solidName, inputName, arg, site))
  }

  /** 1 when the first positional argument is the sentinel, which is skipped. */
  function Offset(args: seq<Arg>): nat {
    if |args| > 0 && args[0].EmptyContext? then 1 else 0
  }

  /** Handle positional argument `idx`, given the bindings of the ones before it. */
  function PositionalStep(solidDef: SolidDefinition, scope: Scope, solidName: string,
                          args: seq<Arg>, idx: nat, b: Bindings): Result<Bindings>
    requires idx < |args|
  {
    if idx == 0 && args[0].EmptyContext? then Ok(b)
    else if idx - Offset(args) >= |solidDef.inputNames| then
      Err(TooManyInputs(scope.source, scope.name, solidName, |solidDef.inputNames|, |args|))
    else
      Classify(scope, solidName, b, solidDef.inputNames[idx - Offset(args)], args[idx], AtPosition(idx))
  }

  /** The bindings after the first `n` positional arguments. */
  function BindPositional(solidDef: SolidDefinition, scope: Scope, solidName: string,
                          args: seq<Arg>, n: nat): (r: Result<Bindings>)
    requires n <= |args|
    ensures r.Err? ==> r.error.TooManyInputs? || r.error.MultiOutputNotUnpacked? || r.error.InvalidInputType?
  {
    if n == 0 then Ok(NoBindings())
    else
      match BindPositional(solidDef, scope, solidName, args, n - 1)
      case Err(e) => Err(e)
      case Ok(b) => PositionalStep(solidDef, scope, solidName, args, n - 1, b)
  }

  /** The bindings after the first `n` keyword arguments, starting from `start`. */
  function BindKeywords(scope: Scope, solidName: string, kwargs: Dict<Arg>, n: nat, start: Bindings): (r: Result<Bindings>)
    requires n <= |kwargs.keys|
    ensures r.Err? ==> r.error.MultiOutputNotUnpacked? || r.error.InvalidInputType?
  {
    if n == 0 then Ok(start)
    else
      match BindKeywords(scope, solidName, kwargs, n - 1, start)
      case Err(e) => Err(e)
      case Ok(b) =>
        var k := kwargs.keys[n - 1];
        assert k in kwargs.keys;
        Classify(scope, solidName, b, k, kwargs.entries[k], ByKeyword)
  }

  /** The bindings of a whole argument list: positional arguments first, then keywords. */
  function BindArguments(solidDef: SolidDefinition, scope: Scope, solidName: string,
                         args: seq<Arg>, kwargs: Dict<Arg>): Result<Bindings>
  {
    match BindPositional(solidDef, scope, solidName, args, |args|)
    case Err(e) => Err(e)
    case Ok(b) => BindKeywords(scope, solidName, kwargs, |kwargs.keys|, b)
  }

  /** The positional-argument loop of `CallableSolidNode.__call__`. */
  method CollectPositional(solidDef: SolidDefinition, scope: Scope, solidName: string, args: seq<Arg>)
    returns (r: Result<Bindings>)
    ensures r == BindPositional(solidDef, scope, solidName, args, |args|)
  {
    var inputBindings: Dict<OutputHandle> := Empty();
    var inputMappings: Dict<InputMappingNode> := Empty();
    var defIdx := 0;
    var idx := 0;
    while idx < |args|
      invariant idx <= |args|
      invariant defIdx == if idx == 0 then 0 else idx - Offset(args)
      invariant BindPositional(solidDef, scope, solidName, args, idx) == Ok(Bindings(inputBindings, inputMappings))
    {
      var arg := args[idx];
      PositionalUnfold(solidDef, scope, solidName, args, idx, Bindings(inputBindings, inputMappings));
      if idx == 0 && arg.EmptyContext? {
        idx := idx + 1;
        continue;
      }
      if defIdx >= |solidDef.inputNames| {
        PositionalErrPersists(solidDef, scope, solidName, args, idx + 1, |args|);
        return Err(TooManyInputs(scope.source, scope.name, solidName, |solidDef.inputNames|, |args|));
      }
      var inputName := solidDef.inputNames[defIdx];
      defIdx := defIdx + 1;
      if arg.Handle? {
        inputBindings := Put(inputBindings, inputName, arg.handle);
      } else if arg.Mapping? {
        inputMappings := Put(inputMappings, inputName, arg.node);
      } else {
        PositionalErrPersists(solidDef, scope, solidName, args, idx + 1, |args|);
        return Err(ArgumentError(scope, solidName, inputName, arg, AtPosition(idx)));
      }
      idx := idx + 1;
    }
    return Ok(Bindings(inputBindings, inputMappings));
  }

  /** The keyword-argument loop of `CallableSolidNode.__call__`, continuing from
      the bindings `start` of the positional arguments. */
  method CollectKeywords(scope: Scope, solidName: string, kwargs: Dict<Arg>, start: Bindings)
    returns (r: Result<Bindings>)
    ensures r == BindKeywords(scope, solidName, kwargs, |kwargs.keys|, start)
  {
    var inputBindings, inputMappings := start.inputBindings, start.inputMappings;
    var j := 0;
    while j < |kwargs.keys|
      invariant j <= |kwargs.keys|
      invariant BindKeywords(scope, solidName, kwargs, j, start) == Ok(Bindings(inputBindings, inputMappings))
    {
      var inputName := kwargs.keys[j];
      var arg := kwargs.entries[inputName];
      KeywordUnfold(scope, solidName, kwargs, j, start, Bindings(inputBindings, inputMappings));
      if arg.Handle? {
        inputBindings := Put(inputBindings, inputName, arg.handle);
      } else if arg.Mapping? {
        inputMappings := Put(inputMappings, inputName, arg.node);
      } else {
        KeywordErrPersists(scope, solidName, kwargs, start, j + 1, |kwargs.keys|);
        return Err(ArgumentError(scope, solidName, inputName, arg, ByKeyword));
      }
      j := j + 1;
    }
    return Ok(Bindings(inputBindings, inputMappings));
  }

  /** Both argument loops of `CallableSolidNode.__call__`. */
  method CollectInputs(solidDef: SolidDefinition, scope: Scope, solidName: string,
                       args: seq<Arg>, kwargs: Dict<Arg>) returns (r: Result<Bindings>)
    ensures r == BindArguments(solidDef, scope, solidName, args, kwargs)
  {
    r := CollectPositional(solidDef, scope, solidName, args);
    if r.Ok? {
      r := CollectKeywords(scope, solidName, kwargs, r.value);
    }
  }

  lemma PositionalUnfold(solidDef: SolidDefinition, scope: Scope, solidName: string,
                         args: seq<Arg>, idx: nat, b: Bindings)
    requires idx < |args|
    requires BindPositional(solidDef, scope, solidName, args, idx) == Ok(b)
    ensures BindPositional(solidDef, scope, solidName, args, idx + 1) ==
      if idx == 0 && args[0].EmptyContext? then Ok(b)
      else if idx - Offset(args) >= |solidDef.inputNames| then
        Err(TooManyInputs(scope.source, scope.name, solidName, |solidDef.inputNames|, |args|))
      else
        Classify(scope, solidName, b, solidDef.inputNames[idx - Offset(args)], args[idx], AtPosition(idx))
  {
  }

  lemma KeywordUnfold(scope: Scope, solidName: string, kwargs: Dict<Arg>, j: nat, start: Bindings, b: Bindings)
    requires j < |kwargs.keys|
    requires BindKeywords(scope, solidName, kwargs, j, start) == Ok(b)
    ensures kwargs.keys[j] in kwargs.entries
    ensures BindKeywords(scope, solidName, kwargs, j + 1, start) ==
      Classify(scope, solidName, b, kwargs.keys[j], kwargs.entries[kwargs.keys[j]], ByKeyword)
  {
  }

  lemma {:induction false} PositionalErrPersists(solidDef: SolidDefinition, scope: Scope, solidName: string,
                                                 args: seq<Arg>, n: nat, m: nat)
    requires n <= m <= |args|
    requires BindPositional(solidDef, scope, solidName, args, n).Err?
    ensures BindPositional(solidDef, scope, solidName, args, m) == BindPositional(solidDef, scope, solidName, args, n)
    decreases m
  {
    if m > n {
      PositionalErrPersists(solidDef, scope, solidName, args, n, m - 1);
    }
  }

  lemma {:induction false} KeywordErrPersists(scope: Scope, solidName: string, kwargs: Dict<Arg>, start: Bindings,
                                              n: nat, m: nat)
    requires n <= m <= |kwargs.keys|
    requires BindKeywords(scope, solidName, kwargs, n, start).Err?
    ensures BindKeywords(scope, solidName, kwargs, m, start) == BindKeywords(scope, solidName, kwargs, n, start)
    decreases m
  {
    if m > n {
      KeywordErrPersists(scope, solidName, kwargs, start, n, m - 1);
    }
  }

  /** Positional arguments `0 .. n-1` bind without error: each one that is not
      the leading sentinel has a declared input left for it and is a handle or
      a placeholder. */
  ghost predicate PositionalOk(solidDef: SolidDefinition, args: seq<Arg>, n: nat)
    requires n <= |args|
  {
    && n <= Offset(args) + |solidDef.inputNames|
    && forall i :: Offset(args) <= i < n ==> Acceptable(args[i])
  }

  /** Keyword arguments `0 .. n-1` (in keyword order) are handles or placeholders. */
  ghost predicate KeywordsOk(kwargs: Dict<Arg>, n: nat)
    requires n <= |kwargs.keys|
  {
    forall j :: 0 <= j < n ==> Acceptable(kwargs.entries[kwargs.keys[j]])
  }

  /** Every argument of a call is accepted. */
  ghost predicate ArgumentsOk(solidDef: SolidDefinition, args: seq<Arg>, kwargs: Dict<Arg>) {
    PositionalOk(solidDef, args, |args|) && KeywordsOk(kwargs, |kwargs.keys|)
  }

  /** One positional argument is accepted exactly when it is the leading
      sentinel, or has a declared input left and is a handle or a placeholder. */
  lemma PositionalOkStep(solidDef: SolidDefinition, scope: Scope, solidName: string, args: seq<Arg>, n: nat, b: Bindings)
    requires 0 < n <= |args|
    ensures PositionalStep(solidDef, scope, solidName, args, n - 1, b).Ok? <==>
      (n - 1 < Offset(args) || (n - 1 - Offset(args) < |solidDef.inputNames| && Acceptable(args[n - 1])))
    ensures PositionalOk(solidDef, args, n) <==>
      PositionalOk(solidDef, args, n - 1) &&
      (n - 1 < Offset(args) || (n - 1 - Offset(args) < |solidDef.inputNames| && Acceptable(args[n - 1])))
  {
  }

  lemma {:induction false} PositionalOkIff(solidDef: SolidDefinition, scope: Scope, solidName: string,
                                           args: seq<Arg>, n: nat)
    requires n <= |args|
    ensures BindPositional(solidDef, scope, solidName, args, n).Ok? <==> PositionalOk(solidDef, args, n)
  {
    if n > 0 {
      PositionalOkIff(solidDef, scope, solidName, args, n - 1);
      var prev := BindPositional(solidDef, scope, solidName, args, n - 1);
      PositionalOkStep(solidDef, scope, solidName, args, n, if prev.Ok? then prev.value else NoBindings());
    }
  }

  /** One keyword argument is accepted exactly when it is a handle or a placeholder. */
  lemma KeywordOkStep(kwargs: Dict<Arg>, n: nat)
    requires 0 < n <= |kwargs.keys|
    ensures KeywordsOk(kwargs, n) <==> KeywordsOk(kwargs, n - 1) && Acceptable(kwargs.entries[kwargs.keys[n - 1]])
  {
  }

  lemma {:induction false} KeywordsOkIff(scope: Scope, solidName: string, kwargs: Dict<Arg>, n: nat, start: Bindings)
    requires n <= |kwargs.keys|
    ensures BindKeywords(scope, solidName, kwargs, n, start).Ok? <==> KeywordsOk(kwargs, n)
  {
    if n > 0 {
      KeywordsOkIff(scope, solidName, kwargs, n - 1, start);
      KeywordOkStep(kwargs, n);
    }
  }

  /** Binding a call's arguments fails exactly when some argument is refused. */
  lemma BindArgumentsOkIff(solidDef: SolidDefinition, scope: Scope, solidName: string,
                           args: seq<Arg>, kwargs: Dict<Arg>)
    ensures BindArguments(solidDef, scope, solidName, args, kwargs).Ok? <==> ArgumentsOk(solidDef, args, kwargs)
  {
    PositionalOkIff(solidDef, scope, solidName, args, |args|);
    var p := BindPositional(solidDef, scope, solidName, args, |args|);
    if p.Ok? {
      KeywordsOkIff(scope, solidName, kwargs, |kwargs.keys|, p.value);
    }
  }

  /** The first refused positional argument decides the error: too many
      inputs when no declared input is left for it, otherwise the error for
      its type. No keyword argument is looked at. */
  lemma FirstRefusedPositional(solidDef: SolidDefinition, scope: Scope, solidName: string,
                               args: seq<Arg>, kwargs: Dict<Arg>, k: nat)
    requires Offset(args) <= k < |args|
    requires PositionalOk(solidDef, args, k)
    requires k - Offset(args) >= |solidDef.inputNames| || !Acceptable(args[k])
    ensures BindArguments(solidDef, scope, solidName, args, kwargs) ==
      if k - Offset(args) >= |solidDef.inputNames| then
        Err(TooManyInputs(scope.source, scope.name, solidName, |solidDef.inputNames|, |args|))
      else
        Err(ArgumentError(scope, solidName, solidDef.inputNames[k - Offset(args)], args[k], AtPosition(k)))
  {
    PositionalOkIff(solidDef, scope, solidName, args, k);
    var b := BindPositional(solidDef, scope, solidName, args, k).value;
    assert BindPositional(solidDef, scope, solidName, args, k + 1) == PositionalStep(solidDef, scope, solidName, args, k, b);
    PositionalErrPersists(solidDef, scope, solidName, args, k + 1, |args|);
  }

  /** With every positional argument accepted, the first refused keyword
      argument decides the error. */
  lemma FirstRefusedKeyword(solidDef: SolidDefinition, scope: Scope, solidName: string,
                            args: seq<Arg>, kwargs: Dict<Arg>, j: nat)
    requires j < |kwargs.keys|
    requires PositionalOk(solidDef, args, |args|)
    requires KeywordsOk(kwargs, j)
    requires !Acceptable(kwargs.entries[kwargs.keys[j]])
    ensures BindArguments(solidDef, scope, solidName, args, kwargs) ==
      Err(ArgumentError(scope, solidName, kwargs.keys[j], kwargs.entries[kwargs.keys[j]], ByKeyword))
  {
    PositionalOkIff(solidDef, scope, solidName, args, |args|);
    var start := BindPositional(solidDef, scope, solidName, args, |args|).value;
    KeywordsOkIff(scope, solidName, kwargs, j, start);
    var b := BindKeywords(scope, solidName, kwargs, j, start).value;
    KeywordUnfold(scope, solidName, kwargs, j, start, b);
    KeywordErrPersists(scope, solidName, kwargs, start, j + 1, |kwargs.keys|);
  }

  /** No two declared inputs share a name. */
  ghost predicate DistinctInputs(solidDef: SolidDefinition) {
    forall i, j :: 0 <= i < j < |solidDef.inputNames| ==> solidDef.inputNames[i] != solidDef.inputNames[j]
  }

  /** The bindings `b` hold exactly what positional arguments `0 .. n-1` bind:
      each handle or placeholder under the name of the declared input it lines
      up with, and nothing else. */
  ghost predicate LinedUp(solidDef: SolidDefinition, args: seq<Arg>, n: nat, b: Bindings)
    requires n <= |args|
  {
    && HandlesLinedUp(solidDef, args, n, b.inputBindings.entries)
    && MappingsLinedUp(solidDef, args, n, b.inputMappings.entries)
  }

  ghost predicate HandlesLinedUp(solidDef: SolidDefinition, args: seq<Arg>, n: nat, d: map<string, OutputHandle>)
    requires n <= |args|
  {
    var names := solidDef.inputNames;
    var off := Offset(args);
    && (forall j :: 0 <= j < |names| && off + j < n && args[off + j].Handle? ==>
          names[j] in d && d[names[j]] == args[off + j].handle)
    && (forall k :: k in d ==>
          exists j :: 0 <= j < |names| && off + j < n && args[off + j].Handle? && names[j] == k)
  }

  ghost predicate MappingsLinedUp(solidDef: SolidDefinition, args: seq<Arg>, n: nat, d: map<string, InputMappingNode>)
    requires n <= |args|
  {
    var names := solidDef.inputNames;
    var off := Offset(args);
    && (forall j :: 0 <= j < |names| && off + j < n && args[off + j].Mapping? ==>
          names[j] in d && d[names[j]] == args[off + j].node)
    && (forall k :: k in d ==>
          exists j :: 0 <= j < |names| && off + j < n && args[off + j].Mapping? && names[j] == k)
  }

  /** The handles among the first `n` keyword arguments, under their keywords. */
  ghost function KeywordHandles(kwargs: Dict<Arg>, n: nat): map<string, OutputHandle>
    requires n <= |kwargs.keys|
  {
    map k | k in kwargs.keys[..n] && kwargs.entries[k].Handle? :: kwargs.entries[k].handle
  }

  /** The placeholders among the first `n` keyword arguments, under their keywords. */
  ghost function KeywordMappings(kwargs: Dict<Arg>, n: nat): map<string, InputMappingNode>
    requires n <= |kwargs.keys|
  {
    map k | k in kwargs.keys[..n] && kwargs.entries[k].Mapping? :: kwargs.entries[k].node
  }

  lemma KeywordHandlesStep(kwargs: Dict<Arg>, n: nat)
    requires 0 < n <= |kwargs.keys|
    ensures var k := kwargs.keys[n - 1];
      KeywordHandles(kwargs, n) ==
        if kwargs.entries[k].Handle? then KeywordHandles(kwargs, n - 1)[k := kwargs.entries[k].handle]
        else KeywordHandles(kwargs, n - 1)
  {
    assert kwargs.keys[..n] == kwargs.keys[..n - 1] + [kwargs.keys[n - 1]];
  }

  lemma KeywordMappingsStep(kwargs: Dict<Arg>, n: nat)
    requires 0 < n <= |kwargs.keys|
    ensures var k := kwargs.keys[n - 1];
      KeywordMappings(kwargs, n) ==
        if kwargs.entries[k].Mapping? then KeywordMappings(kwargs, n - 1)[k := kwargs.entries[k].node]
        else KeywordMappings(kwargs, n - 1)
  {
    assert kwargs.keys[..n] == kwargs.keys[..n - 1] + [kwargs.keys[n - 1]];
  }

  lemma HandlesLinedUpStep(solidDef: SolidDefinition, args: seq<Arg>, n: nat, d: map<string, OutputHandle>)
    requires Offset(args) < n <= |args| && n - 1 - Offset(args) < |solidDef.inputNames|
    requires DistinctInputs(solidDef)
    requires HandlesLinedUp(solidDef, args, n - 1, d)
    ensures HandlesLinedUp(solidDef, args, n,
      if args[n - 1].Handle? then d[solidDef.inputNames[n - 1 - Offset(args)] := args[n - 1].handle] else d)
  {
  }

  lemma MappingsLinedUpStep(solidDef: SolidDefinition, args: seq<Arg>, n: nat, d: map<string, InputMappingNode>)
    requires Offset(args) < n <= |args| && n - 1 - Offset(args) < |solidDef.inputNames|
    requires DistinctInputs(solidDef)
    requires MappingsLinedUp(solidDef, args, n - 1, d)
    ensures MappingsLinedUp(solidDef, args, n,
      if args[n - 1].Mapping? then d[solidDef.inputNames[n - 1 - Offset(args)] := args[n - 1].node] else d)
  {
  }

  /** One positional argument keeps the bindings lined up. */
  lemma LinedUpStep(solidDef: SolidDefinition, scope: Scope, solidName: string, args: seq<Arg>, n: nat, b: Bindings)
    requires 0 < n <= |args|
    requires DistinctInputs(solidDef)
    requires LinedUp(solidDef, args, n - 1, b)
    requires PositionalStep(solidDef, scope, solidName, args, n - 1, b).Ok?
    ensures LinedUp(solidDef, args, n, PositionalStep(solidDef, scope, solidName, args, n - 1, b).value)
  {
    if n - 1 >= Offset(args) {
      HandlesLinedUpStep(solidDef, args, n, b.inputBindings.entries);
      MappingsLinedUpStep(solidDef, args, n, b.inputMappings.entries);
    }
  }

  lemma {:induction false} PositionalContents(solidDef: SolidDefinition, scope: Scope, solidName: string,
                                              args: seq<Arg>, n: nat)
    requires n <= |args|
    requires DistinctInputs(solidDef)
    requires BindPositional(solidDef, scope, solidName, args, n).Ok?
    ensures LinedUp(solidDef, args, n, BindPositional(solidDef, scope, solidName, args, n).value)
  {
    if n > 0 {
      PositionalContents(solidDef, scope, solidName, args, n - 1);
      LinedUpStep(solidDef, scope, solidName, args, n, BindPositional(solidDef, scope, solidName, args, n - 1).value);
    }
  }

  /** One keyword argument extends the keyword maps. */
  lemma KeywordStep(scope: Scope, solidName: string, kwargs: Dict<Arg>, n: nat, start: Bindings, b: Bindings)
    requires 0 < n <= |kwargs.keys|
    requires b.inputBindings.entries == start.inputBindings.entries + KeywordHandles(kwargs, n - 1)
    requires b.inputMappings.entries == start.inputMappings.entries + KeywordMappings(kwargs, n - 1)
    requires Classify(scope, solidName, b, kwargs.keys[n - 1], kwargs.entries[kwargs.keys[n - 1]], ByKeyword).Ok?
    ensures var b' := Classify(scope, solidName, b, kwargs.keys[n - 1], kwargs.entries[kwargs.keys[n - 1]], ByKeyword).value;
      && b'.inputBindings.entries == start.inputBindings.entries + KeywordHandles(kwargs, n)
      && b'.inputMappings.entries == start.inputMappings.entries + KeywordMappings(kwargs, n)
  {
    KeywordHandlesStep(kwargs, n);
    KeywordMappingsStep(kwargs, n);
    var k := kwargs.keys[n - 1];
    var arg := kwargs.entries[k];
    if arg.Handle? {
      UnionUpdate(start.inputBindings.entries, KeywordHandles(kwargs, n - 1), k, arg.handle);
    } else {
      UnionUpdate(start.inputMappings.entries, KeywordMappings(kwargs, n - 1), k, arg.node);
    }
  }

  lemma UnionUpdate<V>(a: map<string, V>, b: map<string, V>, k: string, v: V)
    ensures (a + b)[k := v] == a + b[k := v]
  {
  }

  lemma {:induction false} KeywordContents(scope: Scope, solidName: string, kwargs: Dict<Arg>, n: nat, start: Bindings)
    requires n <= |kwargs.keys|
    requires BindKeywords(scope, solidName, kwargs, n, start).Ok?
    ensures var b := BindKeywords(scope, solidName, kwargs, n, start).value;
      && b.inputBindings.entries == start.inputBindings.entries + KeywordHandles(kwargs, n)
      && b.inputMappings.entries == start.inputMappings.entries + KeywordMappings(kwargs, n)
  {
    if n > 0 {
      KeywordContents(scope, solidName, kwargs, n - 1, start);
      KeywordStep(scope, solidName, kwargs, n, start, BindKeywords(scope, solidName, kwargs, n - 1, start).value);
    }
  }

  /** What an accepted call binds: the positional stage lines each handle and
      placeholder up with its declared input; the keyword stage then adds each
      keyword handle or placeholder under its keyword, replacing a positional
      value of the same kind for the same input. */
  lemma BoundInputs(solidDef: SolidDefinition, scope: Scope, solidName: string, args: seq<Arg>, kwargs: Dict<Arg>)
    requires DistinctInputs(solidDef)
    requires BindArguments(solidDef, scope, solidName, args, kwargs).Ok?
    ensures BindPositional(solidDef, scope, solidName, args, |args|).Ok?
    ensures var p := BindPositional(solidDef, scope, solidName, args, |args|).value;
      var b := BindArguments(solidDef, scope, solidName, args, kwargs).value;
      && LinedUp(solidDef, args, |args|, p)
      && b.inputBindings.entries == p.inputBindings.entries + KeywordHandles(kwargs, |kwargs.keys|)
      && b.inputMappings.entries == p.inputMappings.entries + KeywordMappings(kwargs, |kwargs.keys|)
  {
    PositionalContents(solidDef, scope, solidName, args, |args|);
    var start := BindPositional(solidDef, scope, solidName, args, |args|).value;
    KeywordContents(scope, solidName, kwargs, |kwargs.keys|, start);
  }

  /** Nothing keeps one input out of both dictionaries: a handle passed by
      position and a placeholder passed by keyword for the same input are both
      kept. */
  lemma BindingsMayOverlap(solidDef: SolidDefinition, scope: Scope, h: OutputHandle, m: InputMappingNode)
    requires solidDef.inputNames == ["x"]
    ensures var r := BindArguments(solidDef, scope, "s", [Handle(h)], RawDict(["x"], map["x" := Mapping(m)]));
      && r.Ok?
      && r.value.inputBindings.entries == map["x" := h]
      && r.value.inputMappings.entries == map["x" := m]
  {
    var args := [Handle(h)];
    var kwargs: Dict<Arg> := RawDict(["x"], map["x" := Mapping(m)]);
    PositionalUnfold(solidDef, scope, "s", args, 0, NoBindings());
    var b := BindPositional(solidDef, scope, "s", args, 1).value;
    KeywordUnfold(scope, "s", kwargs, 0, b, b);
  }

  /** The value a call of instance `solidName` of definition `defName` returns
      for outputs `outputNames`; several outputs come in a named tuple whose
      class is named after the definition. */
  function ReturnValue(solidName: string, defName: string, outputNames: seq<string>): (r: CallResult)
    ensures |outputNames| == 0 <==> r.NoOutputs?
    ensures |outputNames| == 1 <==> r.SingleOutput?
    ensures r.SingleOutput? ==> r.handle == OutputHandle(solidName, outputNames[0])
    ensures r.NamedOutputs? ==>
      && r.typeName == "_" + defName + "_outputs"
      && |r.outputs| == |outputNames|
      && forall i :: 0 <= i < |outputNames| ==> r.outputs[i] == (outputNames[i], OutputHandle(solidName, outputNames[i]))
  {
    if |outputNames| == 0 then NoOutputs
    else if |outputNames| == 1 then SingleOutput(OutputHandle(solidName, outputNames[0]))
    else NamedOutputs("_" + defName + "_outputs", seq(|outputNames|, i requires 0 <= i < |outputNames| =>
      (outputNames[i], OutputHandle(solidName, outputNames[i]))))
  }

  /** A call's return value passed on, whole, as an argument. */
  function AsArg(r: CallResult): Arg {
    match r
    case NoOutputs => Other("NoneType")
    case SingleOutput(h) => Handle(h)
    case NamedOutputs(t, outputs) =>
      Tuple(t, seq(|outputs|, i requires 0 <= i < |outputs| => outputs[i].0),
            seq(|outputs|, i requires 0 <= i < |outputs| => Handle(outputs[i].1)))
  }

  /** Passing on what a call returned: a single output binds its handle; no
      output is refused as an invalid type; several outputs passed whole are
      refused with the list of output names to pick from. */
  lemma PassingReturnValues(scope: Scope, solidName: string, b: Bindings, inputName: string, site: Site,
                            producer: string, producerDef: string, outputNames: seq<string>)
    ensures var r := Classify(scope, solidName, b, inputName, AsArg(ReturnValue(producer, producerDef, outputNames)), site);
      && (|outputNames| == 0 ==>
            r == Err(InvalidInputType(scope.source, scope.name, solidName, inputName, site, "NoneType")))
      && (|outputNames| == 1 ==>
            && r.Ok?
            && r.value.inputBindings.entries == b.inputBindings.entries[inputName := OutputHandle(producer, outputNames[0])])
      && (|outputNames| >= 2 ==>
            r == Err(MultiOutputNotUnpacked(scope.source, scope.name, solidName, inputName, site, outputNames)))
  {
    var rv := ReturnValue(producer, producerDef, outputNames);
    if |outputNames| >= 2 {
      var arg := AsArg(rv);
      assert arg.fields == outputNames;
      assert AllHandles(arg.items);
    }
  }

  /** `CallableSolidNode.__call__` on the state it sees: the current scope (if
      the stack has one) and the arguments. */
  function CallSpec(solidDef: SolidDefinition, solidName: string, scope: Option<Scope>,
                    args: seq<Arg>, kwargs: Dict<Arg>): (r: Result<Invocation>)
    ensures r.Ok? ==> r.value.node.solidName == solidName && r.value.node.solidDef == solidDef
  {
    match scope
    case None => Err(NoActiveScope)
    case Some(s) =>
      match BindArguments(solidDef, s, solidName, args, kwargs)
      case Err(e) => Err(e)
      case Ok(b) =>
        if solidName in s.seen then Err(DuplicateInvocation(s.source, s.name, solidName))
        else
          Ok(Invocation(InvokedSolidNode(solidName, solidDef, b.inputBindings, b.inputMappings),
                        ReturnValue(solidName, solidDef.name, solidDef.outputNames)))
  }

  /** A call succeeds exactly when there is a current context, every argument
      is accepted and the instance name is new to the context; argument errors
      are reported before a repeated name, and a repeated name is reported as such. */
  lemma CallOutcome(solidDef: SolidDefinition, solidName: string, scope: Option<Scope>,
                    args: seq<Arg>, kwargs: Dict<Arg>)
    ensures var r := CallSpec(solidDef, solidName, scope, args, kwargs);
      && (r.Ok? <==> scope.Some? && ArgumentsOk(solidDef, args, kwargs) && solidName !in scope.value.seen)
      && (scope.None? ==> r == Err(NoActiveScope))
      && (scope.Some? && !ArgumentsOk(solidDef, args, kwargs) ==>
            && BindArguments(solidDef, scope.value, solidName, args, kwargs).Err?
            && r == Err(BindArguments(solidDef, scope.value, solidName, args, kwargs).error))
      && (scope.Some? && ArgumentsOk(solidDef, args, kwargs) && solidName in scope.value.seen ==>
            r == Err(DuplicateInvocation(scope.value.source, scope.value.name, solidName)))
  {
    if scope.Some? {
      BindArgumentsOkIff(solidDef, scope.value, solidName, args, kwargs);
    }
  }

  /** A context named `name` from `source` whose invocations are `recorded`
      accepts a call under `solidName`; once the resulting node is recorded, a
      second call under the same name fails (as a duplicate, once its arguments
      are accepted), while a call with accepted arguments under a name not yet
      seen succeeds. */
  lemma SecondInvocation(first: SolidDefinition, second: SolidDefinition, solidName: string, otherName: string,
                         name: string, source: string, recorded: Dict<InvokedSolidNode>,
                         args: seq<Arg>, kwargs: Dict<Arg>, args2: seq<Arg>, kwargs2: Dict<Arg>)
    requires CallSpec(first, solidName, Some(Scope(name, source, recorded.entries.Keys)), args, kwargs).Ok?
    ensures var node := CallSpec(first, solidName, Some(Scope(name, source, recorded.entries.Keys)), args, kwargs).value.node;
      var after := Scope(name, source, Put(recorded, solidName, node).entries.Keys);
      && CallSpec(second, solidName, Some(after), args2, kwargs2).Err?
      && (ArgumentsOk(second, args2, kwargs2) ==>
            CallSpec(second, solidName, Some(after), args2, kwargs2) == Err(DuplicateInvocation(source, name, solidName)))
      && (otherName != solidName && otherName !in recorded.entries && ArgumentsOk(second, args2, kwargs2) ==>
            CallSpec(second, otherName, Some(after), args2, kwargs2).Ok?)
  {
    var node := CallSpec(first, solidName, Some(Scope(name, source, recorded.entries.Keys)), args, kwargs).value.node;
    var after := Scope(name, source, Put(recorded, solidName, node).entries.Keys);
    CallOutcome(second, solidName, Some(after), args2, kwargs2);
    CallOutcome(second, otherName, Some(after), args2, kwargs2);
  }

  /** A solid definition ready to be invoked under an instance name. */
  class CallableSolidNode {
    const solidDef: SolidDefinition
    const solidName: string

    /** The instance name is the alias when one is given, else the definition's name. */
    constructor (solidDef: SolidDefinition, alias: Option<string>)
      ensures this.solidDef == solidDef
      ensures alias.Some? ==> solidName == alias.value
      ensures alias.None? ==> solidName == solidDef.name
    {
      this.solidDef := solidDef;
      this.solidName := if alias.Some? then alias.value else solidDef.name;
    }

    /** The part of `__call__` before the invocation is recorded: bind the
        arguments and refuse an instance name `context` has already seen. */
    method Prepare(context: InProgressContext, args: seq<Arg>, kwargs: Dict<Arg>) returns (r: Result<Invocation>)
      requires context.Valid()
      ensures r == CallSpec(solidDef, solidName, Some(context.View()), args, kwargs)
    {
      var scope := context.View();
      var bound := CollectInputs(solidDef, scope, solidName, args, kwargs);
      if bound.Err? {
        return Err(bound.error);
      }
      if context.HasSeenInvocation(solidName) {
        return Err(DuplicateInvocation(scope.source, scope.name, solidName));
      }
      var node := InvokedSolidNode(solidName, solidDef, bound.value.inputBindings, bound.value.inputMappings);
      return Ok(Invocation(node, ReturnValue(solidName, solidDef.name, solidDef.outputNames)));
    }

    /** `__call__`: bind the arguments, record the invocation in the current
        context and return handles to the solid's outputs. Only the current
        context changes, and only when the call succeeds. */
    method Call(stack: CompositionStack, args: seq<Arg>, kwargs: Dict<Arg>) returns (r: Result<CallResult>)
      requires stack.Valid()
      modifies if stack.contexts == [] then {} else {stack.contexts[|stack.contexts| - 1]}
      ensures stack.Valid()
      ensures var spec := CallSpec(solidDef, solidName, old(stack.CurrentScope()), args, kwargs);
        && (spec.Err? ==> r == Err(spec.error))
        && (spec.Ok? ==> r == Ok(spec.value.returned))
        && (spec.Ok? ==>
              var top := stack.contexts[|stack.contexts| - 1];
              top.invocations == Put(old(top.invocations), solidName, spec.value.node))
      ensures r.Err? && stack.contexts != [] ==> unchanged(stack.contexts[|stack.contexts| - 1])
    {
      var current := stack.CurrentContext();
      if current.None? {
        return Err(NoActiveScope);
      }
      var prepared := Prepare(current.value, args, kwargs);
      if prepared.Err? {
        return Err(prepared.error);
      }
      stack.ObserveInCurrent(prepared.value.node);
      return Ok(prepared.value.returned);
    }
  }
}
