# Composition capture in dagster, modelled in Dafny

This project models the core of dagster's composition DSL
(`python_modules/dagster/dagster/core/definitions/composition.py`). A
composition function for a `@composite_solid` or `@pipeline` runs in three
stages:

1. **The stack.** `enter_composition` pushes an
   `InProgressCompositionContext` onto a process-wide stack.
2. **The calls.** Inside the function, each call of a `CallableSolidNode`
   does four things:
   - it sorts its arguments into input bindings (upstream output handles)
     and input mappings (placeholders for the composite's own inputs);
   - it refuses an instance name the current context has already seen;
   - it records an `InvokedSolidNode` in the current context;
   - it returns `None`, one `InvokedSolidOutputHandle`, or a named tuple of
     handles.
3. **Completion.** `exit_composition` pops the context and reduces its
   invocations into a `CompleteCompositionContext`, with four parts:
   - the solid definitions, one per name, in first-seen order;
   - one dependency entry per invocation;
   - one input mapping per placeholder;
   - the output mapping, passed through unchanged.

The files:

- `errors.dfy`: the outcomes (`Result`, `Option`) and one `Error` variant per
  error the core raises. Each variant carries the fields its message reports.
- `dicts.dfy`: a Python `dict` as a map plus its insertion order (`Dict`).
  Assignment (`Put`) appends a new key and keeps the position of an existing
  one.
- `handles.dfy`: the value types `InvokedSolidOutputHandle`,
  `InputMappingNode` and `InvokedSolidNode`. It also holds a solid definition,
  reduced to its name and its ordered input and output names. The definition
  is a class, because the core compares definitions by identity (`is`).
- `contexts.dfy`: `InProgressCompositionContext` as the class
  `InProgressContext`, and the stack as the class `CompositionStack`.
- `completion.dfy`: `CompleteCompositionContext.__new__`. `Assemble` is the
  loop, proved equal to the fold `Assembled`, and the lemmas about the
  completed graph are stated on that fold.
- `binder.dfy`: `CallableSolidNode` and its argument binding.
  - `CollectPositional`, `CollectKeywords` and `CollectInputs` are the loops.
    Each is proved equal to a fold: `BindPositional`, `BindKeywords` and
    `BindArguments`.
  - `CallSpec` is the whole call on the state it sees.
  - `CallableSolidNode.Call` is the call on the stack.

## Model

| member | source | states |
|---|---|---|
| Dicts.Put | python_modules/dagster/dagster/core/definitions/composition.py:38 | Assigning a key sets its value. A new key goes at the end of the iteration order, and an existing key keeps its place; a well-formed dict stays well formed. |
| Dicts.Values | python_modules/dagster/dagster/core/definitions/composition.py:56 | `values()` lists one value per key, in insertion order. |
| Contexts.InProgressContext.constructor | python_modules/dagster/dagster/core/definitions/composition.py:29-32 | A new context keeps its name and source and has no invocations. |
| Contexts.InProgressContext.HasSeenInvocation | python_modules/dagster/dagster/core/definitions/composition.py:34-35 | True exactly when the name is a key of the invocations. Equivalently, some recorded invocation carries that instance name. |
| Contexts.InProgressContext.ObserveInvocation | python_modules/dagster/dagster/core/definitions/composition.py:37-38 | Stores the invocation under its own instance name. The key set grows by that one name, and the context stays valid (every invocation is stored under its own instance name). |
| Contexts.InProgressContext.Complete | python_modules/dagster/dagster/core/definitions/composition.py:40-41 | Completes the context's invocations, in recording order, with the given output mapping. |
| Contexts.RecordedInstancesDistinct | python_modules/dagster/dagster/core/definitions/composition.py:37-38 | No two invocations in one context share an instance name. |
| Contexts.CompositionStack.constructor | python_modules/dagster/dagster/core/definitions/composition.py:9 | The stack starts empty. |
| Contexts.CompositionStack.CurrentContext | python_modules/dagster/dagster/core/definitions/composition.py:20-21 | The current context is the top of the stack. There is none exactly when the stack is empty. |
| Contexts.CompositionStack.ObserveInCurrent | python_modules/dagster/dagster/core/definitions/composition.py:194-196 | Records the invocation in the top context only, and the stack stays valid. |
| Contexts.CompositionStack.Enter | python_modules/dagster/dagster/core/definitions/composition.py:12-13 | Pushes exactly one fresh context with the given name and source and no invocations. The contexts below are unchanged. |
| Contexts.CompositionStack.Exit | python_modules/dagster/dagster/core/definitions/composition.py:16-17 | On an empty stack: an error, and nothing changes. Otherwise it pops exactly the top context and returns that context's completion. |
| Contexts.EnterExitBalanced | python_modules/dagster/dagster/core/definitions/composition.py:12-17 | An enter followed by an exit leaves the stack as it was, and yields an empty graph carrying the output mapping. |
| Completion.DependencyEntry | python_modules/dagster/dagster/core/definitions/composition.py:62-65 | An invocation's dependency entry has exactly its bound input names as keys. Each maps to the instance and output name of the handle bound to it. |
| Completion.DefsSeen | python_modules/dagster/dagster/core/definitions/composition.py:56-60 | The definition pass fails only with a conflicting-definitions error. Each definition it keeps is stored under its own name. |
| Completion.DefsSeenRecords | python_modules/dagster/dagster/core/definitions/composition.py:56-60 | Without a conflict, each invocation's definition is the one stored under its name. Every stored name was invoked. |
| Completion.DefsSeenConflict | python_modules/dagster/dagster/core/definitions/composition.py:56-60 | The definition pass fails exactly when two invocations use distinct definition objects with the same name. |
| Completion.DefsSeenOrder | python_modules/dagster/dagster/core/definitions/composition.py:56-60 | Stored names are in first-invoked order. |
| Completion.DefsSeenWellformed | python_modules/dagster/dagster/core/definitions/composition.py:56-60 | The definitions kept by name form a well-formed dict. |
| Completion.Assembled | python_modules/dagster/dagster/core/definitions/composition.py:50-74 | Completion fails only with a conflicting-definitions error. On success it keeps the name and passes the output mapping through unchanged. |
| Completion.Assemble | python_modules/dagster/dagster/core/definitions/composition.py:50-74 | The loop of `__new__` computes `Assembled`, including stopping at the first conflict. |
| Completion.ConflictDetected | python_modules/dagster/dagster/core/definitions/composition.py:56-59 | Completion fails exactly when two invocations use distinct definition objects that share a name. |
| Completion.OneDefinitionPerName | python_modules/dagster/dagster/core/definitions/composition.py:56-73 | On success `solid_defs` has no two entries with the same name. It contains every invoked definition and nothing else. |
| Completion.DefinitionsInFirstSeenOrder | python_modules/dagster/dagster/core/definitions/composition.py:56-73 | On success `solid_defs` is in first-seen order: an invocation of a later-listed definition comes after some invocation of each earlier-listed one. |
| Completion.DependenciesPerInvocation | python_modules/dagster/dagster/core/definitions/composition.py:62-65 | `dependencies` has exactly one key `(definition name, instance name)` per invocation. Each key maps every bound input, and nothing else, to its upstream instance and output. |
| Completion.InputMappingsPerPlaceholder | python_modules/dagster/dagster/core/definitions/composition.py:67-70 | `input_mappings` has exactly one entry per placeholder bound in any invocation. Each entry routes the placeholder's input to that instance and input name. |
| Completion.TwoSolidChain | python_modules/dagster/dagster/core/definitions/composition.py:50-74 | `A` is invoked as `a1`, and `B` as `b1` fed by `a1`'s output `out`. The graph lists `[A, B]`, `b1`'s input `in` depends on `(a1, out)`, `a1` depends on nothing, and there are no input mappings. |
| Binder.Classify | python_modules/dagster/dagster/core/definitions/composition.py:118-149 | An argument is accepted exactly when it is a handle or a placeholder. A handle is stored in the bindings and a placeholder in the mappings, and the other dictionary is untouched. A tuple of handles raises the multi-output error with its field names; anything else raises the invalid-type error with its type. |
| Binder.BindPositional | python_modules/dagster/dagster/core/definitions/composition.py:99-149 | Positional binding fails only with the too-many-inputs, multi-output or invalid-type error. |
| Binder.BindKeywords | python_modules/dagster/dagster/core/definitions/composition.py:152-183 | Keyword binding fails only with the multi-output or invalid-type error. |
| Binder.CollectPositional | python_modules/dagster/dagster/core/definitions/composition.py:96-149 | The positional loop computes `BindPositional`, stopping at the first refused argument. |
| Binder.CollectKeywords | python_modules/dagster/dagster/core/definitions/composition.py:152-183 | The keyword loop computes `BindKeywords` from the positional bindings, in keyword order. |
| Binder.CollectInputs | python_modules/dagster/dagster/core/definitions/composition.py:94-183 | Both loops together compute `BindArguments`. |
| Binder.PositionalOkIff | python_modules/dagster/dagster/core/definitions/composition.py:99-149 | The positional arguments bind without error exactly when two things hold. There are no more of them (after a leading `EmptySolidContext`) than declared inputs, and each of them is a handle or a placeholder. |
| Binder.KeywordsOkIff | python_modules/dagster/dagster/core/definitions/composition.py:152-183 | The keyword arguments bind without error exactly when each is a handle or a placeholder. |
| Binder.BindArgumentsOkIff | python_modules/dagster/dagster/core/definitions/composition.py:94-183 | A call's arguments bind without error exactly when every argument is accepted. |
| Binder.FirstRefusedPositional | python_modules/dagster/dagster/core/definitions/composition.py:99-149 | The first refused positional argument decides the error, whatever the keywords are. Too-many-inputs reports `len(input_defs)` and `len(args)`; otherwise the argument's own error names its declared input and its raw position. |
| Binder.FirstRefusedKeyword | python_modules/dagster/dagster/core/definitions/composition.py:152-183 | When all positional arguments are accepted, the first refused keyword argument decides the error, naming its keyword. |
| Binder.PositionalContents | python_modules/dagster/dagster/core/definitions/composition.py:99-121 | After the positional loop, each handle or placeholder is stored under the declared input it lines up with. Alignment follows declaration order and skips only a sentinel at index 0, and nothing else is stored. |
| Binder.KeywordContents | python_modules/dagster/dagster/core/definitions/composition.py:152-156 | The keyword loop adds each keyword handle or placeholder under its keyword, over the positional bindings. |
| Binder.BoundInputs | python_modules/dagster/dagster/core/definitions/composition.py:94-156 | An accepted call binds the lined-up positional values, overridden by the keyword values of the same kind. |
| Binder.BindingsMayOverlap | python_modules/dagster/dagster/core/definitions/composition.py:152-156 | A positional handle and a keyword placeholder for the same input are both kept, one in each dictionary. |
| Binder.ReturnValue | python_modules/dagster/dagster/core/definitions/composition.py:198-208 | No outputs returns `None`. One output returns the handle `(instance name, output name)`. More outputs return a named tuple of class `_<definition name>_outputs`, with one handle per output, in declaration order, each under that output's name. |
| Binder.PassingReturnValues | python_modules/dagster/dagster/core/definitions/composition.py:122-135 | Passing on a call's whole return value works like this: one output binds its handle, and no output is an invalid `NoneType`. Several outputs raise the multi-output error listing every output name. |
| Binder.CallSpec | python_modules/dagster/dagster/core/definitions/composition.py:93-208 | A successful call records a node with the binder's instance name and definition. |
| Binder.CallOutcome | python_modules/dagster/dagster/core/definitions/composition.py:185-196 | A call succeeds exactly when there is a current context, every argument is accepted and the instance name is new. Argument errors come before the duplicate check, and an accepted call under a seen name is a duplicate. |
| Binder.SecondInvocation | python_modules/dagster/dagster/core/definitions/composition.py:185-196 | Once a call is recorded, another call under the same name fails as a duplicate, while a call under an unseen name succeeds. |
| Binder.CallableSolidNode.constructor | python_modules/dagster/dagster/core/definitions/composition.py:89-91 | The instance name is the alias when one is given, else the definition's name. |
| Binder.CallableSolidNode.Prepare | python_modules/dagster/dagster/core/definitions/composition.py:93-192 | Binding and the duplicate check against one context compute `CallSpec` and change nothing. |
| Binder.CallableSolidNode.Call | python_modules/dagster/dagster/core/definitions/composition.py:93-208 | A call returns what `CallSpec` says for the current context. On success, exactly one node is added to the top context, under the instance name. On failure the top context is unchanged, and the stack stays valid either way. |

## Left out

- `python_modules/libraries/dagster-spark/dagster_spark/solids.py` is not part of this model. It is a solid whose body runs external processes, outside the composition core.
- Error messages are not formatted. Each error is a structured value carrying what its message reports. The message typos ("invokd", "postition") and the `idx={idx}` set literal in the invalid-type message are therefore not modelled.
- `check.*` parameter assertions are replaced by Dafny's types.
- `DependencyDefinition`, `SolidInstance` and `InputDefinition.mapping_to` are defined elsewhere. They are modelled as plain records (`Dependency`, `SolidInstance`, `InputMapping`). A solid definition is reduced to its name and its ordered input and output names.
- The multi-output return value is a dynamically created `namedtuple`. Here it is a sequence of (output name, handle) pairs.
- A plain tuple of handles has no `_fields` and would crash the error path. An argument tuple here is always a named tuple, with its class name and field names, so that crash is not modelled, and a tuple of other values is reported under its named-tuple class.
- The shown code does not guarantee that the stack is popped when composition fails (there is no `try`/`finally`), and the model claims no such guarantee.
- The process-wide `_composition_stack` is a `CompositionStack` object passed to `Call`.
- An empty stack: in the code, `current_context()` raises `IndexError`. A call with an empty stack fails on every path, either while building an error message or at the duplicate check. The model reports this failure up front as `NoActiveScope`, and `Exit` on an empty stack reports `EmptyStack`.
- Binder.BoundInputs: requires that the declared input names are distinct. With repeated input names, a later positional argument would overwrite an earlier one, and the lined-up description would not hold.
- Binder.PositionalContents: requires that the declared input names are distinct. With a repeated input name, the later positional argument overwrites the earlier one under that name, which the one-argument-per-declared-input description does not cover.
- Binder.BoundInputs: does not state the iteration order of the bound dictionaries, only their contents.
- Completion.InputMappingsPerPlaceholder: requires each invocation's `input_mappings` to be a well-formed dict (no repeated or stray keys). Every dict built by `Put` is well formed, but the model does not carry that fact through the argument folds.
- Completion.DependenciesPerInvocation: requires distinct instance names, which `Contexts.RecordedInstancesDistinct` gives for the invocations of any context.

## Notes on the code's behaviour

- Keyword names are not checked against the declared inputs, and nothing keeps one input out of both dictionaries (`Binder.BindingsMayOverlap`). A record's input bindings and input mappings may therefore overlap and may name undeclared inputs.
- The argument count in the too-many-inputs error is `len(args)`, and that count includes a leading `EmptySolidContext`.
- The sentinel is skipped only at index 0. An `EmptySolidContext` at any later position is an invalid-type argument.
- Any tuple whose items are all handles is a multi-output error, and that includes the empty tuple.
