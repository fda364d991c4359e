# Model binding core, in Dafny

This project models the part of the ASP.NET MVC model-binding pipeline that decides which values reach a controller action and which errors are recorded on the way:

- `ModelBindingResult`, the immutable outcome of one bind attempt (`model_binding.dfy`);
- `KeyValuePairModelBinder`, which binds the `Key` and then the `Value` half of a pair through the recursive dispatcher and combines them by a decision table (`key_value_pair_binder.dfy`);
- `ComplexModelDtoModelBinder`, which walks a composite's property list in order and fills the DTO's `Results` table in place (`complex_model_dto_binder.dfy`);
- `DefaultControllerActionArgumentBinder`, the orchestrator (`argument_binder.dfy`). It rejects a descriptor of the wrong kind. It pairs each declared parameter with its single method parameter and builds each parameter's metadata. It sets the model-state error cap, binds the parameters in declared order, and puts only *set* results into the argument map and through the validator.

`wrappers.dfy` holds `Option` (a `null` binder result is `None`) and `Result` (a thrown exception is `Err`).

## How the model is built

- `ModelBindingResult` is a datatype, so a result cannot change after it is built. The two C# constructors are the functions `NewResult` and `NewResultWithEmptyModel`; the second is defined through the first, as the C# constructor chains to `this(...)`.
- The recursive dispatcher is the class `ModelBinderDispatcher`. Its answer is an oracle, the constant function `resolve`. The errors the answering binders try to record are a second oracle, `errorsRecorded`. The dispatcher tries them on the context's own model state, one `TryAddModelError` call each, so the cap applies to them. Every call is appended to its `requests` log. This log lets the model state the order of child binds: the key before the value, properties in list order, parameters in declared order.
- `ModelStateDictionary` is a class with the recorded `errors` and `maxAllowedErrors`. `ComplexModelDto` is a class whose `results` map is updated in place. `MvcOptions` is a class whose `maxModelValidationErrors` can change after the argument binder is built; the binder keeps the object and reads the cap on every call.
- The validator is a class that logs each `ModelValidationContext` it receives. It tries the errors an oracle, `errorsFor`, gives for that context on the context's model state.
- Each imperative operation is a method. Its `ensures` ties the new state to a specification function: `FilledResults`, `BoundArguments`, `ValidationRequests`, `RootContexts`, `PropertyContexts`, `ParameterMetadataList`, and, for the model state's errors, `AfterTryAddErrors`, `ErrorsAfterRequests` and `ErrorsAfterParameters`. Lemmas then prove what those functions mean.
- Argument-map keys are Dafny strings, and equality on them is exact, character by character. This is the ordinal comparison the source asks for (`DefaultControllerActionArgumentBinder.cs:76`).

The following helpers are not part of this model. Each one is given an explicit assumed definition, stated at its declaration:

- `ModelBindingHelper.CreatePropertyModelName`. It is assumed to join prefix and name with a dot. An empty prefix gives the name, and an empty name gives the prefix.
- The `ModelBindingContext(parent, name, metadata)` constructor. The child is assumed to share the parent's model state, value provider and operation, and to start with no model.
- `ModelBindingContext.GetModelBindingContext`. The root context is assumed to take the binder model name from the parameter's binding metadata as its model name when there is one, and the parameter name otherwise. The argument-map key is the parameter name either way (`DefaultControllerActionArgumentBinder.cs:111`).
- `ModelBindingHelper.CastOrDefault`. It is assumed to keep a non-null model and to turn `null` into `default(T)`.
- `ModelStateDictionary.TryAddModelError`. An error is assumed to be recorded while fewer than `MaxAllowedErrors` errors are recorded, and dropped otherwise. Nested binders and the validator are assumed to record their errors through it as well.
- The resource text `KeyValuePair_BothKeyAndValueMustBePresent`. A stand-in string is used for it.

The framework as a whole has rules that the code modelled here does not carry out itself:

- The framework distinguishes an empty model (created but holding only defaults) from one with bound properties. The `ComplexModelDtoModelBinder` modelled here always returns a *set* result holding the DTO itself, with `IsEmptyModel` false (`ComplexModelDtoModelBinder.cs:44`). No binder modelled here ever sets `IsEmptyModel`; `BuiltResultsAreNeverEmptyModels` and `PropertyResultFlags` state this.
- A pair with a missing half is reported to the framework as unset. The key-value binder modelled here returns `null` for it (`KeyValuePairModelBinder.cs:44`), and turning that into an unset result is left to its caller.

## Model

| member | source | states |
|---|---|---|
| `ModelBinding.NewResult` | src/Microsoft.AspNet.Mvc.ModelBinding/ModelBindingResult.cs:18-23 | the three-argument constructor stores model, key and set flag unchanged and leaves `IsEmptyModel` false |
| `ModelBinding.NewResultWithEmptyModel` | src/Microsoft.AspNet.Mvc.ModelBinding/ModelBindingResult.cs:39-43 | the four-argument constructor agrees with the three-argument one on model, key and set flag, and stores `isEmptyModel` |
| `ModelBinding.ModelStateDictionary.TryAddModelError` | src/Microsoft.AspNet.Mvc.ModelBinding/Binders/KeyValuePairModelBinder.cs:32-40 | one call appends exactly that (key, message) error when the cap admits it, changes nothing otherwise, and keeps the cap |
| `ModelBinding.ModelStateDictionary.TryAddModelErrors` | src/Microsoft.AspNet.Mvc.ModelBinding/Binders/KeyValuePairModelBinder.cs:32-40 | a run of `TryAddModelError` calls leaves the error list that the fold `AfterTryAddErrors` describes, and keeps the cap |
| `ModelBinding.CapKeepsEarliestErrors` | src/Microsoft.AspNet.Mvc.Core/DefaultControllerActionArgumentBinder.cs:96-97 | after a run of attempts, the earlier errors are kept unchanged, followed by exactly the first attempted errors that fit under the cap, in order; the rest are dropped |
| `ModelBinding.ErrorsStayWithinCap` | src/Microsoft.AspNet.Mvc.Core/DefaultControllerActionArgumentBinder.cs:96-97 | earlier errors stay a prefix; no more errors than attempted are added; a list within the cap stays within it; a full list is left unchanged |
| `ModelBinding.ModelBinderDispatcher.BindModel` | src/Microsoft.AspNet.Mvc.ModelBinding/Binders/ComplexModelDtoModelBinder.cs:30-31 | a dispatcher call returns the oracle's answer for that context, is logged after all earlier calls, and tries the errors its binders record on the context's model state, under the cap |
| `ModelBinding.RequestsOnlyAddErrors` | src/Microsoft.AspNet.Mvc.ModelBinding/Binders/ComplexModelDtoModelBinder.cs:21-31 | binding a run of child contexts never removes an error and never takes a list within the cap past it |
| `KeyValuePairBinder.StrongModelResult` | src/Microsoft.AspNet.Mvc.ModelBinding/Binders/KeyValuePairModelBinder.cs:47-65 | never null: a non-null dispatcher answer is passed through unchanged; a null one becomes an unset `default(TModel)` keyed by the child model name |
| `KeyValuePairBinder.StrongModelSetIffDispatcherSet` | src/Microsoft.AspNet.Mvc.ModelBinding/Binders/KeyValuePairModelBinder.cs:56-64 | a half is set exactly when the dispatcher answered with a set result |
| `KeyValuePairBinder.TryBindStrongModel` | src/Microsoft.AspNet.Mvc.ModelBinding/Binders/KeyValuePairModelBinder.cs:47-65 | makes exactly one dispatcher call, on the child context named `<parent>.<Key or Value>` with the type's metadata, returns the never-null result above, and leaves the errors that child bind recorded |
| `KeyValuePairBinder.PairDecision` | src/Microsoft.AspNet.Mvc.ModelBinding/Binders/KeyValuePairModelBinder.cs:21-44 | both halves set iff a set result keyed by the parent name holding the pair of the two cast models; exactly one set iff one error on the missing half's key; neither set iff nothing |
| `KeyValuePairBinder.BindModel` | src/Microsoft.AspNet.Mvc.ModelBinding/Binders/KeyValuePairModelBinder.cs:12-45 | binds the key child and then the value child, returns non-null only for a bound pair, leaves the errors the two child binds recorded followed by one attempt only for a missing half, and leaves the cap alone |
| `KeyValuePairBinder.BuiltResultsAreNeverEmptyModels` | src/Microsoft.AspNet.Mvc.ModelBinding/Binders/KeyValuePairModelBinder.cs:28 | the pair result the binder builds is never an empty model, so it has bound content; the stand-in for a declined half (:64) is not empty and has no bound content |
| `KeyValuePairBinder.PairTable` | src/Microsoft.AspNet.Mvc.ModelBinding/Binders/KeyValuePairModelBinder.cs:21-44 | a non-null return is always set; with neither or both halves set the errors are unchanged; with one half set and room under the cap exactly one error is added on the other half's key |
| `KeyValuePairBinder.OnlyValuePresentReportsKey` | src/Microsoft.AspNet.Mvc.ModelBinding/Binders/KeyValuePairModelBinder.cs:30-34 | when the dispatcher declines the key and sets the value, the error goes to `<name>.Key` |
| `KeyValuePairBinder.OnlyKeyPresentReportsValue` | src/Microsoft.AspNet.Mvc.ModelBinding/Binders/KeyValuePairModelBinder.cs:36-40 | when the dispatcher sets the key and declines the value, the error goes to `<name>.Value` |
| `KeyValuePairBinder.HalvesHaveDistinctNames` | src/Microsoft.AspNet.Mvc.ModelBinding/Binders/KeyValuePairModelBinder.cs:18-19 | the key and value halves are bound under different model names |
| `ComplexModelDtoBinder.PropertyResult` | src/Microsoft.AspNet.Mvc.ModelBinding/Binders/ComplexModelDtoModelBinder.cs:30-41 | a non-null child result is stored verbatim; a null one is stored as (null, child name, not set, not empty) |
| `ComplexModelDtoBinder.BindModel` | src/Microsoft.AspNet.Mvc.ModelBinding/Binders/ComplexModelDtoModelBinder.cs:11-45 | other model types give null and change nothing; a model that is not a DTO is an error; otherwise every listed property is bound in order, `Results` is filled, the model state holds what the child binds recorded, and the result is set, keyed by the model name, holding the same DTO |
| `ComplexModelDtoBinder.DtoResult` | src/Microsoft.AspNet.Mvc.ModelBinding/Binders/ComplexModelDtoModelBinder.cs:44 | the binder's own result holds the context's model under its model name and always has bound content: set, never an empty model |
| `ComplexModelDtoBinder.PropertyResultFlags` | src/Microsoft.AspNet.Mvc.ModelBinding/Binders/ComplexModelDtoModelBinder.cs:32-41 | a declined property's entry is neither an empty model nor bound content; a dispatcher answer keeps its own bound-content status |
| `ComplexModelDtoBinder.EveryPropertyHasAnEntry` | src/Microsoft.AspNet.Mvc.ModelBinding/Binders/ComplexModelDtoModelBinder.cs:21-42 | after the loop every listed property has an entry, and it is that property's child result |
| `ComplexModelDtoBinder.OtherEntriesUntouched` | src/Microsoft.AspNet.Mvc.ModelBinding/Binders/ComplexModelDtoModelBinder.cs:21-41 | the table's keys grow by exactly the listed properties, and entries of unlisted metadata keep their values |
| `ComplexModelDtoBinder.ChildrenRequestedInOrder` | src/Microsoft.AspNet.Mvc.ModelBinding/Binders/ComplexModelDtoModelBinder.cs:21-31 | one dispatcher request per listed property, the i-th for the i-th property |
| `ComplexModelDtoBinder.ChildNaming` | src/Microsoft.AspNet.Mvc.ModelBinding/Binders/ComplexModelDtoModelBinder.cs:23-27 | a binder model name overrides the property name in `<parent>.<name>`; the child shares the parent's model state, value provider and operation |
| `ComplexModelDtoBinder.ChildNamingDefault` | src/Microsoft.AspNet.Mvc.ModelBinding/Binders/ComplexModelDtoModelBinder.cs:23-25 | without a binder model name the child is named `<parent>.<property name>` |
| `ArgumentBinder.ObjectModelValidator.Validate` | src/Microsoft.AspNet.Mvc.Core/DefaultControllerActionArgumentBinder.cs:112-117 | each validation call is logged after the earlier ones and tries the errors validation finds on the context's model state, under the cap |
| `ArgumentBinder.PairingNeedsExactlyOneMatch` | src/Microsoft.AspNet.Mvc.Core/DefaultControllerActionArgumentBinder.cs:56 | `Where(name).Single()` succeeds iff exactly one method parameter has the name, and then returns it; no match and several matches are distinct errors |
| `ArgumentBinder.DefaultControllerActionArgumentBinder.constructor` | src/Microsoft.AspNet.Mvc.Core/DefaultControllerActionArgumentBinder.cs:27-37 | stores the metadata provider, validator, details provider and the options object itself, not a copy of its cap |
| `ArgumentBinder.DefaultControllerActionArgumentBinder.FailureIsFinal` | src/Microsoft.AspNet.Mvc.Core/DefaultControllerActionArgumentBinder.cs:54-56 | the first parameter that fails to pair decides the exception for the whole list |
| `ArgumentBinder.DefaultControllerActionArgumentBinder.MetadataListMeaning` | src/Microsoft.AspNet.Mvc.Core/DefaultControllerActionArgumentBinder.cs:54-74 | the metadata list exists iff every declared parameter pairs; it then has one entry per parameter, in order, named after it, whose binding metadata is built from the binder metadata followed by the custom attributes |
| `ArgumentBinder.DefaultControllerActionArgumentBinder.BuildParameterMetadata` | src/Microsoft.AspNet.Mvc.Core/DefaultControllerActionArgumentBinder.cs:52-74 | the append loop computes exactly the metadata list, or throws at the first unpaired parameter |
| `ArgumentBinder.DefaultControllerActionArgumentBinder.PopulateArguments` | src/Microsoft.AspNet.Mvc.Core/DefaultControllerActionArgumentBinder.cs:81-120 | sets the cap to the options' current value before any bind, binds each parameter's root context in declared order, fills the map and validator log with the set results only, and leaves the errors each bind and then each validation recorded, in that order, under that cap |
| `ArgumentBinder.DefaultControllerActionArgumentBinder.GetActionArguments` | src/Microsoft.AspNet.Mvc.Core/DefaultControllerActionArgumentBinder.cs:39-79 | a non-controller descriptor or an unpaired parameter throws before anything is bound or changed; otherwise the populated argument map is returned, with the model state and logs as populating leaves them |
| `ArgumentBinder.ArgumentBindingKeepsEarlierErrors` | src/Microsoft.AspNet.Mvc.Core/DefaultControllerActionArgumentBinder.cs:96-117 | binding the arguments keeps the errors recorded before it as a prefix; a list within the cap stays within it; a list already at the cap is left unchanged |
| `ArgumentBinder.ArgumentKeysAreBoundParameters` | src/Microsoft.AspNet.Mvc.Core/DefaultControllerActionArgumentBinder.cs:98-111 | a name is a key of the argument map iff some parameter of that name got a non-null, set result |
| `ArgumentBinder.ArgumentValuesAreBoundModels` | src/Microsoft.AspNet.Mvc.Core/DefaultControllerActionArgumentBinder.cs:104-111 | with distinct parameter names each bound parameter's entry is its result's model |
| `ArgumentBinder.BoundIndicesAreTheBoundParameters` | src/Microsoft.AspNet.Mvc.Core/DefaultControllerActionArgumentBinder.cs:98-104 | the bound indices are exactly the parameters with non-null, set results, in increasing order |
| `ArgumentBinder.ValidatedOncePerBoundParameter` | src/Microsoft.AspNet.Mvc.Core/DefaultControllerActionArgumentBinder.cs:104-117 | the validator is called once per bound parameter, in declared order, with that result's key and model, and never for a null or unset result |
| `ArgumentBinder.OneValidationPerArgument` | src/Microsoft.AspNet.Mvc.Core/DefaultControllerActionArgumentBinder.cs:104-117 | with distinct parameter names there are as many validator calls as argument-map entries |
| `ArgumentBinder.ArgumentsComeFromDeclaredParameters` | src/Microsoft.AspNet.Mvc.Core/DefaultControllerActionArgumentBinder.cs:54-111 | end to end: a name is an argument iff a declared parameter of that name bound a set result |
| `ArgumentBinder.RootContextShape` | src/Microsoft.AspNet.Mvc.Core/DefaultControllerActionArgumentBinder.cs:123-139 | each root context is named after its parameter, unless its binding metadata names a binder model, and shares the operation's value provider, operation context and model state |
| `ArgumentBinder.RootContextsInDeclaredOrder` | src/Microsoft.AspNet.Mvc.Core/DefaultControllerActionArgumentBinder.cs:98-103 | one dispatcher request per parameter, the i-th for the i-th parameter's root context |
| `ArgumentBinder.SetNullIsAnArgumentUnsetIsNot` | src/Microsoft.AspNet.Mvc.ModelBinding/ModelBindingResult.cs:60-69 | with distinct names, a parameter whose binder set the model to `null` gets a `null` argument, while one whose result is null or unset gets no entry |

## Left out

- Async/`Task`: every `await` is sequential, so each is modelled as a plain call. Cancellation and the HTTP context are left out; the HTTP context is an opaque number.
- Reflection, the metadata provider and the composite details provider are not modelled. They appear as opaque constant functions. Where `ModelMetadata` or `BindingMetadata` come from is not modelled.
- The dispatcher's answers and the errors its binders record are oracles of the context alone. Any effect of the model state's contents on them, such as a binder reading the cap, is not modelled.
- What the object validator checks is not modelled. The errors it finds for a context are an oracle.
- `ModelBindingHelper.ValidateBindingContext` is not part of this model. The key-value binder takes its type arguments as parameters and does not check the context's type. For the complex binder, only the cast of the context's model to `ComplexModelDto` is modelled, as an error result.
- `ModelStateDictionary.TryAddModelError`: only the assumed cap rule stated above is modelled. The extra "too many errors" entry that the framework records is not.
- `RootContext`: of what `ModelBindingContext.GetModelBindingContext` fills in, only the model name, metadata and binding metadata are modelled. Binding source, property filter and the fall-back-to-empty-prefix flag are not.
- `ArgumentValuesAreBoundModels`: stated only for distinct parameter names. With a repeated name, the later bound parameter's model overwrites the earlier one's in the map. `BoundArguments` models that overwrite, but no lemma states it.
- Controller-property binding, the empty-model rule and the composite short-circuit are described for the framework but are not in the code modelled here.
- `ModelMetadataValidationDetailsContext`, the TempData and action-result test sites are not part of this model. They hold no binding logic.
