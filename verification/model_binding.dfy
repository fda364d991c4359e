/**
 * The vocabulary shared by every binder: model types and values, the immutable
 * `ModelBindingResult` record, binding contexts, the model-state error collection
 * and the recursive binder dispatcher.
 */
module ModelBinding {
  import opened Wrappers

  // ---------------------------------------------------------------------------
  // Types and values
  // ---------------------------------------------------------------------------

  /** The CLR types the binders in this model tell apart. */
  datatype ModelType =
    | ComplexModelDtoType
    | KeyValuePairType(keyType: ModelType, valueType: ModelType)
    | NamedType(name: string, isValueType: bool)

  /** `KeyValuePair<K, V>` is a struct; `ComplexModelDto` is a class. */
  predicate IsValueType(t: ModelType) {
    t.KeyValuePairType? || (t.NamedType? && t.isValueType)
  }

  /** An `object` as seen by model binding. */
  datatype Value =
    | Null
    | Scalar(text: string)
    | Pair(key: Value, value: Value)
    | DtoModel(dto: ComplexModelDto)
    | DefaultOf(valueType: ModelType)   // `default(T)` of a value type T

  /** `default(T)`: `null` for reference types. */
  function DefaultValue(t: ModelType): Value {
    if IsValueType(t) then DefaultOf(t) else Null
  }

  /**
   * `ModelBindingHelper.CastOrDefault<T>` is not part of this model. Assumed here:
   * bound models already have type T, so the cast keeps them and only `null`
   * turns into `default(T)`.
   */
  function CastOrDefault(t: ModelType, v: Value): Value {
    if v == Null then DefaultValue(t) else v
  }

  /** The objects a value refers to, for frames. */
  function ObjectsOf(v: Value): set<object> {
    if v.DtoModel? then {v.dto} else {}
  }

  /** Metadata of a type, property or parameter. */
  datatype ModelMetadata = ModelMetadata(
    modelType: ModelType,
    propertyName: Option<string>,
    binderModelName: Option<string>)

  /** The resolved binding policy the composite details provider produces. */
  datatype BindingMetadata = BindingMetadata(
    binderModelName: Option<string>,
    bindingSource: Option<string>)

  // ---------------------------------------------------------------------------
  // ModelBindingResult: an immutable record, set once by one of two constructors
  // ---------------------------------------------------------------------------

  datatype ModelBindingResult = ModelBindingResult(
    model: Value,
    key: string,
    isModelSet: bool,
    isEmptyModel: bool)

  /** The three-argument constructor: `IsEmptyModel` keeps its default `false`. */
  function NewResult(model: Value, key: string, isModelSet: bool): (r: ModelBindingResult)
    ensures r.model == model && r.key == key && r.isModelSet == isModelSet
    ensures !r.isEmptyModel
  {
    ModelBindingResult(model, key, isModelSet, false)
  }

  /** The four-argument constructor chains to the three-argument one, then sets `IsEmptyModel`. */
  function NewResultWithEmptyModel(model: Value, key: string, isModelSet: bool, isEmptyModel: bool)
    : (r: ModelBindingResult)
    ensures var r3 := NewResult(model, key, isModelSet);
      r.model == r3.model && r.key == r3.key && r.isModelSet == r3.isModelSet
    ensures r.isEmptyModel == isEmptyModel
  {
    NewResult(model, key, isModelSet).(isEmptyModel := isEmptyModel)
  }

  /** The model was set and holds bound properties, not only defaults. */
  predicate HasBoundContent(r: ModelBindingResult) {
    r.isModelSet && !r.isEmptyModel
  }

  /** Appending one entry to a log that already holds a prefix and a tail. */
  lemma AppendOne<T>(prefix: seq<T>, tail: seq<T>, entry: T)
    ensures (prefix + tail) + [entry] == prefix + (tail + [entry])
  {
  }

  // ---------------------------------------------------------------------------
  // ComplexModelDto: property metadata plus a results table filled in place
  // ---------------------------------------------------------------------------

  class ComplexModelDto {
    const modelMetadata: ModelMetadata
    const propertyMetadata: seq<ModelMetadata>
    var results: map<ModelMetadata, ModelBindingResult>

    constructor (modelMetadata: ModelMetadata, propertyMetadata: seq<ModelMetadata>)
      ensures this.modelMetadata == modelMetadata
      ensures this.propertyMetadata == propertyMetadata
      ensures results == map[]
    {
      this.modelMetadata := modelMetadata;
      this.propertyMetadata := propertyMetadata;
      results := map[];
    }
  }

  // ---------------------------------------------------------------------------
  // ModelState: the request's error collection and its cap
  // ---------------------------------------------------------------------------

  datatype ModelError = ModelError(key: string, message: string)

  /**
   * `ModelStateDictionary.TryAddModelError` is not part of this model. Assumed here:
   * an error is recorded while fewer than `maxAllowedErrors` errors are recorded,
   * and dropped otherwise.
   */
  predicate AdmitsError(errorCount: nat, maxAllowedErrors: int) {
    errorCount < maxAllowedErrors
  }

  /** The error list after one `TryAddModelError` call. */
  function AfterTryAddError(errors: seq<ModelError>, maxAllowedErrors: int, e: ModelError)
    : seq<ModelError>
  {
    if AdmitsError(|errors|, maxAllowedErrors) then errors + [e] else errors
  }

  /** The error list after one `TryAddModelError` call per entry of `attempts`, in order. */
  function AfterTryAddErrors(errors: seq<ModelError>, maxAllowedErrors: int, attempts: seq<ModelError>)
    : seq<ModelError>
  {
    if attempts == [] then errors
    else
      AfterTryAddError(AfterTryAddErrors(errors, maxAllowedErrors, attempts[..|attempts| - 1]),
                       maxAllowedErrors, attempts[|attempts| - 1])
  }

  /** How many more errors the collection takes before it reaches its cap. */
  function Room(errorCount: nat, maxAllowedErrors: int): nat {
    if maxAllowedErrors <= errorCount then 0 else maxAllowedErrors - errorCount
  }

  /**
   * Errors already recorded are never lost, and of the attempted errors exactly the
   * first ones that fit under the cap are kept, in order; the rest are dropped.
   */
  lemma {:induction false} CapKeepsEarliestErrors(errors: seq<ModelError>, maxAllowedErrors: int,
                                                  attempts: seq<ModelError>)
    ensures var kept := if |attempts| <= Room(|errors|, maxAllowedErrors) then |attempts|
                        else Room(|errors|, maxAllowedErrors);
      AfterTryAddErrors(errors, maxAllowedErrors, attempts) == errors + attempts[..kept]
  {
    if attempts != [] {
      var n := |attempts| - 1;
      CapKeepsEarliestErrors(errors, maxAllowedErrors, attempts[..n]);
      var room := Room(|errors|, maxAllowedErrors);
      var keptBefore := if n <= room then n else room;
      assert attempts[..n][..keptBefore] == attempts[..keptBefore];
      if n < room {
        assert attempts[..keptBefore] + [attempts[n]] == attempts[..n + 1];
      }
    }
  }

  /** The cap bounds what a run of attempts can leave behind, and earlier errors stay a prefix. */
  lemma ErrorsStayWithinCap(errors: seq<ModelError>, maxAllowedErrors: int, attempts: seq<ModelError>)
    ensures errors <= AfterTryAddErrors(errors, maxAllowedErrors, attempts)
    ensures |AfterTryAddErrors(errors, maxAllowedErrors, attempts)| <= |errors| + |attempts|
    ensures |errors| <= maxAllowedErrors ==>
              |AfterTryAddErrors(errors, maxAllowedErrors, attempts)| <= maxAllowedErrors
    ensures maxAllowedErrors <= |errors| ==>
              AfterTryAddErrors(errors, maxAllowedErrors, attempts) == errors
  {
    CapKeepsEarliestErrors(errors, maxAllowedErrors, attempts);
  }

  class ModelStateDictionary {
    var errors: seq<ModelError>
    var maxAllowedErrors: int

    constructor (maxAllowedErrors: int)
      ensures errors == [] && this.maxAllowedErrors == maxAllowedErrors
    {
      errors := [];
      this.maxAllowedErrors := maxAllowedErrors;
    }

    method TryAddModelError(key: string, message: string) returns (added: bool)
      modifies this
      ensures maxAllowedErrors == old(maxAllowedErrors)
      ensures added <==> AdmitsError(|old(errors)|, maxAllowedErrors)
      ensures errors == AfterTryAddError(old(errors), maxAllowedErrors, ModelError(key, message))
    {
      added := AdmitsError(|errors|, maxAllowedErrors);
      if added {
        errors := errors + [ModelError(key, message)];
      }
    }

    /** One `TryAddModelError` call per entry of `attempts`, in order. */
    method TryAddModelErrors(attempts: seq<ModelError>)
      modifies this
      ensures maxAllowedErrors == old(maxAllowedErrors)
      ensures errors == AfterTryAddErrors(old(errors), maxAllowedErrors, attempts)
    {
      var i := 0;
      while i < |attempts|
        invariant 0 <= i <= |attempts|
        invariant maxAllowedErrors == old(maxAllowedErrors)
        invariant errors == AfterTryAddErrors(old(errors), maxAllowedErrors, attempts[..i])
      {
        var _ := TryAddModelError(attempts[i].key, attempts[i].message);
        assert attempts[..i + 1][..i] == attempts[..i];
        i := i + 1;
      }
      assert attempts[..i] == attempts;
    }
  }

  // ---------------------------------------------------------------------------
  // Binding contexts and the shared per-operation resources
  // ---------------------------------------------------------------------------

  /** `IModelMetadataProvider.GetMetadataForType`, a read-only foreign service. */
  class MetadataProvider {
    const forType: ModelType -> ModelMetadata

    constructor (forType: ModelType -> ModelMetadata)
      ensures this.forType == forType
    {
      this.forType := forType;
    }
  }

  /** `OperationBindingContext`: resources shared by every context of one operation. */
  datatype OperationContext = OperationContext(
    modelBinder: ModelBinderDispatcher,
    validatorProvider: nat,
    metadataProvider: MetadataProvider,
    httpContext: nat,
    valueProvider: nat)

  /** `ModelBindingContext`: one bind attempt. */
  datatype BindingContext = BindingContext(
    modelName: string,
    modelMetadata: ModelMetadata,
    bindingMetadata: Option<BindingMetadata>,
    model: Value,
    modelState: ModelStateDictionary,
    valueProvider: nat,
    operation: OperationContext)
  {
    function ModelType(): ModelType {
      modelMetadata.modelType
    }
  }

  /**
   * `ModelBindingHelper.CreatePropertyModelName` is not part of this model. Assumed
   * here: an empty prefix yields the property name, an empty or missing property
   * name yields the prefix, and otherwise the two are joined by a dot.
   */
  function CreatePropertyModelName(prefix: string, propertyName: Option<string>): string {
    if prefix == "" then
      (if propertyName.Some? then propertyName.value else "")
    else if propertyName == None || propertyName == Some("") then
      prefix
    else
      prefix + "." + propertyName.value
  }

  /**
   * The `ModelBindingContext(parent, modelName, metadata)` constructor is not part of
   * this model. Assumed here: the child shares the parent's model state, value
   * provider and operation context, and starts without a model.
   */
  function ChildContext(parent: BindingContext, modelName: string, metadata: ModelMetadata)
    : BindingContext
  {
    BindingContext(modelName, metadata, None, Null, parent.modelState,
                   parent.valueProvider, parent.operation)
  }

  /**
   * The recursive dispatcher `IModelBinder.BindModelAsync`. Which binder answers and
   * what it answers is an oracle, `resolve`; the errors the answering binders try to
   * record into the context's model state are a second oracle, `errorsRecorded`.
   * Every call is logged in `requests`, so the order in which a binder asks for its
   * children is observable.
   */
  class ModelBinderDispatcher {
    const resolve: BindingContext -> Option<ModelBindingResult>
    const errorsRecorded: BindingContext -> seq<ModelError>
    var requests: seq<BindingContext>

    constructor (resolve: BindingContext -> Option<ModelBindingResult>,
                 errorsRecorded: BindingContext -> seq<ModelError>)
      ensures this.resolve == resolve && this.errorsRecorded == errorsRecorded
      ensures requests == []
    {
      this.resolve := resolve;
      this.errorsRecorded := errorsRecorded;
      requests := [];
    }

    method BindModel(context: BindingContext) returns (r: Option<ModelBindingResult>)
      modifies this, context.modelState
      ensures r == resolve(context)
      ensures requests == old(requests) + [context]
      ensures context.modelState.maxAllowedErrors == old(context.modelState.maxAllowedErrors)
      ensures context.modelState.errors
              == AfterTryAddErrors(old(context.modelState.errors), context.modelState.maxAllowedErrors,
                                   errorsRecorded(context))
    {
      context.modelState.TryAddModelErrors(errorsRecorded(context));
      r := resolve(context);
      requests := requests + [context];
    }
  }

  /** The model state's errors after the dispatcher handled `contexts`, in order. */
  function ErrorsAfterRequests(errors: seq<ModelError>, maxAllowedErrors: int,
                               binder: ModelBinderDispatcher, contexts: seq<BindingContext>)
    : seq<ModelError>
  {
    if contexts == [] then errors
    else
      AfterTryAddErrors(ErrorsAfterRequests(errors, maxAllowedErrors, binder, contexts[..|contexts| - 1]),
                        maxAllowedErrors, binder.errorsRecorded(contexts[|contexts| - 1]))
  }

  /** One more request adds what its binder recorded, capped, after the earlier ones. */
  lemma ErrorsAfterOneMoreRequest(errors: seq<ModelError>, maxAllowedErrors: int,
                                  binder: ModelBinderDispatcher, contexts: seq<BindingContext>,
                                  context: BindingContext)
    ensures ErrorsAfterRequests(errors, maxAllowedErrors, binder, contexts + [context])
            == AfterTryAddErrors(ErrorsAfterRequests(errors, maxAllowedErrors, binder, contexts),
                                 maxAllowedErrors, binder.errorsRecorded(context))
  {
    assert (contexts + [context])[..|contexts|] == contexts;
  }

  /** Binding children never removes an error, and never takes the collection past its cap. */
  lemma {:induction false} RequestsOnlyAddErrors(errors: seq<ModelError>, maxAllowedErrors: int,
                                                 binder: ModelBinderDispatcher, contexts: seq<BindingContext>)
    ensures errors <= ErrorsAfterRequests(errors, maxAllowedErrors, binder, contexts)
    ensures |errors| <= maxAllowedErrors ==>
              |ErrorsAfterRequests(errors, maxAllowedErrors, binder, contexts)| <= maxAllowedErrors
  {
    if contexts != [] {
      var n := |contexts| - 1;
      RequestsOnlyAddErrors(errors, maxAllowedErrors, binder, contexts[..n]);
      ErrorsStayWithinCap(ErrorsAfterRequests(errors, maxAllowedErrors, binder, contexts[..n]),
                          maxAllowedErrors, binder.errorsRecorded(contexts[n]));
    }
  }
}
