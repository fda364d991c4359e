/**
 * `KeyValuePairModelBinder<TKey, TValue>`: binds the `Key` half, then the `Value`
 * half, through the dispatcher, and combines the two outcomes by a decision table.
 */
module KeyValuePairBinder {
  import opened Wrappers
  import opened ModelBinding

  /** Stands for the resource string `KeyValuePair_BothKeyAndValueMustBePresent` (its text is a stand-in). */
  const BothKeyAndValueMustBePresent: string := "Both a key and a value must be present."

  /** The context handed to the dispatcher for one half of the pair. */
  function HalfContext(parent: BindingContext, propertyName: string, modelType: ModelType)
    : BindingContext
  {
    ChildContext(parent,
                 CreatePropertyModelName(parent.modelName, Some(propertyName)),
                 parent.operation.metadataProvider.forType(modelType))
  }

  /**
   * What `TryBindStrongModel` returns: never `null`; the dispatcher's answer when it
   * has one, an unset `default(TModel)` under the child's model name otherwise.
   */
  function StrongModelResult(parent: BindingContext, propertyName: string, modelType: ModelType)
    : (r: ModelBindingResult)
    ensures var child := HalfContext(parent, propertyName, modelType);
      var answer := parent.operation.modelBinder.resolve(child);
      && (answer.Some? ==> r == answer.value)
      && (answer.None? ==> !r.isModelSet && r.key == child.modelName
                           && r.model == DefaultValue(modelType))
  {
    var child := HalfContext(parent, propertyName, modelType);
    match parent.operation.modelBinder.resolve(child)
    case Some(result) => result
    case None => NewResult(DefaultValue(modelType), child.modelName, false)
  }

  /** The half is set exactly when the dispatcher answered with a set result. */
  lemma StrongModelSetIffDispatcherSet(parent: BindingContext, propertyName: string, modelType: ModelType)
    ensures var answer := parent.operation.modelBinder.resolve(
              HalfContext(parent, propertyName, modelType));
      var half := StrongModelResult(parent, propertyName, modelType);
      half.isModelSet <==> answer.Some? && answer.value.isModelSet
  {
  }

  method TryBindStrongModel(parent: BindingContext, propertyName: string, modelType: ModelType)
    returns (r: ModelBindingResult)
    modifies parent.operation.modelBinder, parent.modelState
    ensures r == StrongModelResult(parent, propertyName, modelType)
    ensures parent.operation.modelBinder.requests
            == old(parent.operation.modelBinder.requests) + [HalfContext(parent, propertyName, modelType)]
    ensures parent.modelState.maxAllowedErrors == old(parent.modelState.maxAllowedErrors)
    ensures parent.modelState.errors
            == AfterTryAddErrors(old(parent.modelState.errors), parent.modelState.maxAllowedErrors,
                                 parent.operation.modelBinder.errorsRecorded(
                                   HalfContext(parent, propertyName, modelType)))
  {
    var child := HalfContext(parent, propertyName, modelType);
    var answer := child.operation.modelBinder.BindModel(child);
    if answer.Some? {
      return answer.value;
    }
    r := NewResult(DefaultValue(modelType), child.modelName, false);
  }

  /** The three outcomes of the decision table. */
  datatype PairOutcome =
    | PairBound(result: ModelBindingResult)
    | MissingHalf(errorKey: string)
    | NothingBound

  function PairDecision(keyResult: ModelBindingResult, valueResult: ModelBindingResult,
                        modelName: string, keyType: ModelType, valueType: ModelType)
    : (o: PairOutcome)
    ensures o.PairBound? <==> keyResult.isModelSet && valueResult.isModelSet
    ensures o.PairBound? ==>
              && o.result.isModelSet
              && o.result.key == modelName
              && o.result.model == Pair(CastOrDefault(keyType, keyResult.model),
                                        CastOrDefault(valueType, valueResult.model))
    ensures o.MissingHalf? <==> keyResult.isModelSet != valueResult.isModelSet
    ensures o.MissingHalf? ==>
              o.errorKey == if keyResult.isModelSet then valueResult.key else keyResult.key
    ensures o.NothingBound? <==> !keyResult.isModelSet && !valueResult.isModelSet
  {
    if keyResult.isModelSet && valueResult.isModelSet then
      var model := Pair(CastOrDefault(keyType, keyResult.model),
                        CastOrDefault(valueType, valueResult.model));
      PairBound(NewResult(model, modelName, true))
    else if !keyResult.isModelSet && valueResult.isModelSet then
      MissingHalf(keyResult.key)
    else if keyResult.isModelSet && !valueResult.isModelSet then
      MissingHalf(valueResult.key)
    else
      NothingBound
  }

  /** The binder's outcome for a context, from the two halves it binds. */
  function PairOutcomeFor(context: BindingContext, keyType: ModelType, valueType: ModelType)
    : PairOutcome
  {
    PairDecision(StrongModelResult(context, "Key", keyType),
                 StrongModelResult(context, "Value", valueType),
                 context.modelName, keyType, valueType)
  }

  /** What the binder returns: only a bound pair is a non-null result. */
  function BinderReturn(o: PairOutcome): Option<ModelBindingResult> {
    if o.PairBound? then Some(o.result) else None
  }

  /**
   * The model state's errors after the table was applied: one attempt for a missing
   * half, on top of whatever the two child binds recorded.
   */
  function ErrorsAfter(o: PairOutcome, errors: seq<ModelError>, maxAllowedErrors: int)
    : seq<ModelError>
  {
    if o.MissingHalf? then
      AfterTryAddError(errors, maxAllowedErrors, ModelError(o.errorKey, BothKeyAndValueMustBePresent))
    else
      errors
  }

  /**
   * `BindModelAsync`. `ModelBindingHelper.ValidateBindingContext` is not part of this
   * model; the pair's type arguments are passed in.
   */
  method BindModel(context: BindingContext, keyType: ModelType, valueType: ModelType)
    returns (r: Option<ModelBindingResult>)
    modifies context.operation.modelBinder, context.modelState
    ensures context.operation.modelBinder.requests
            == old(context.operation.modelBinder.requests)
               + [HalfContext(context, "Key", keyType), HalfContext(context, "Value", valueType)]
    ensures r == BinderReturn(PairOutcomeFor(context, keyType, valueType))
    ensures context.modelState.maxAllowedErrors == old(context.modelState.maxAllowedErrors)
    ensures var max := context.modelState.maxAllowedErrors;
      context.modelState.errors
      == ErrorsAfter(PairOutcomeFor(context, keyType, valueType),
                     ErrorsAfterRequests(old(context.modelState.errors), max, context.operation.modelBinder,
                                         [HalfContext(context, "Key", keyType),
                                          HalfContext(context, "Value", valueType)]),
                     max)
  {
    var keyResult := TryBindStrongModel(context, "Key", keyType);
    var valueResult := TryBindStrongModel(context, "Value", valueType);
    ghost var max := context.modelState.maxAllowedErrors;
    ghost var halves := [HalfContext(context, "Key", keyType), HalfContext(context, "Value", valueType)];
    assert halves[..1][..0] == [];
    assert ErrorsAfterRequests(old(context.modelState.errors), max, context.operation.modelBinder, halves[..1])
           == AfterTryAddErrors(old(context.modelState.errors), max,
                                context.operation.modelBinder.errorsRecorded(halves[0]));

    if keyResult.isModelSet && valueResult.isModelSet {
      var model := Pair(CastOrDefault(keyType, keyResult.model),
                        CastOrDefault(valueType, valueResult.model));
      return Some(NewResult(model, context.modelName, true));
    } else if !keyResult.isModelSet && valueResult.isModelSet {
      var _ := context.modelState.TryAddModelError(keyResult.key, BothKeyAndValueMustBePresent);
    } else if keyResult.isModelSet && !valueResult.isModelSet {
      var _ := context.modelState.TryAddModelError(valueResult.key, BothKeyAndValueMustBePresent);
    }
    return None;
  }

  /**
   * The whole table at once: a non-null return is always set, and at most one error
   * is attempted, only when exactly one half is set; with neither set nothing changes.
   */
  lemma PairTable(context: BindingContext, keyType: ModelType, valueType: ModelType,
                  errors: seq<ModelError>, maxAllowedErrors: int)
    ensures var o := PairOutcomeFor(context, keyType, valueType);
      var k := StrongModelResult(context, "Key", keyType);
      var v := StrongModelResult(context, "Value", valueType);
      && (BinderReturn(o).Some? ==> BinderReturn(o).value.isModelSet)
      && (BinderReturn(o).Some? <==> k.isModelSet && v.isModelSet)
      && (!k.isModelSet && !v.isModelSet ==> ErrorsAfter(o, errors, maxAllowedErrors) == errors)
      && (k.isModelSet && v.isModelSet ==> ErrorsAfter(o, errors, maxAllowedErrors) == errors)
      && (k.isModelSet != v.isModelSet && AdmitsError(|errors|, maxAllowedErrors) ==>
            ErrorsAfter(o, errors, maxAllowedErrors)
              == errors + [ModelError(if k.isModelSet then v.key else k.key,
                                      BothKeyAndValueMustBePresent)])
  {
  }

  /**
   * The binder never builds a result with `IsEmptyModel` set: the pair it returns has
   * bound content because it is set, and the stand-in for a declined half has none.
   */
  lemma BuiltResultsAreNeverEmptyModels(context: BindingContext, keyType: ModelType, valueType: ModelType,
                                        propertyName: string, modelType: ModelType)
    ensures var o := PairOutcomeFor(context, keyType, valueType);
      o.PairBound? ==> !o.result.isEmptyModel && HasBoundContent(o.result)
    ensures context.operation.modelBinder.resolve(HalfContext(context, propertyName, modelType)) == None ==>
              var half := StrongModelResult(context, propertyName, modelType);
              !half.isEmptyModel && !HasBoundContent(half)
  {
  }

  /**
   * A pair with only its value present: when the dispatcher declines the key, the
   * error lands on the key's own model name, `<name>.Key`.
   */
  lemma OnlyValuePresentReportsKey(context: BindingContext, keyType: ModelType, valueType: ModelType)
    requires context.modelName != ""
    requires context.operation.modelBinder.resolve(HalfContext(context, "Key", keyType)) == None
    requires var v := context.operation.modelBinder.resolve(HalfContext(context, "Value", valueType));
      v.Some? && v.value.isModelSet
    ensures PairOutcomeFor(context, keyType, valueType) == MissingHalf(context.modelName + ".Key")
  {
  }

  /** The mirror case: only the key present puts the error on `<name>.Value`. */
  lemma OnlyKeyPresentReportsValue(context: BindingContext, keyType: ModelType, valueType: ModelType)
    requires context.modelName != ""
    requires var k := context.operation.modelBinder.resolve(HalfContext(context, "Key", keyType));
      k.Some? && k.value.isModelSet
    requires context.operation.modelBinder.resolve(HalfContext(context, "Value", valueType)) == None
    ensures PairOutcomeFor(context, keyType, valueType) == MissingHalf(context.modelName + ".Value")
  {
  }

  /** The two halves are bound under distinct model names. */
  lemma HalvesHaveDistinctNames(context: BindingContext, keyType: ModelType, valueType: ModelType)
    ensures HalfContext(context, "Key", keyType).modelName
            != HalfContext(context, "Value", valueType).modelName
  {
    var p := context.modelName;
    if p != "" {
      var k := p + "." + "Key";
      var v := p + "." + "Value";
      assert k[|p| + 1] == 'K' && v[|p| + 1] == 'V';
    }
  }
}
