/**
 * `ComplexModelDtoModelBinder`: for a `ComplexModelDto` context, binds every listed
 * property through the dispatcher, in list order, and writes each child's result
 * into the DTO's `Results` table.
 */
module ComplexModelDtoBinder {
  import opened Wrappers
  import opened ModelBinding

  /** Raised when the context's model is not a `ComplexModelDto` instance. */
  datatype BindingContextError = ModelIsNotComplexModelDto

  /** The child's model name: the binder model name when present, else the property name. */
  function PropertyModelName(context: BindingContext, property: ModelMetadata): string {
    CreatePropertyModelName(
      context.modelName,
      if property.binderModelName.Some? then property.binderModelName else property.propertyName)
  }

  function PropertyContext(context: BindingContext, property: ModelMetadata): BindingContext {
    ChildContext(context, PropertyModelName(context, property), property)
  }

  /** The entry written for one property: the dispatcher's answer, or an explicit unset result. */
  function PropertyResult(context: BindingContext, property: ModelMetadata): (r: ModelBindingResult)
    ensures var answer := context.operation.modelBinder.resolve(PropertyContext(context, property));
      && (answer.Some? ==> r == answer.value)
      && (answer.None? ==> r.model == Null && r.key == PropertyModelName(context, property)
                           && !r.isModelSet && !r.isEmptyModel)
  {
    match context.operation.modelBinder.resolve(PropertyContext(context, property))
    case None => NewResult(Null, PropertyModelName(context, property), false)
    case Some(result) => result
  }

  /** The table after the properties in `properties` were visited in order. */
  function FilledResults(results: map<ModelMetadata, ModelBindingResult>, context: BindingContext,
                         properties: seq<ModelMetadata>)
    : map<ModelMetadata, ModelBindingResult>
  {
    if properties == [] then results
    else
      var last := properties[|properties| - 1];
      FilledResults(results, context, properties[..|properties| - 1])[last := PropertyResult(context, last)]
  }

  /** What visiting one more property adds to the table and to the request log. */
  lemma OneMoreProperty(results: map<ModelMetadata, ModelBindingResult>, context: BindingContext,
                        properties: seq<ModelMetadata>, i: int)
    requires 0 <= i < |properties|
    ensures FilledResults(results, context, properties[..i + 1])
            == FilledResults(results, context, properties[..i])[properties[i] := PropertyResult(context, properties[i])]
    ensures PropertyContexts(context, properties[..i + 1])
            == PropertyContexts(context, properties[..i]) + [PropertyContext(context, properties[i])]
  {
    assert properties[..i + 1][..i] == properties[..i];
  }

  /** The child contexts handed to the dispatcher, in order. */
  function PropertyContexts(context: BindingContext, properties: seq<ModelMetadata>)
    : seq<BindingContext>
  {
    if properties == [] then []
    else
      PropertyContexts(context, properties[..|properties| - 1])
        + [PropertyContext(context, properties[|properties| - 1])]
  }

  /** `BindModelAsync`. */
  method BindModel(context: BindingContext)
    returns (r: Result<Option<ModelBindingResult>, BindingContextError>)
    modifies context.operation.modelBinder, context.modelState, ObjectsOf(context.model)
    ensures context.ModelType() != ComplexModelDtoType ==>
              && r == Ok(None)
              && unchanged(context.operation.modelBinder, context.modelState)
              && unchanged(ObjectsOf(context.model))
    ensures context.ModelType() == ComplexModelDtoType && !context.model.DtoModel? ==>
              && r == Err(ModelIsNotComplexModelDto)
              && unchanged(context.operation.modelBinder, context.modelState)
    ensures context.ModelType() == ComplexModelDtoType && context.model.DtoModel? ==>
              var dto := context.model.dto;
              var max := context.modelState.maxAllowedErrors;
              && r == Ok(Some(DtoResult(context)))
              && dto.results == FilledResults(old(dto.results), context, dto.propertyMetadata)
              && context.operation.modelBinder.requests
                 == old(context.operation.modelBinder.requests)
                    + PropertyContexts(context, dto.propertyMetadata)
              && max == old(context.modelState.maxAllowedErrors)
              && context.modelState.errors
                 == ErrorsAfterRequests(old(context.modelState.errors), max, context.operation.modelBinder,
                                        PropertyContexts(context, dto.propertyMetadata))
  {
    if context.ModelType() != ComplexModelDtoType {
      return Ok(None);
    }
    if !context.model.DtoModel? {
      return Err(ModelIsNotComplexModelDto);
    }

    var dto := context.model.dto;
    var binder := context.operation.modelBinder;
    var properties := dto.propertyMetadata;
    ghost var results0 := dto.results;
    ghost var requests0 := binder.requests;
    var modelState := context.modelState;
    ghost var errors0 := modelState.errors;
    var i := 0;
    while i < |properties|
      invariant 0 <= i <= |properties|
      invariant dto.results == FilledResults(results0, context, properties[..i])
      invariant binder.requests == requests0 + PropertyContexts(context, properties[..i])
      invariant modelState.maxAllowedErrors == old(modelState.maxAllowedErrors)
      invariant modelState.errors
                == ErrorsAfterRequests(errors0, modelState.maxAllowedErrors, binder,
                                       PropertyContexts(context, properties[..i]))
    {
      var property := properties[i];
      OneMoreProperty(results0, context, properties, i);
      var propertyModelName := PropertyModelName(context, property);
      var propertyContext := ChildContext(context, propertyModelName, property);

      AppendOne(requests0, PropertyContexts(context, properties[..i]), propertyContext);
      var answer := binder.BindModel(propertyContext);
      ErrorsAfterOneMoreRequest(errors0, modelState.maxAllowedErrors, binder,
                                PropertyContexts(context, properties[..i]), propertyContext);
      var result := if answer == None then NewResult(Null, propertyModelName, false) else answer.value;
      dto.results := dto.results[property := result];
      i := i + 1;
    }
    assert properties[..i] == properties;
    r := Ok(Some(NewResult(context.model, context.modelName, true)));
  }

  /**
   * The binder's own result: the same DTO, set, under the context's model name. It
   * never carries `IsEmptyModel`, so it always counts as bound content.
   */
  function DtoResult(context: BindingContext): (r: ModelBindingResult)
    ensures r.model == context.model && r.key == context.modelName
    ensures HasBoundContent(r)
  {
    NewResult(context.model, context.modelName, true)
  }

  /**
   * Neither result the binder builds itself sets `IsEmptyModel`: a declined property
   * is recorded without bound content, and a dispatcher answer keeps its own flags.
   */
  lemma {:induction false} PropertyResultFlags(context: BindingContext, property: ModelMetadata)
    ensures var answer := context.operation.modelBinder.resolve(PropertyContext(context, property));
      var r := PropertyResult(context, property);
      && (answer.None? ==> !r.isEmptyModel && !HasBoundContent(r))
      && (answer.Some? ==> (HasBoundContent(r) <==> HasBoundContent(answer.value)))
  {
  }

  /** After the loop, every listed property has the entry its child bind produced. */
  lemma {:induction false} EveryPropertyHasAnEntry(
    results: map<ModelMetadata, ModelBindingResult>, context: BindingContext,
    properties: seq<ModelMetadata>)
    ensures forall p :: p in properties ==>
              p in FilledResults(results, context, properties)
              && FilledResults(results, context, properties)[p] == PropertyResult(context, p)
  {
    if properties != [] {
      EveryPropertyHasAnEntry(results, context, properties[..|properties| - 1]);
    }
  }

  /** Entries for metadata not in the list are left as they were, and no others appear. */
  lemma {:induction false} OtherEntriesUntouched(
    results: map<ModelMetadata, ModelBindingResult>, context: BindingContext,
    properties: seq<ModelMetadata>)
    ensures FilledResults(results, context, properties).Keys
            == results.Keys + set p | p in properties
    ensures forall k :: k in results && k !in properties ==>
              FilledResults(results, context, properties)[k] == results[k]
  {
    if properties != [] {
      var prefix := properties[..|properties| - 1];
      OtherEntriesUntouched(results, context, prefix);
      assert properties == prefix + [properties[|properties| - 1]];
    }
  }

  /** One child request per listed property, in list order. */
  lemma {:induction false} ChildrenRequestedInOrder(context: BindingContext, properties: seq<ModelMetadata>)
    ensures |PropertyContexts(context, properties)| == |properties|
    ensures forall i :: 0 <= i < |properties| ==>
              PropertyContexts(context, properties)[i] == PropertyContext(context, properties[i])
  {
    if properties != [] {
      ChildrenRequestedInOrder(context, properties[..|properties| - 1]);
    }
  }

  /**
   * Each child context shares the parent's model state, value provider and operation,
   * and a binder model name overrides the property name in the child's model name.
   */
  lemma ChildNaming(context: BindingContext, property: ModelMetadata, name: string)
    requires context.modelName != "" && name != ""
    requires property.binderModelName == Some(name)
    ensures PropertyContext(context, property).modelName == context.modelName + "." + name
    ensures PropertyContext(context, property).modelState == context.modelState
    ensures PropertyContext(context, property).valueProvider == context.valueProvider
    ensures PropertyContext(context, property).operation == context.operation
    ensures PropertyContext(context, property).modelMetadata == property
  {
  }

  /** Without a binder model name the property name is used. */
  lemma ChildNamingDefault(context: BindingContext, property: ModelMetadata, name: string)
    requires context.modelName != "" && name != ""
    requires property.binderModelName == None && property.propertyName == Some(name)
    ensures PropertyModelName(context, property) == context.modelName + "." + name
  {
  }
}
