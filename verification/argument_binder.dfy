/**
 * `DefaultControllerActionArgumentBinder`: resolves the metadata of every declared
 * action parameter, binds each one through the dispatcher in declared order, and
 * puts each *set* result into the argument map and through the validator.
 */
module ArgumentBinder {
  import opened Wrappers
  import opened ModelBinding

  // ---------------------------------------------------------------------------
  // The action's shape, as reflection and the action descriptor present it
  // ---------------------------------------------------------------------------

  /** An entry of an attribute list; the binder metadata of a parameter may be `null`. */
  datatype AttributeValue = NoAttribute | CustomAttribute(name: string)

  /** A `ParameterInfo` of the action method. */
  datatype ParameterInfo = ParameterInfo(
    name: string,
    parameterType: ModelType,
    customAttributes: seq<AttributeValue>)

  /** A `ParameterDescriptor` declared by the action descriptor. */
  datatype ParameterDescriptor = ParameterDescriptor(name: string, binderMetadata: AttributeValue)

  datatype ActionDescriptor =
    | ControllerActionDescriptor(methodParameters: seq<ParameterInfo>,
                                 parameters: seq<ParameterDescriptor>)
    | OtherActionDescriptor

  datatype ActionContext = ActionContext(
    actionDescriptor: ActionDescriptor,
    httpContext: nat,
    modelState: ModelStateDictionary)

  datatype ActionBindingContext = ActionBindingContext(
    modelBinder: ModelBinderDispatcher,
    validatorProvider: nat,
    valueProvider: nat)

  /** `ModelMetadataIdentity.ForParameter`. */
  datatype ModelMetadataIdentity = ForParameter(parameter: ParameterInfo)

  /** The private `MetadataDTO` record. */
  datatype MetadataDto = MetadataDto(
    parameterName: string,
    modelMetadata: ModelMetadata,
    bindingMetadata: BindingMetadata)

  /** The exceptions `GetActionArgumentsAsync` throws. */
  datatype ArgumentBindingError =
    | ActionDescriptorMustBeControllerAction                 // ArgumentException
    | NoMatchingMethodParameter(parameterName: string)       // Single() on no element
    | MoreThanOneMatchingMethodParameter(parameterName: string)  // Single() on several

  datatype ModelExplorer = ModelExplorer(
    metadataProvider: MetadataProvider,
    metadata: ModelMetadata,
    model: Value)

  /** `ModelValidationContext`. */
  datatype ValidationRequest = ValidationRequest(
    key: string,
    validatorProvider: nat,
    modelState: ModelStateDictionary,
    explorer: ModelExplorer)

  // ---------------------------------------------------------------------------
  // Foreign services, kept abstract
  // ---------------------------------------------------------------------------

  /** `ICompositeMetadataDetailsProvider.GetBindingMetadata`. */
  class CompositeMetadataDetailsProvider {
    const bindingMetadataFor: (ModelMetadataIdentity, seq<AttributeValue>) -> BindingMetadata

    constructor (bindingMetadataFor: (ModelMetadataIdentity, seq<AttributeValue>) -> BindingMetadata)
      ensures this.bindingMetadataFor == bindingMetadataFor
    {
      this.bindingMetadataFor := bindingMetadataFor;
    }
  }

  /**
   * `IObjectModelValidator`: each call is logged, and the errors validation finds
   * for a request, an oracle, are tried on the request's model state in order.
   */
  class ObjectModelValidator {
    const errorsFor: ValidationRequest -> seq<ModelError>
    var requests: seq<ValidationRequest>

    constructor (errorsFor: ValidationRequest -> seq<ModelError>)
      ensures this.errorsFor == errorsFor && requests == []
    {
      this.errorsFor := errorsFor;
      requests := [];
    }

    method Validate(request: ValidationRequest)
      modifies this, request.modelState
      ensures requests == old(requests) + [request]
      ensures request.modelState.maxAllowedErrors == old(request.modelState.maxAllowedErrors)
      ensures request.modelState.errors
              == AfterTryAddErrors(old(request.modelState.errors), request.modelState.maxAllowedErrors,
                                   errorsFor(request))
    {
      request.modelState.TryAddModelErrors(errorsFor(request));
      requests := requests + [request];
    }
  }

  /** `MvcOptions`: the application's settings, which may change after the binder is built. */
  class MvcOptions {
    var maxModelValidationErrors: int

    constructor (maxModelValidationErrors: int)
      ensures this.maxModelValidationErrors == maxModelValidationErrors
    {
      this.maxModelValidationErrors := maxModelValidationErrors;
    }
  }

  // ---------------------------------------------------------------------------
  // Pairing a declared parameter with its method parameter: Where(...).Single()
  // ---------------------------------------------------------------------------

  /** `methodParameters.Where(p => p.Name == name)`, in order. */
  function MatchingParameters(methodParameters: seq<ParameterInfo>, name: string): seq<ParameterInfo> {
    if methodParameters == [] then []
    else
      (if methodParameters[0].name == name then [methodParameters[0]] else [])
        + MatchingParameters(methodParameters[1..], name)
  }

  /** `Single()`: the only element, or an exception for none or several. */
  function Single(matches: seq<ParameterInfo>, name: string): Result<ParameterInfo, ArgumentBindingError> {
    if |matches| == 1 then Ok(matches[0])
    else if matches == [] then Err(NoMatchingMethodParameter(name))
    else Err(MoreThanOneMatchingMethodParameter(name))
  }

  function MethodParameterFor(methodParameters: seq<ParameterInfo>, name: string)
    : Result<ParameterInfo, ArgumentBindingError>
  {
    Single(MatchingParameters(methodParameters, name), name)
  }

  /** Index `i` holds the one and only method parameter called `name`. */
  predicate UniqueMatchAt(methodParameters: seq<ParameterInfo>, name: string, i: int) {
    && 0 <= i < |methodParameters|
    && methodParameters[i].name == name
    && forall j :: 0 <= j < |methodParameters| && methodParameters[j].name == name ==> j == i
  }

  lemma {:induction false} MatchesCarryTheName(methodParameters: seq<ParameterInfo>, name: string)
    ensures forall p :: p in MatchingParameters(methodParameters, name) ==>
              p in methodParameters && p.name == name
  {
    if methodParameters != [] {
      MatchesCarryTheName(methodParameters[1..], name);
    }
  }

  lemma {:induction false} NoMatchIffNoneNamed(methodParameters: seq<ParameterInfo>, name: string)
    ensures MatchingParameters(methodParameters, name) == []
            <==> forall i :: 0 <= i < |methodParameters| ==> methodParameters[i].name != name
  {
    if methodParameters != [] {
      var tail := methodParameters[1..];
      NoMatchIffNoneNamed(tail, name);
      assert forall i :: 1 <= i < |methodParameters| ==> methodParameters[i] == tail[i - 1];
    }
  }

  lemma {:induction false} UniqueMatchIsTheOnlyMatch(methodParameters: seq<ParameterInfo>, name: string, i: int)
    requires UniqueMatchAt(methodParameters, name, i)
    ensures MatchingParameters(methodParameters, name) == [methodParameters[i]]
  {
    var tail := methodParameters[1..];
    assert forall j :: 1 <= j < |methodParameters| ==> methodParameters[j] == tail[j - 1];
    if i == 0 {
      NoMatchIffNoneNamed(tail, name);
    } else {
      assert UniqueMatchAt(tail, name, i - 1);
      UniqueMatchIsTheOnlyMatch(tail, name, i - 1);
    }
  }

  lemma {:induction false} OneMatchIsUnique(methodParameters: seq<ParameterInfo>, name: string)
    requires |MatchingParameters(methodParameters, name)| == 1
    ensures exists i :: UniqueMatchAt(methodParameters, name, i)
                        && MatchingParameters(methodParameters, name)[0] == methodParameters[i]
  {
    var tail := methodParameters[1..];
    assert forall j :: 1 <= j < |methodParameters| ==> methodParameters[j] == tail[j - 1];
    if methodParameters[0].name == name {
      NoMatchIffNoneNamed(tail, name);
      assert UniqueMatchAt(methodParameters, name, 0);
    } else {
      OneMatchIsUnique(tail, name);
      var k :| UniqueMatchAt(tail, name, k) && MatchingParameters(tail, name)[0] == tail[k];
      assert UniqueMatchAt(methodParameters, name, k + 1);
    }
  }

  /**
   * A declared parameter is paired exactly when one method parameter carries its
   * name; zero matches and several matches fail, with different exceptions.
   */
  lemma PairingNeedsExactlyOneMatch(methodParameters: seq<ParameterInfo>, name: string)
    ensures MethodParameterFor(methodParameters, name).Ok?
            <==> exists i :: UniqueMatchAt(methodParameters, name, i)
    ensures forall i :: UniqueMatchAt(methodParameters, name, i) ==>
              MethodParameterFor(methodParameters, name) == Ok(methodParameters[i])
    ensures MethodParameterFor(methodParameters, name) == Err(NoMatchingMethodParameter(name))
            <==> forall i :: 0 <= i < |methodParameters| ==> methodParameters[i].name != name
    ensures MethodParameterFor(methodParameters, name).Ok? ==>
              MethodParameterFor(methodParameters, name).value.name == name
  {
    NoMatchIffNoneNamed(methodParameters, name);
    MatchesCarryTheName(methodParameters, name);
    if |MatchingParameters(methodParameters, name)| == 1 {
      OneMatchIsUnique(methodParameters, name);
      assert MatchingParameters(methodParameters, name)[0] in MatchingParameters(methodParameters, name);
    }
    forall i | UniqueMatchAt(methodParameters, name, i)
      ensures MethodParameterFor(methodParameters, name) == Ok(methodParameters[i])
    {
      UniqueMatchIsTheOnlyMatch(methodParameters, name, i);
    }
  }

  // ---------------------------------------------------------------------------
  // The binder
  // ---------------------------------------------------------------------------

  /** The attribute list: the binder metadata first, then the custom attributes in order. */
  function AllAttributes(parameter: ParameterDescriptor, info: ParameterInfo): seq<AttributeValue> {
    [parameter.binderMetadata] + info.customAttributes
  }

  /**
   * `ModelBindingContext.GetModelBindingContext` is not part of this model. Assumed
   * here: the root context is named by the binding metadata's binder model name when
   * there is one, and after the parameter otherwise.
   */
  function RootModelName(parameter: MetadataDto): string {
    if parameter.bindingMetadata.binderModelName.Some? then parameter.bindingMetadata.binderModelName.value
    else parameter.parameterName
  }

  /** `GetModelBindingContext`: a root context sharing the call's model state and operation. */
  function RootContext(parameter: MetadataDto, modelState: ModelStateDictionary, operation: OperationContext)
    : BindingContext
  {
    BindingContext(RootModelName(parameter), parameter.modelMetadata, Some(parameter.bindingMetadata),
                   Null, modelState, operation.valueProvider, operation)
  }

  function RootResult(parameter: MetadataDto, modelState: ModelStateDictionary, operation: OperationContext)
    : Option<ModelBindingResult>
  {
    operation.modelBinder.resolve(RootContext(parameter, modelState, operation))
  }

  /** `modelBindingResult != null && modelBindingResult.IsModelSet`. */
  predicate IsBound(r: Option<ModelBindingResult>) {
    r.Some? && r.value.isModelSet
  }

  predicate BoundAt(parameters: seq<MetadataDto>, i: int, modelState: ModelStateDictionary,
                    operation: OperationContext)
  {
    0 <= i < |parameters| && IsBound(RootResult(parameters[i], modelState, operation))
  }

  /** The argument map after the parameters in `parameters` were bound in order. */
  function BoundArguments(parameters: seq<MetadataDto>, modelState: ModelStateDictionary,
                          operation: OperationContext)
    : map<string, Value>
  {
    if parameters == [] then map[]
    else
      var last := parameters[|parameters| - 1];
      var before := BoundArguments(parameters[..|parameters| - 1], modelState, operation);
      var r := RootResult(last, modelState, operation);
      if IsBound(r) then before[last.parameterName := r.value.model] else before
  }

  function ValidationRequestFor(parameter: MetadataDto, result: ModelBindingResult,
                                modelState: ModelStateDictionary, operation: OperationContext)
    : ValidationRequest
  {
    ValidationRequest(result.key, operation.validatorProvider, modelState,
                      ModelExplorer(operation.metadataProvider, parameter.modelMetadata, result.model))
  }

  /** The validator calls made while binding `parameters`, in order. */
  function ValidationRequests(parameters: seq<MetadataDto>, modelState: ModelStateDictionary,
                              operation: OperationContext)
    : seq<ValidationRequest>
  {
    if parameters == [] then []
    else
      var last := parameters[|parameters| - 1];
      var before := ValidationRequests(parameters[..|parameters| - 1], modelState, operation);
      var r := RootResult(last, modelState, operation);
      if IsBound(r) then before + [ValidationRequestFor(last, r.value, modelState, operation)] else before
  }

  /** The root contexts handed to the dispatcher, in declared order. */
  function RootContexts(parameters: seq<MetadataDto>, modelState: ModelStateDictionary,
                        operation: OperationContext)
    : seq<BindingContext>
  {
    if parameters == [] then []
    else
      RootContexts(parameters[..|parameters| - 1], modelState, operation)
        + [RootContext(parameters[|parameters| - 1], modelState, operation)]
  }

  /**
   * The model state's errors after binding `parameters` in order: for each one, what
   * its binders recorded, then, when it bound a set result, what validation recorded.
   */
  function ErrorsAfterParameters(errors: seq<ModelError>, maxAllowedErrors: int,
                                 parameters: seq<MetadataDto>, modelState: ModelStateDictionary,
                                 operation: OperationContext, validator: ObjectModelValidator)
    : seq<ModelError>
  {
    if parameters == [] then errors
    else
      var last := parameters[|parameters| - 1];
      var before := ErrorsAfterParameters(errors, maxAllowedErrors, parameters[..|parameters| - 1],
                                          modelState, operation, validator);
      var bound := AfterTryAddErrors(before, maxAllowedErrors,
                                     operation.modelBinder.errorsRecorded(RootContext(last, modelState, operation)));
      var r := RootResult(last, modelState, operation);
      if IsBound(r) then
        AfterTryAddErrors(bound, maxAllowedErrors,
                          validator.errorsFor(ValidationRequestFor(last, r.value, modelState, operation)))
      else bound
  }

  /**
   * Binding the arguments keeps every error recorded before it, in place, and with
   * the cap set first, never leaves more errors than the cap allows.
   */
  lemma {:induction false} ArgumentBindingKeepsEarlierErrors(
    errors: seq<ModelError>, maxAllowedErrors: int, parameters: seq<MetadataDto>,
    modelState: ModelStateDictionary, operation: OperationContext, validator: ObjectModelValidator)
    ensures errors <= ErrorsAfterParameters(errors, maxAllowedErrors, parameters, modelState, operation, validator)
    ensures |errors| <= maxAllowedErrors ==>
              |ErrorsAfterParameters(errors, maxAllowedErrors, parameters, modelState, operation, validator)|
              <= maxAllowedErrors
    ensures maxAllowedErrors <= |errors| ==>
              ErrorsAfterParameters(errors, maxAllowedErrors, parameters, modelState, operation, validator)
              == errors
  {
    if parameters != [] {
      var n := |parameters| - 1;
      ArgumentBindingKeepsEarlierErrors(errors, maxAllowedErrors, parameters[..n], modelState, operation, validator);
      var before := ErrorsAfterParameters(errors, maxAllowedErrors, parameters[..n], modelState, operation, validator);
      var context := RootContext(parameters[n], modelState, operation);
      ErrorsStayWithinCap(before, maxAllowedErrors, operation.modelBinder.errorsRecorded(context));
      var bound := AfterTryAddErrors(before, maxAllowedErrors, operation.modelBinder.errorsRecorded(context));
      var r := RootResult(parameters[n], modelState, operation);
      if IsBound(r) {
        ErrorsStayWithinCap(bound, maxAllowedErrors,
                            validator.errorsFor(ValidationRequestFor(parameters[n], r.value, modelState, operation)));
      }
    }
  }

  /** What binding one more parameter adds to the argument map, the logs and the errors. */
  lemma OneMoreParameter(errors: seq<ModelError>, maxAllowedErrors: int, parameters: seq<MetadataDto>, i: int,
                         modelState: ModelStateDictionary, operation: OperationContext,
                         validator: ObjectModelValidator)
    requires 0 <= i < |parameters|
    ensures var prefix := parameters[..i];
      var parameter := parameters[i];
      var context := RootContext(parameter, modelState, operation);
      var r := RootResult(parameter, modelState, operation);
      var bound := AfterTryAddErrors(
        ErrorsAfterParameters(errors, maxAllowedErrors, prefix, modelState, operation, validator),
        maxAllowedErrors, operation.modelBinder.errorsRecorded(context));
      && RootContexts(parameters[..i + 1], modelState, operation)
         == RootContexts(prefix, modelState, operation) + [context]
      && BoundArguments(parameters[..i + 1], modelState, operation)
         == (if IsBound(r) then BoundArguments(prefix, modelState, operation)[parameter.parameterName := r.value.model]
             else BoundArguments(prefix, modelState, operation))
      && ValidationRequests(parameters[..i + 1], modelState, operation)
         == (if IsBound(r)
             then ValidationRequests(prefix, modelState, operation)
                  + [ValidationRequestFor(parameter, r.value, modelState, operation)]
             else ValidationRequests(prefix, modelState, operation))
      && ErrorsAfterParameters(errors, maxAllowedErrors, parameters[..i + 1], modelState, operation, validator)
         == (if IsBound(r)
             then AfterTryAddErrors(bound, maxAllowedErrors,
                                    validator.errorsFor(ValidationRequestFor(parameter, r.value, modelState, operation)))
             else bound)
  {
    assert parameters[..i + 1][..i] == parameters[..i];
  }

  class DefaultControllerActionArgumentBinder {
    const metadataProvider: MetadataProvider
    const validator: ObjectModelValidator
    const compositeDetailsProvider: CompositeMetadataDetailsProvider
    /** The options object behind the accessor; its error cap is read on every call. */
    const options: MvcOptions

    constructor (metadataProvider: MetadataProvider, validator: ObjectModelValidator,
                 compositeDetailsProvider: CompositeMetadataDetailsProvider,
                 options: MvcOptions)
      ensures this.metadataProvider == metadataProvider && this.validator == validator
      ensures this.compositeDetailsProvider == compositeDetailsProvider
      ensures this.options == options
    {
      this.metadataProvider := metadataProvider;
      this.validator := validator;
      this.compositeDetailsProvider := compositeDetailsProvider;
      this.options := options;
    }

    /** The `MetadataDTO` built for a declared parameter and its method parameter. */
    function MetadataFor(parameter: ParameterDescriptor, info: ParameterInfo): MetadataDto {
      MetadataDto(info.name,
                  metadataProvider.forType(info.parameterType),
                  compositeDetailsProvider.bindingMetadataFor(ForParameter(info), AllAttributes(parameter, info)))
    }

    /** The metadata list for `parameters`, or the first pairing failure. */
    function ParameterMetadataList(methodParameters: seq<ParameterInfo>, parameters: seq<ParameterDescriptor>)
      : Result<seq<MetadataDto>, ArgumentBindingError>
    {
      if parameters == [] then Ok([])
      else
        var last := parameters[|parameters| - 1];
        match ParameterMetadataList(methodParameters, parameters[..|parameters| - 1])
        case Err(e) => Err(e)
        case Ok(list) =>
          match MethodParameterFor(methodParameters, last.name)
          case Err(e) => Err(e)
          case Ok(info) => Ok(list + [MetadataFor(last, info)])
    }

    /** Once a prefix fails, the whole list fails with the same exception. */
    lemma {:induction false} FailureIsFinal(methodParameters: seq<ParameterInfo>,
                                            parameters: seq<ParameterDescriptor>, i: nat)
      requires i <= |parameters|
      requires ParameterMetadataList(methodParameters, parameters[..i]).Err?
      ensures ParameterMetadataList(methodParameters, parameters)
              == ParameterMetadataList(methodParameters, parameters[..i])
      decreases |parameters| - i
    {
      if i < |parameters| {
        var prefix := parameters[..|parameters| - 1];
        assert prefix[..i] == parameters[..i];
        FailureIsFinal(methodParameters, prefix, i);
      } else {
        assert parameters[..i] == parameters;
      }
    }

    /**
     * The metadata list exists exactly when every declared parameter has a single
     * method parameter of its name; it then has one entry per declared parameter,
     * in order, named after it and built from its attribute list.
     */
    lemma {:induction false} MetadataListMeaning(methodParameters: seq<ParameterInfo>,
                                                 parameters: seq<ParameterDescriptor>)
      ensures ParameterMetadataList(methodParameters, parameters).Ok?
              <==> forall k :: 0 <= k < |parameters| ==>
                     MethodParameterFor(methodParameters, parameters[k].name).Ok?
      ensures ParameterMetadataList(methodParameters, parameters).Ok? ==>
                var list := ParameterMetadataList(methodParameters, parameters).value;
                && |list| == |parameters|
                && forall k :: 0 <= k < |parameters| ==>
                     && list[k] == MetadataFor(parameters[k],
                                               MethodParameterFor(methodParameters, parameters[k].name).value)
                     && list[k].parameterName == parameters[k].name
    {
      if parameters != [] {
        var n := |parameters| - 1;
        var prefix := parameters[..n];
        MetadataListMeaning(methodParameters, prefix);
        PairingNeedsExactlyOneMatch(methodParameters, parameters[n].name);
        assert forall k :: 0 <= k < n ==> prefix[k] == parameters[k];
        if ParameterMetadataList(methodParameters, parameters).Ok? {
          forall k | 0 <= k < |parameters|
            ensures MethodParameterFor(methodParameters, parameters[k].name).Ok?
          {
            if k < n {
              assert prefix[k] == parameters[k];
            }
          }
          forall k | 0 <= k < n
            ensures MethodParameterFor(methodParameters, parameters[k].name).value.name == parameters[k].name
          {
            PairingNeedsExactlyOneMatch(methodParameters, parameters[k].name);
          }
        }
      }
    }

    /** The loop of `GetActionArgumentsAsync` that builds the `MetadataDTO` list. */
    method BuildParameterMetadata(methodParameters: seq<ParameterInfo>, parameters: seq<ParameterDescriptor>)
      returns (r: Result<seq<MetadataDto>, ArgumentBindingError>)
      ensures r == ParameterMetadataList(methodParameters, parameters)
    {
      var parameterMetadata := [];
      var i := 0;
      while i < |parameters|
        invariant 0 <= i <= |parameters|
        invariant ParameterMetadataList(methodParameters, parameters[..i]) == Ok(parameterMetadata)
      {
        var parameter := parameters[i];
        assert parameters[..i + 1][..i] == parameters[..i];
        var parameterInfo := Single(MatchingParameters(methodParameters, parameter.name), parameter.name);
        if parameterInfo.Err? {
          FailureIsFinal(methodParameters, parameters, i + 1);
          return Err(parameterInfo.error);
        }
        var metadataDto := MetadataDto(
          parameterInfo.value.name,
          metadataProvider.forType(parameterInfo.value.parameterType),
          compositeDetailsProvider.bindingMetadataFor(
            ForParameter(parameterInfo.value), [parameter.binderMetadata] + parameterInfo.value.customAttributes));
        parameterMetadata := parameterMetadata + [metadataDto];
        i := i + 1;
      }
      assert parameters[..i] == parameters;
      r := Ok(parameterMetadata);
    }

    /** The `OperationBindingContext` shared by every parameter of one call. */
    function OperationFor(actionContext: ActionContext, actionBindingContext: ActionBindingContext)
      : OperationContext
    {
      OperationContext(actionBindingContext.modelBinder, actionBindingContext.validatorProvider,
                       metadataProvider, actionContext.httpContext, actionBindingContext.valueProvider)
    }

    /** `PopulateArgumentAsync`, writing into a fresh argument map. */
    method PopulateArguments(actionContext: ActionContext, actionBindingContext: ActionBindingContext,
                             parameters: seq<MetadataDto>)
      returns (arguments: map<string, Value>)
      modifies actionContext.modelState, actionBindingContext.modelBinder, validator
      ensures var modelState := actionContext.modelState;
        var operation := OperationFor(actionContext, actionBindingContext);
        && modelState.maxAllowedErrors == old(options.maxModelValidationErrors)
        && modelState.errors
           == ErrorsAfterParameters(old(modelState.errors), modelState.maxAllowedErrors, parameters,
                                    modelState, operation, validator)
        && arguments == BoundArguments(parameters, modelState, operation)
        && actionBindingContext.modelBinder.requests
           == old(actionBindingContext.modelBinder.requests) + RootContexts(parameters, modelState, operation)
        && validator.requests
           == old(validator.requests) + ValidationRequests(parameters, modelState, operation)
    {
      var operation := OperationFor(actionContext, actionBindingContext);
      var modelState := actionContext.modelState;
      var maxAllowedErrors := options.maxModelValidationErrors;
      modelState.maxAllowedErrors := maxAllowedErrors;

      arguments := map[];
      ghost var requests0 := actionBindingContext.modelBinder.requests;
      ghost var validations0 := validator.requests;
      ghost var errors0 := modelState.errors;
      var i := 0;
      while i < |parameters|
        invariant 0 <= i <= |parameters|
        invariant modelState.maxAllowedErrors == maxAllowedErrors
        invariant modelState.errors
                  == ErrorsAfterParameters(errors0, maxAllowedErrors, parameters[..i], modelState, operation, validator)
        invariant arguments == BoundArguments(parameters[..i], modelState, operation)
        invariant actionBindingContext.modelBinder.requests
                  == requests0 + RootContexts(parameters[..i], modelState, operation)
        invariant validator.requests == validations0 + ValidationRequests(parameters[..i], modelState, operation)
      {
        var parameter := parameters[i];
        OneMoreParameter(errors0, maxAllowedErrors, parameters, i, modelState, operation, validator);
        var modelBindingContext := RootContext(parameter, modelState, operation);
        AppendOne(requests0, RootContexts(parameters[..i], modelState, operation), modelBindingContext);
        var modelBindingResult := actionBindingContext.modelBinder.BindModel(modelBindingContext);
        if modelBindingResult != None && modelBindingResult.value.isModelSet {
          var modelExplorer := ModelExplorer(metadataProvider, parameter.modelMetadata,
                                             modelBindingResult.value.model);
          arguments := arguments[parameter.parameterName := modelBindingResult.value.model];
          var validationContext := ValidationRequest(modelBindingResult.value.key,
                                                     actionBindingContext.validatorProvider,
                                                     actionContext.modelState, modelExplorer);
          AppendOne(validations0, ValidationRequests(parameters[..i], modelState, operation), validationContext);
          validator.Validate(validationContext);
        }
        i := i + 1;
      }
      assert parameters[..i] == parameters;
    }

    /** `GetActionArgumentsAsync`. */
    method GetActionArguments(actionContext: ActionContext, actionBindingContext: ActionBindingContext)
      returns (r: Result<map<string, Value>, ArgumentBindingError>)
      modifies actionContext.modelState, actionBindingContext.modelBinder, validator
      ensures !actionContext.actionDescriptor.ControllerActionDescriptor? ==>
                && r == Err(ActionDescriptorMustBeControllerAction)
                && unchanged(actionContext.modelState, actionBindingContext.modelBinder, validator)
      ensures actionContext.actionDescriptor.ControllerActionDescriptor? ==>
                var descriptor := actionContext.actionDescriptor;
                var list := ParameterMetadataList(descriptor.methodParameters, descriptor.parameters);
                var modelState := actionContext.modelState;
                var operation := OperationFor(actionContext, actionBindingContext);
                && (list.Err? ==>
                      && r == Err(list.error)
                      && unchanged(actionContext.modelState, actionBindingContext.modelBinder, validator))
                && (list.Ok? ==>
                      && r == Ok(BoundArguments(list.value, modelState, operation))
                      && modelState.maxAllowedErrors == old(options.maxModelValidationErrors)
                      && modelState.errors
                         == ErrorsAfterParameters(old(modelState.errors), modelState.maxAllowedErrors,
                                                  list.value, modelState, operation, validator)
                      && actionBindingContext.modelBinder.requests
                         == old(actionBindingContext.modelBinder.requests)
                            + RootContexts(list.value, modelState, operation)
                      && validator.requests
                         == old(validator.requests) + ValidationRequests(list.value, modelState, operation))
    {
      if !actionContext.actionDescriptor.ControllerActionDescriptor? {
        return Err(ActionDescriptorMustBeControllerAction);
      }
      var descriptor := actionContext.actionDescriptor;
      var parameterMetadata := BuildParameterMetadata(descriptor.methodParameters, descriptor.parameters);
      if parameterMetadata.Err? {
        return Err(parameterMetadata.error);
      }
      var actionArguments := PopulateArguments(actionContext, actionBindingContext, parameterMetadata.value);
      r := Ok(actionArguments);
    }
  }

  // ---------------------------------------------------------------------------
  // What the argument map and the validator log hold
  // ---------------------------------------------------------------------------

  /** A name is a key of the argument map exactly when some parameter of that name bound a set result. */
  lemma {:induction false} ArgumentKeysAreBoundParameters(
    parameters: seq<MetadataDto>, modelState: ModelStateDictionary, operation: OperationContext)
    ensures forall name :: name in BoundArguments(parameters, modelState, operation)
              <==> exists i :: BoundAt(parameters, i, modelState, operation)
                               && parameters[i].parameterName == name
  {
    if parameters != [] {
      var n := |parameters| - 1;
      var prefix := parameters[..n];
      ArgumentKeysAreBoundParameters(prefix, modelState, operation);
      assert forall i :: 0 <= i < n ==> prefix[i] == parameters[i];
      forall name | name in BoundArguments(parameters, modelState, operation)
        ensures exists i :: BoundAt(parameters, i, modelState, operation)
                            && parameters[i].parameterName == name
      {
        if name !in BoundArguments(prefix, modelState, operation) {
          assert BoundAt(parameters, n, modelState, operation);
        } else {
          var i :| BoundAt(prefix, i, modelState, operation) && prefix[i].parameterName == name;
          assert BoundAt(parameters, i, modelState, operation);
        }
      }
      forall name | exists i :: BoundAt(parameters, i, modelState, operation)
                                && parameters[i].parameterName == name
        ensures name in BoundArguments(parameters, modelState, operation)
      {
        var i :| BoundAt(parameters, i, modelState, operation) && parameters[i].parameterName == name;
        if i < n {
          assert BoundAt(prefix, i, modelState, operation);
        }
      }
    }
  }

  predicate DistinctNames(parameters: seq<MetadataDto>) {
    forall i, j :: 0 <= i < j < |parameters| ==> parameters[i].parameterName != parameters[j].parameterName
  }

  /** With distinct parameter names, each bound parameter's entry is its result's model. */
  lemma {:induction false} ArgumentValuesAreBoundModels(
    parameters: seq<MetadataDto>, modelState: ModelStateDictionary, operation: OperationContext)
    requires DistinctNames(parameters)
    ensures forall i :: BoundAt(parameters, i, modelState, operation) ==>
              && parameters[i].parameterName in BoundArguments(parameters, modelState, operation)
              && BoundArguments(parameters, modelState, operation)[parameters[i].parameterName]
                 == RootResult(parameters[i], modelState, operation).value.model
  {
    if parameters != [] {
      var n := |parameters| - 1;
      var prefix := parameters[..n];
      ArgumentValuesAreBoundModels(prefix, modelState, operation);
      forall i | BoundAt(parameters, i, modelState, operation)
        ensures parameters[i].parameterName in BoundArguments(parameters, modelState, operation)
        ensures BoundArguments(parameters, modelState, operation)[parameters[i].parameterName]
                == RootResult(parameters[i], modelState, operation).value.model
      {
        if i < n {
          assert prefix[i] == parameters[i];
          assert BoundAt(prefix, i, modelState, operation);
          assert parameters[i].parameterName != parameters[n].parameterName;
        }
      }
    }
  }

  /** The validation request for the parameter at index `i`, were it bound. */
  function RequestAt(parameters: seq<MetadataDto>, i: int, modelState: ModelStateDictionary,
                     operation: OperationContext)
    : ValidationRequest
    requires BoundAt(parameters, i, modelState, operation)
  {
    ValidationRequestFor(parameters[i], RootResult(parameters[i], modelState, operation).value,
                         modelState, operation)
  }

  /** The indices of the bound parameters, in declared order. */
  function BoundIndices(parameters: seq<MetadataDto>, modelState: ModelStateDictionary,
                        operation: OperationContext)
    : seq<int>
  {
    if parameters == [] then []
    else
      var n := |parameters| - 1;
      BoundIndices(parameters[..n], modelState, operation)
        + (if IsBound(RootResult(parameters[n], modelState, operation)) then [n] else [])
  }

  /** The bound indices are exactly the bound parameters, each once, in increasing order. */
  lemma {:induction false} BoundIndicesAreTheBoundParameters(
    parameters: seq<MetadataDto>, modelState: ModelStateDictionary, operation: OperationContext)
    ensures forall i :: i in BoundIndices(parameters, modelState, operation)
              <==> BoundAt(parameters, i, modelState, operation)
    ensures forall a, b :: 0 <= a < b < |BoundIndices(parameters, modelState, operation)| ==>
              BoundIndices(parameters, modelState, operation)[a]
              < BoundIndices(parameters, modelState, operation)[b]
  {
    if parameters != [] {
      var n := |parameters| - 1;
      var prefix := parameters[..n];
      BoundIndicesAreTheBoundParameters(prefix, modelState, operation);
      assert forall i :: 0 <= i < n ==> prefix[i] == parameters[i];
      var before := BoundIndices(prefix, modelState, operation);
      forall a | 0 <= a < |before|
        ensures 0 <= before[a] < n
      {
        assert before[a] in before;
        assert BoundAt(prefix, before[a], modelState, operation);
      }
    }
  }

  /**
   * The validator is called once per bound parameter, in declared order, with that
   * result's key and model; never for a null or unset result.
   */
  lemma {:induction false} ValidatedOncePerBoundParameter(
    parameters: seq<MetadataDto>, modelState: ModelStateDictionary, operation: OperationContext)
    ensures |ValidationRequests(parameters, modelState, operation)|
            == |BoundIndices(parameters, modelState, operation)|
    ensures forall j :: 0 <= j < |BoundIndices(parameters, modelState, operation)| ==>
              && BoundAt(parameters, BoundIndices(parameters, modelState, operation)[j], modelState, operation)
              && ValidationRequests(parameters, modelState, operation)[j]
                 == RequestAt(parameters, BoundIndices(parameters, modelState, operation)[j], modelState, operation)
  {
    BoundIndicesAreTheBoundParameters(parameters, modelState, operation);
    if parameters != [] {
      var n := |parameters| - 1;
      var prefix := parameters[..n];
      ValidatedOncePerBoundParameter(prefix, modelState, operation);
      BoundIndicesAreTheBoundParameters(prefix, modelState, operation);
      var indices := BoundIndices(parameters, modelState, operation);
      var before := BoundIndices(prefix, modelState, operation);
      forall j | 0 <= j < |before|
        ensures RequestAt(prefix, before[j], modelState, operation)
                == RequestAt(parameters, before[j], modelState, operation)
      {
        assert before[j] in before;
        assert prefix[before[j]] == parameters[before[j]];
      }
    }
  }

  /** With distinct parameter names there is one validator call per argument-map entry. */
  lemma {:induction false} OneValidationPerArgument(
    parameters: seq<MetadataDto>, modelState: ModelStateDictionary, operation: OperationContext)
    requires DistinctNames(parameters)
    ensures |ValidationRequests(parameters, modelState, operation)|
            == |BoundArguments(parameters, modelState, operation)|
  {
    if parameters != [] {
      var n := |parameters| - 1;
      var prefix := parameters[..n];
      assert DistinctNames(prefix);
      OneValidationPerArgument(prefix, modelState, operation);
      ArgumentKeysAreBoundParameters(prefix, modelState, operation);
      if IsBound(RootResult(parameters[n], modelState, operation)) {
        assert parameters[n].parameterName !in BoundArguments(prefix, modelState, operation);
      }
    }
  }

  /**
   * End to end: when the action's parameters pair up, the argument map has key `name`
   * exactly when a declared parameter called `name` bound a set result.
   */
  lemma ArgumentsComeFromDeclaredParameters(
    binder: DefaultControllerActionArgumentBinder, descriptor: ActionDescriptor,
    modelState: ModelStateDictionary, operation: OperationContext, name: string)
    requires descriptor.ControllerActionDescriptor?
    requires binder.ParameterMetadataList(descriptor.methodParameters, descriptor.parameters).Ok?
    ensures |binder.ParameterMetadataList(descriptor.methodParameters, descriptor.parameters).value|
            == |descriptor.parameters|
    ensures var list := binder.ParameterMetadataList(descriptor.methodParameters, descriptor.parameters).value;
      name in BoundArguments(list, modelState, operation)
      <==> exists k :: 0 <= k < |descriptor.parameters| && descriptor.parameters[k].name == name
                       && IsBound(RootResult(list[k], modelState, operation))
  {
    var list := binder.ParameterMetadataList(descriptor.methodParameters, descriptor.parameters).value;
    binder.MetadataListMeaning(descriptor.methodParameters, descriptor.parameters);
    ArgumentKeysAreBoundParameters(list, modelState, operation);
    if name in BoundArguments(list, modelState, operation) {
      var i :| BoundAt(list, i, modelState, operation) && list[i].parameterName == name;
      assert descriptor.parameters[i].name == name;
    } else {
      forall k | 0 <= k < |descriptor.parameters| && descriptor.parameters[k].name == name
        ensures !IsBound(RootResult(list[k], modelState, operation))
      {
        assert list[k].parameterName == name;
        assert !BoundAt(list, k, modelState, operation);
      }
    }
  }

  /**
   * Each root context is named after its parameter unless its binding metadata names
   * a binder model, and shares the operation's resources.
   */
  lemma RootContextShape(parameter: MetadataDto, modelState: ModelStateDictionary, operation: OperationContext)
    ensures var context := RootContext(parameter, modelState, operation);
      && (parameter.bindingMetadata.binderModelName == None ==> context.modelName == parameter.parameterName)
      && (parameter.bindingMetadata.binderModelName.Some? ==>
            context.modelName == parameter.bindingMetadata.binderModelName.value)
      && context.valueProvider == operation.valueProvider
      && context.operation == operation
      && context.modelState == modelState
      && context.modelMetadata == parameter.modelMetadata
      && context.bindingMetadata == Some(parameter.bindingMetadata)
  {
  }

  /** One dispatcher request per parameter, in declared order. */
  lemma {:induction false} RootContextsInDeclaredOrder(
    parameters: seq<MetadataDto>, modelState: ModelStateDictionary, operation: OperationContext)
    ensures |RootContexts(parameters, modelState, operation)| == |parameters|
    ensures forall i :: 0 <= i < |parameters| ==>
              RootContexts(parameters, modelState, operation)[i] == RootContext(parameters[i], modelState, operation)
  {
    if parameters != [] {
      RootContextsInDeclaredOrder(parameters[..|parameters| - 1], modelState, operation);
    }
  }

  /**
   * With distinct names, a parameter whose binder set the model to `null` still gets
   * an argument, `null`, while a parameter whose result is missing or unset gets none.
   */
  lemma SetNullIsAnArgumentUnsetIsNot(
    parameters: seq<MetadataDto>, modelState: ModelStateDictionary, operation: OperationContext, i: int, key: string)
    requires DistinctNames(parameters) && 0 <= i < |parameters|
    ensures RootResult(parameters[i], modelState, operation) == Some(NewResult(Null, key, true)) ==>
              && parameters[i].parameterName in BoundArguments(parameters, modelState, operation)
              && BoundArguments(parameters, modelState, operation)[parameters[i].parameterName] == Null
    ensures !IsBound(RootResult(parameters[i], modelState, operation)) ==>
              parameters[i].parameterName !in BoundArguments(parameters, modelState, operation)
  {
    ArgumentValuesAreBoundModels(parameters, modelState, operation);
    ArgumentKeysAreBoundParameters(parameters, modelState, operation);
    forall j | BoundAt(parameters, j, modelState, operation)
                 && parameters[j].parameterName == parameters[i].parameterName
      ensures j == i
    {
    }
  }
}
