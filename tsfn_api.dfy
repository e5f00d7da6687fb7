/**
  The C entry points of the reduced thread-safe function: creation with its
  ordered argument checks, the context getter, the call that forwards to
  `Push`, and the acquire/release/ref/unref stubs.

  The global `tsfnTaskRunner` is the `runner` argument of creation.
 */
module TsfnApi {
  import opened NapiTypes
  import opened TsfnCore

  /** What the argument checks of creation conclude, and the runtime calls they make, in order. */
  datatype CreateCheck = CreateCheck(status: Status, runtimeCalls: seq<RuntimeCall>)

  /** The runtime calls made by argument checks that all pass. */
  function CheckingCalls(func: JsValue, asyncResource: JsValue): seq<RuntimeCall>
  {
    (if func.NullValue? then [] else [Typeof(FuncParam)])
    + (if asyncResource.NullValue? then [CreateObject] else [Typeof(ResourceParam)])
    + [Typeof(NameParam)]
  }

  /**
    The guards of `napi_create_threadsafe_function`, in source order, up to
    creating the object. `resultIsNull` says whether the `result` out-pointer
    is null; the kinds carried by the `JsValue`s are what `napi_typeof`
    reports for them.
   */
  function CheckCreateArguments(env: Address, func: JsValue, asyncResource: JsValue, asyncResourceName: JsValue,
                                initialThreadCount: nat, callJsCb: Address, resultIsNull: bool): (v: CreateCheck)
    ensures v.status == Ok || v.status == InvalidArg
    ensures v.status == Ok <==>
              && env != NULL
              && asyncResourceName != NullValue
              && initialThreadCount != 0
              && !resultIsNull
              && (func == NullValue ==> callJsCb != NULL)
              && (func != NullValue ==> func.kind == Function)
              && (asyncResource != NullValue ==> asyncResource.kind == Object)
              && asyncResourceName.kind == String
    ensures v.runtimeCalls <= CheckingCalls(func, asyncResource)
    ensures v.status == Ok ==> v.runtimeCalls == CheckingCalls(func, asyncResource)
    // The four null and zero checks come before any runtime call.
    ensures env == NULL || asyncResourceName == NullValue || initialThreadCount == 0 || resultIsNull ==>
              v.runtimeCalls == []
    // A rejected `func` stops the chain before `async_resource` is touched.
    ensures v.status == InvalidArg && (func == NullValue ==> callJsCb == NULL) && (func != NullValue ==> func.kind != Function) ==>
              v.runtimeCalls <= (if func == NullValue then [] else [Typeof(FuncParam)])
    // A rejected `async_resource` stops the chain before the name is inspected.
    ensures Typeof(NameParam) in v.runtimeCalls ==> asyncResource != NullValue ==> asyncResource.kind == Object
  {
    if env == NULL then CreateCheck(InvalidArg, [])
    else if asyncResourceName == NullValue then CreateCheck(InvalidArg, [])
    else if initialThreadCount == 0 then CreateCheck(InvalidArg, [])
    else if resultIsNull then CreateCheck(InvalidArg, [])
    else
      var funcCalls := if func == NullValue then [] else [Typeof(FuncParam)];
      if func == NullValue && callJsCb == NULL then CreateCheck(InvalidArg, funcCalls)
      else if func != NullValue && func.kind != Function then CreateCheck(InvalidArg, funcCalls)
      else
        var resourceCalls := funcCalls + (if asyncResource == NullValue then [CreateObject] else [Typeof(ResourceParam)]);
        if asyncResource != NullValue && asyncResource.kind != Object then CreateCheck(InvalidArg, resourceCalls)
        else
          var allCalls := resourceCalls + [Typeof(NameParam)];
          if asyncResourceName.kind != String then CreateCheck(InvalidArg, allCalls)
          else CreateCheck(Ok, allCalls)
  }

  /**
    `napi_create_threadsafe_function`. On every rejected argument it returns
    `napi_invalid_arg` and writes nothing; otherwise it writes a new object
    with an empty queue to `*result`. `calls` is the runtime calls made.
   */
  method CreateThreadsafeFunction(runner: TaskRunner, env: Address, func: JsValue, asyncResource: JsValue,
                                  asyncResourceName: JsValue, maxQueueSize: nat, initialThreadCount: nat,
                                  threadFinalizeData: Address, threadFinalizeCb: Address, context: Address,
                                  callJsCb: Address, result: Out?<ThreadSafeFunction?>)
    returns (status: Status, calls: seq<RuntimeCall>)
    requires runner.Valid()
    modifies result, runner`clients
    ensures var check := CheckCreateArguments(env, func, asyncResource, asyncResourceName,
                                              initialThreadCount, callJsCb, result == null);
            && status == check.status
            && calls == check.runtimeCalls + (if status == Ok && func != NullValue then [CreateReference] else [])
    ensures runner.Valid()
    ensures status != Ok ==> runner.clients == old(runner.clients) && (result != null ==> result.value == old(result.value))
    ensures status == Ok ==>
              && result != null && result.value != null && fresh(result.value)
              && result.value.runner == runner
              && result.value.context == context && result.value.env == env
              && result.value.finalizeData == threadFinalizeData && result.value.finalizeCb == threadFinalizeCb
              && result.value.callJs == (if callJsCb == NULL then DefaultCallJs else UserCallJs(callJsCb))
              && result.value.holdsFuncRef == (func != NullValue)
              && result.value.queue == [] && result.value.pushed == [] && result.value.invocations == []
              && runner.clients == old(runner.clients) + {result.value}
  {
    var check := CheckCreateArguments(env, func, asyncResource, asyncResourceName,
                                      initialThreadCount, callJsCb, result == null);
    status := check.status;
    calls := check.runtimeCalls;
    if status == Ok {
      var tsFn := new ThreadSafeFunction(runner, func, asyncResource, asyncResourceName, initialThreadCount,
                                         context, maxQueueSize, env, threadFinalizeData, threadFinalizeCb, callJsCb);
      if func != NullValue {
        calls := calls + [CreateReference];
      }
      result.value := tsFn;
    }
  }

  /** `napi_get_threadsafe_function_context`. */
  method GetThreadsafeFunctionContext(func: ThreadSafeFunction?, result: Out?<Address>) returns (status: Status)
    modifies result
    ensures status == Ok || status == InvalidArg
    ensures status == InvalidArg <==> func == null || result == null
    ensures status == Ok ==> result.value == func.context
    ensures status != Ok && result != null ==> result.value == old(result.value)
  {
    if func == null {
      return InvalidArg;
    }
    if result == null {
      return InvalidArg;
    }
    result.value := func.Context();
    status := Ok;
  }

  /** `napi_call_threadsafe_function`: a null handle is rejected, anything else is pushed. */
  method CallThreadsafeFunction(func: ThreadSafeFunction?, data: Address, isBlocking: CallMode) returns (status: Status)
    requires func != null ==> func.runner.Valid() && func in func.runner.clients
    modifies if func == null then {} else {func, func.runner}
    ensures func == null ==> status == InvalidArg
    ensures func != null ==>
              && status == Ok
              && func.queue == old(func.queue) + [data]
              && func.pushed == old(func.pushed) + [data]
              && func.invocations == old(func.invocations)
              && func.runner.tasks == old(func.runner.tasks) + [func]
              && func.runner.clients == old(func.runner.clients)
              && func.runner.Valid()
  {
    if func == null {
      return InvalidArg;
    }
    status := func.Push(data, isBlocking);
  }

  /** `napi_acquire_threadsafe_function`: changes nothing. */
  method AcquireThreadsafeFunction(func: ThreadSafeFunction?) returns (status: Status)
    ensures status == Ok
  {
    status := Ok;
  }

  /** `napi_release_threadsafe_function`: changes nothing, whatever the mode. */
  method ReleaseThreadsafeFunction(func: ThreadSafeFunction?, mode: ReleaseMode) returns (status: Status)
    ensures status == Ok
  {
    status := Ok;
  }

  /** `napi_unref_threadsafe_function`: changes nothing. */
  method UnrefThreadsafeFunction(env: Address, func: ThreadSafeFunction?) returns (status: Status)
    ensures status == Ok
  {
    status := Ok;
  }

  /** `napi_ref_threadsafe_function`: changes nothing. */
  method RefThreadsafeFunction(env: Address, func: ThreadSafeFunction?) returns (status: Status)
    ensures status == Ok
  {
    status := Ok;
  }
}
