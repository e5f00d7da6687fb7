/**
  The N-API vocabulary the thread-safe function works with: raw pointers,
  status codes, JavaScript value handles, call and release modes, and the
  out-pointers through which the C entry points write their results.
 */
module NapiTypes {

  /** A raw pointer value (`void*`, `napi_env`, a C function pointer); 0 is `nullptr`. */
  type Address = nat

  const NULL: Address := 0

  datatype Option<+T> = None | Some(value: T)

  /** `napi_status`. */
  datatype Status =
    | Ok
    | InvalidArg
    | ObjectExpected
    | StringExpected
    | NameExpected
    | FunctionExpected
    | NumberExpected
    | BooleanExpected
    | ArrayExpected
    | GenericFailure
    | PendingException
    | Cancelled
    | EscapeCalledTwice
    | HandleScopeMismatch
    | CallbackScopeMismatch
    | QueueFull
    | Closing
    | BigintExpected
    | DateExpected
    | ArraybufferExpected
    | DetachableArraybufferExpected
    | WouldDeadlock
    | NoExternalBuffersAllowed
    | CannotRunJs

  /** `napi_valuetype`, as reported by `napi_typeof`. */
  datatype ValueType =
    | Undefined | Null | Boolean | Number | String | Symbol | Object | Function | External | Bigint

  /**
    A `napi_value`: either `nullptr`, or a handle to a JavaScript value whose
    type the runtime reports as `kind`. The runtime's answer is an input of
    the model; nothing else about the value is observed.
   */
  datatype JsValue = NullValue | Value(kind: ValueType)

  /** `napi_threadsafe_function_call_mode`. */
  datatype CallMode = NonBlocking | Blocking

  /** `napi_threadsafe_function_release_mode`. */
  datatype ReleaseMode = Release | Abort

  /** Which argument of `napi_create_threadsafe_function` a runtime call inspects. */
  datatype CreateParam = FuncParam | ResourceParam | NameParam

  /** A call into the N-API runtime whose own behaviour is not modelled. */
  datatype RuntimeCall =
    | Typeof(param: CreateParam)
    | CreateObject
    | CreateReference
    | GetUndefined
    | CallFunction(argc: nat)
    | ThrowError(code: string, msg: string)

  /** The memory cell behind an out-pointer such as `void** result`. */
  class Out<T> {
    var value: T

    constructor (v: T)
      ensures value == v
    {
      value := v;
    }
  }
}
