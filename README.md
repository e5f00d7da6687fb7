# Reduced thread-safe function (TSFN) of the Hermes greeter host

This project models the thread-safe function in
`hermes-node-api/greeter/hermes-cli/threadsafe_function.cpp`. The file calls itself
a reduced, demonstration-only version of the Node.js primitive. A
`ThreadSafeFunction` holds a FIFO of opaque `void*` items. `Push` enqueues an
item and posts one `Dispatch` task to the shared task runner `tsfnTaskRunner`.
Each run of `Dispatch` pops at most one item, passes it to `call_js_cb_`
together with `env_`, a null `cb` and `context_`, and posts another
`Dispatch` if items remain. The C entry points check creation arguments,
return the stored context, forward calls to `Push`, and treat acquire,
release, ref and unref as no-ops.

Files and modules:

- `napi_types.dfy`, module `NapiTypes`. Raw pointers are `Address` (a `nat`,
  where 0 is `nullptr`). Also here: `napi_status`, `napi_valuetype`, the call
  and release modes, and `napi_value` as `JsValue`, which is either null or
  carries the type `napi_typeof` reports. `Out<T>` is the memory cell behind
  an out-pointer. `RuntimeCall` names the calls into the N-API runtime.
- `tsfn_core.dfy`, module `TsfnCore`. The global task runner is the class
  `TaskRunner`. Its `tasks` field holds the posted `Dispatch` tasks, one entry
  per task, each naming its object. `ThreadSafeFunction` is a class: the values
  set once at creation are `const` fields, and `queue_` is a `seq` field. Two
  ghost fields record history: `pushed` (every item pushed) and `invocations`
  (every callback invocation).
- `tsfn_api.dfy`, module `TsfnApi`. The C entry points. The argument checks
  of `napi_create_threadsafe_function` form a pure function.
  `CreateThreadsafeFunction` uses that function, then allocates the object and
  writes it to `*result`.

The runner's invariant (`TaskRunner.Valid`) has two parts. First, every client
has at least as many posted `Dispatch` tasks as queued items, so no queued
item is left without a scheduled dispatch. Second, every client is
`Consistent`: what was pushed equals what was delivered followed by what is
queued. That second part is the FIFO guarantee. `Push` and every run of a task
preserve the invariant. The invariant does not depend on which posted task the
runner runs next: `RunTask` takes the index as an argument.

The default `CallJs` is modelled by the runtime calls it makes.
`DefaultCallJsInert` proves that for every invocation `Dispatch` has made it
makes none, because `Dispatch` always passes a null `cb`. So the default
callback never calls into JavaScript in this implementation.

Node.js's full thread-safe function has a bounded queue, blocking pushes,
producer reference counting, abort, and an Open/Closing/Closed lifecycle with
a finalizer. This reduced version (`threadsafe_function.cpp:10-16`) has none
of these. `max_queue_size`, `initial_thread_count` (beyond the zero check) and
the call `mode` are accepted and ignored. Acquire and release return `napi_ok`
and do nothing. The finalizer is stored and never called.

## Model

| member | source | states |
|---|---|---|
| `TsfnCore.Delivered` | hermes-node-api/greeter/hermes-cli/threadsafe_function.cpp:58-64 | the items passed to the callback by a log of invocations: one per invocation, in order, each the invocation's `data` |
| `TsfnCore.DeliveredAppend` | hermes-node-api/greeter/hermes-cli/threadsafe_function.cpp:58-64 | one more invocation adds exactly its `data` to the end of the delivered items |
| `TsfnCore.TaskRunner.TakeTask` | hermes-node-api/greeter/hermes-cli/threadsafe_function.cpp:73-75 | the runner removes exactly the chosen posted task; its object is then one task short of its queue length and every other client keeps the invariant |
| `TsfnCore.TaskRunner.RunTask` | hermes-node-api/greeter/hermes-cli/threadsafe_function.cpp:52-75 | running any posted task performs one `Dispatch` of its object: the front item (if any) goes to the callback, the task list loses that task and gains one for the same object exactly when items remain, and the runner invariant still holds |
| `TsfnCore.ThreadSafeFunction.constructor` | hermes-node-api/greeter/hermes-cli/threadsafe_function.cpp:22-40 | stores `context`, `env`, the finalize data and callback; `call_js_cb_` is the given callback, or the default `CallJs` when it is null; a function reference is taken exactly when `func` is non-null; the queue starts empty; thread count, queue size, resource and name are not stored |
| `TsfnCore.ThreadSafeFunction.Push` | hermes-node-api/greeter/hermes-cli/threadsafe_function.cpp:42-47 | for every mode: returns `napi_ok`, appends `data` at the back of the queue (length grows by one), posts exactly one `Dispatch` task for this object, and keeps the runner invariant |
| `TsfnCore.ThreadSafeFunction.Dispatch` | hermes-node-api/greeter/hermes-cli/threadsafe_function.cpp:52-71 | on an empty queue: no callback, no task posted; otherwise removes only the front item and invokes `call_js_cb_(env_, nullptr, context_, item)` exactly once; posts a follow-up task if and only if the queue is still non-empty; restores the runner invariant |
| `TsfnCore.ThreadSafeFunction.Send` | hermes-node-api/greeter/hermes-cli/threadsafe_function.cpp:73-75 | appends one task for this object to the runner and no other change; an object that was one task short is then covered again |
| `TsfnCore.ThreadSafeFunction.Context` | hermes-node-api/greeter/hermes-cli/threadsafe_function.cpp:49 | returns `context_`, the value stored at creation |
| `TsfnCore.ThreadSafeFunction.CallJs` | hermes-node-api/greeter/hermes-cli/threadsafe_function.cpp:79-99 | no runtime call at all when `env` or `cb` is null. Otherwise: gets `undefined` first; calls the function exactly when that succeeded; throws `ERR_NAPI_TSFN_GET_UNDEFINED` or `ERR_NAPI_TSFN_CALL_JS`, last, exactly on the failures the source tests for (a pending exception is not a failure). At most three calls in all: one `napi_get_undefined`, at most one `napi_call_function`, at most one throw, and nothing else |
| `TsfnCore.DefaultCallJsInert` | hermes-node-api/greeter/hermes-cli/threadsafe_function.cpp:64 | for every invocation `Dispatch` has made, the default `CallJs` makes no runtime call, whatever statuses the runtime would return |
| `TsfnCore.DeliveryIsFifo` | hermes-node-api/greeter/hermes-cli/threadsafe_function.cpp:42-71 | the data passed to the callback is a prefix of the data pushed, in push order, and the queue holds exactly the remainder |
| `TsfnCore.IdleRunnerDeliveredAll` | hermes-node-api/greeter/hermes-cli/threadsafe_function.cpp:42-75 | when the runner has no task left, every client's queue is empty and every pushed item has been delivered |
| `TsfnApi.CheckCreateArguments` | hermes-node-api/greeter/hermes-cli/threadsafe_function.cpp:130-161 | returns `napi_ok` exactly when all of these hold, and `napi_invalid_arg` otherwise: `env` is non-null; the name is non-null; the thread count is non-zero; `result` is non-null; `func` or `call_js_cb` is non-null; a non-null `func` is a function; a non-null resource is an object; the name is a string. The runtime calls it makes follow the source's order, and none happens before the four null and zero checks pass |
| `TsfnApi.CreateThreadsafeFunction` | hermes-node-api/greeter/hermes-cli/threadsafe_function.cpp:118-181 | returns the status of the argument checks; on failure writes nothing to `*result` and registers nothing; on success writes a fresh object with an empty queue, the given context, env and finalize data, and the chosen `call_js_cb_` |
| `TsfnApi.GetThreadsafeFunctionContext` | hermes-node-api/greeter/hermes-cli/threadsafe_function.cpp:183-189 | `napi_invalid_arg` exactly for a null handle or null `result`, and then nothing is written; otherwise `napi_ok` with `*result` equal to the context given at creation |
| `TsfnApi.CallThreadsafeFunction` | hermes-node-api/greeter/hermes-cli/threadsafe_function.cpp:191-197 | a null handle gives `napi_invalid_arg` and changes nothing; otherwise it behaves as `Push`: `napi_ok`, item appended, one task posted |
| `TsfnApi.AcquireThreadsafeFunction` | hermes-node-api/greeter/hermes-cli/threadsafe_function.cpp:199-203 | returns `napi_ok` and changes no state (empty frame) |
| `TsfnApi.ReleaseThreadsafeFunction` | hermes-node-api/greeter/hermes-cli/threadsafe_function.cpp:205-209 | returns `napi_ok` for both release modes and changes no state |
| `TsfnApi.UnrefThreadsafeFunction` | hermes-node-api/greeter/hermes-cli/threadsafe_function.cpp:211-215 | returns `napi_ok` and changes no state |
| `TsfnApi.RefThreadsafeFunction` | hermes-node-api/greeter/hermes-cli/threadsafe_function.cpp:217-221 | returns `napi_ok` and changes no state |

## Left out

- The `std::mutex` and real threads: each locked region is one atomic method. `Dispatch`'s two locked regions and the unlocked callback between them are one atomic step, so a `Push` from another thread cannot interleave inside a `Dispatch`.
- The global `tsfnTaskRunner` as a variable: it is taken to be set before the first creation and never replaced. Each object is bound to that one non-null runner when it is created. A null or reassigned global, which `Send` would dereference, is not modelled.
- The task runner's scheduling order and its own loop (`node_lite.h` is not part of this model): the posted task to run is a parameter of `RunTask`, and no claim is made about when tasks run.
- The effects of a user-supplied `call_js_cb`: the model records each invocation (callee, env, cb, context, data) and nothing else.
- N-API runtime calls (`napi_typeof`, `napi_create_object`, `napi_create_reference`, `napi_get_undefined`, `napi_call_function`, `napi_throw_error`): foreign code. They appear as `RuntimeCall` entries in a returned trace. The type `napi_typeof` reports is an input. Their statuses are ignored where the source ignores them.
- The `napi_generic_failure` return for a null `new` result (lines 174-176): allocation cannot fail in the model, and C++ `new` throws rather than returning null, so the branch is unreachable.
- The identity of `func_ref_` and of the created `async_resource`: neither is used after creation. The model keeps only whether a reference was taken.
- Bounded capacity, blocking, reference counting, abort, the lifecycle states, finalization and destruction: the source has none of them. `finalize_cb_` is stored and never called, and no code path deletes the object.
- `main.cpp`, `module_info.cpp`, `module_info.cs`, the greeter bindings and the JS files: I/O, OS calls and string glue around a foreign runtime.
