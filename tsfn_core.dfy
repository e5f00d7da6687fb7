/**
  The reduced thread-safe function: a FIFO of opaque items, drained one item
  per `Dispatch` task posted to a shared task runner.

  Each locked region of the C++ class is one atomic method here. The shared
  task runner is an object holding the posted `Dispatch` tasks; which of them
  runs next is the caller's choice (an index), so nothing below depends on
  the runner's scheduling order.
 */
module TsfnCore {
  import opened NapiTypes

  /** The `call_js_cb_` a thread-safe function holds. */
  datatype CallJsFn = DefaultCallJs | UserCallJs(address: Address)

  /** One invocation `call_js_cb_(env, cb, context, data)` made by `Dispatch`. */
  datatype Invocation = Invocation(callee: CallJsFn, env: Address, cb: JsValue, context: Address, data: Address)

  /** The items handed to the callback by a log of invocations, in order. */
  function Delivered(log: seq<Invocation>): (items: seq<Address>)
    ensures |items| == |log|
    ensures forall k :: 0 <= k < |log| ==> items[k] == log[k].data
  {
    if log == [] then [] else [log[0].data] + Delivered(log[1..])
  }

  lemma {:induction false} DeliveredAppend(log: seq<Invocation>, call: Invocation)
    ensures Delivered(log + [call]) == Delivered(log) + [call.data]
  {
    if log != [] {
      assert (log + [call])[1..] == log[1..] + [call];
      DeliveredAppend(log[1..], call);
    }
  }

  /**
    The shared task runner (`tsfnTaskRunner`): the `Dispatch` tasks posted
    and not yet run, one entry per task, naming the object it dispatches.
    `clients` is every thread-safe function that posts to this runner.
   */
  class TaskRunner {
    var tasks: seq<ThreadSafeFunction>
    ghost var clients: set<ThreadSafeFunction>

    /**
      Every posted task belongs to a client, and every client is consistent
      and has at least as many posted tasks as queued items; `running`, when
      not null, is the client whose task has just been taken off the runner
      and may be one short.
     */
    ghost predicate ValidWhileRunning(running: ThreadSafeFunction?)
      reads this, clients
    {
      && (forall i :: 0 <= i < |tasks| ==> tasks[i] in clients)
      && (running != null ==> running in clients)
      && forall f :: f in clients ==>
           && f.runner == this
           && f.Consistent()
           && f.PendingDispatches() + (if f == running then 1 else 0) >= |f.queue|
    }

    ghost predicate Valid()
      reads this, clients
    {
      ValidWhileRunning(null)
    }

    constructor ()
      ensures tasks == [] && clients == {}
      ensures Valid()
    {
      tasks := [];
      clients := {};
    }

    /** Takes the posted task at index `i` off the runner and runs it. */
    method RunTask(i: nat) returns (ran: ThreadSafeFunction, call: Option<Invocation>)
      requires Valid() && i < |tasks|
      modifies this`tasks, (tasks[i] as ThreadSafeFunction)`queue, (tasks[i] as ThreadSafeFunction)`invocations
      ensures ran == old(tasks[i])
      ensures Valid()
      ensures old(ran.queue) == [] ==> call == None && ran.queue == [] && ran.invocations == old(ran.invocations)
      ensures old(ran.queue) != [] ==>
                && call == Some(Invocation(ran.callJs, ran.env, NullValue, ran.context, old(ran.queue[0])))
                && ran.queue == old(ran.queue[1..])
                && ran.invocations == old(ran.invocations) + [call.value]
      ensures tasks == old(tasks[..i] + tasks[i+1..]) + (if ran.queue != [] then [ran] else [])
    {
      ran := TakeTask(i);
      call := ran.Dispatch();
    }

    /** Removes the posted task at index `i`, leaving its object one task short. */
    method TakeTask(i: nat) returns (taken: ThreadSafeFunction)
      requires Valid() && i < |tasks|
      modifies this`tasks
      ensures taken == old(tasks[i]) && tasks == old(tasks[..i] + tasks[i+1..])
      ensures ValidWhileRunning(taken)
    {
      taken := tasks[i];
      ghost var before := tasks;
      tasks := tasks[..i] + tasks[i+1..];
      assert before == before[..i] + [taken] + before[i+1..];
      assert multiset(before) == multiset(tasks) + multiset{taken};
      forall j | 0 <= j < |tasks| ensures tasks[j] in clients {
        if j < i { assert tasks[j] == before[j]; } else { assert tasks[j] == before[j + 1]; }
      }
    }
  }

  /** `class ThreadSafeFunction`. */
  class ThreadSafeFunction {
    /** The task runner its `Dispatch` tasks are posted to. */
    const runner: TaskRunner

    // Set once, on creation.
    const context: Address
    const env: Address
    const finalizeData: Address
    const finalizeCb: Address
    const callJs: CallJsFn
    /** Whether creation took a reference (`func_ref_`) to a JavaScript function. */
    const holdsFuncRef: bool

    /** `queue_`, front first. */
    var queue: seq<Address>

    /** Every item pushed, in push order. */
    ghost var pushed: seq<Address>
    /** Every callback invocation made by `Dispatch`, in order. */
    ghost var invocations: seq<Invocation>

    /**
      What was pushed is what was delivered followed by what is queued, and
      every invocation went to `call_js_cb_` with this object's `env_`, a
      null `cb` and this object's `context_`.
     */
    ghost predicate Consistent()
      reads this
    {
      && pushed == Delivered(invocations) + queue
      && forall call :: call in invocations ==>
           call.callee == callJs && call.env == env && call.cb == NullValue && call.context == context
    }

    /** The number of `Dispatch` tasks for this object posted to the runner and not yet run. */
    ghost function PendingDispatches(): nat
      reads runner`tasks
    {
      multiset(runner.tasks)[this]
    }

    constructor (runner: TaskRunner, func: JsValue, resource: JsValue, name: JsValue, threadCount: nat,
                 context: Address, maxQueueSize: nat, env: Address, finalizeData: Address,
                 finalizeCb: Address, callJsCb: Address)
      requires runner.Valid()
      modifies runner`clients
      ensures this.runner == runner && this.context == context && this.env == env
      ensures this.finalizeData == finalizeData && this.finalizeCb == finalizeCb
      ensures callJs == if callJsCb == NULL then DefaultCallJs else UserCallJs(callJsCb)
      ensures holdsFuncRef == func.Value?
      ensures queue == [] && pushed == [] && invocations == []
      ensures runner.clients == old(runner.clients) + {this}
      ensures runner.Valid()
    {
      this.runner := runner;
      this.context := context;
      this.env := env;
      this.finalizeData := finalizeData;
      this.finalizeCb := finalizeCb;
      this.callJs := if callJsCb == NULL then DefaultCallJs else UserCallJs(callJsCb);
      this.holdsFuncRef := func.Value?;
      queue := [];
      pushed := [];
      invocations := [];
      new;
      runner.clients := runner.clients + {this};
    }

    /** `Context()`: the `context_` stored at creation. */
    function Context(): (c: Address)
      ensures c == context
    {
      context
    }

    /** Enqueues `data` and posts one `Dispatch` task; `mode` is ignored. */
    method Push(data: Address, mode: CallMode) returns (status: Status)
      requires runner.Valid() && this in runner.clients
      modifies this`queue, this`pushed, runner`tasks
      ensures status == Ok
      ensures queue == old(queue) + [data] && pushed == old(pushed) + [data]
      ensures runner.tasks == old(runner.tasks) + [this]
      ensures runner.Valid()
    {
      queue := queue + [data];
      pushed := pushed + [data];
      assert Consistent();
      Send();
      status := Ok;
    }

    /**
      One run of a posted `Dispatch` task, whose entry the runner has already
      removed: pops the front item if there is one, invokes the callback with
      it, and posts another task if items remain.
     */
    method Dispatch() returns (call: Option<Invocation>)
      requires runner.ValidWhileRunning(this)
      modifies this`queue, this`invocations, runner`tasks
      ensures old(queue) == [] ==> call == None && queue == [] && invocations == old(invocations)
      ensures old(queue) != [] ==>
                && call == Some(Invocation(callJs, env, NullValue, context, old(queue[0])))
                && queue == old(queue[1..])
                && invocations == old(invocations) + [call.value]
      ensures runner.tasks == old(runner.tasks) + (if queue != [] then [this] else [])
      ensures runner.Valid()
    {
      var poppedValue := false;
      var data := NULL;
      if queue != [] {
        data := queue[0];
        queue := queue[1..];
        poppedValue := true;
      }
      if poppedValue {
        call := Some(Invocation(callJs, env, NullValue, context, data));
        DeliveredAppend(invocations, call.value);
        invocations := invocations + [call.value];
      } else {
        call := None;
      }
      assert Consistent();
      if queue != [] {
        Send();
      }
    }

    /** Posts one `Dispatch` task for this object, which makes up the one it was short. */
    method Send()
      requires runner.ValidWhileRunning(this)
      modifies runner`tasks
      ensures runner.tasks == old(runner.tasks) + [this]
      ensures runner.Valid()
    {
      ghost var tasks0 := runner.tasks;
      runner.tasks := runner.tasks + [this];
      forall g | g in runner.clients
        ensures multiset(runner.tasks)[g] == multiset(tasks0)[g] + (if g == this then 1 else 0)
      {
      }
      forall k | 0 <= k < |runner.tasks| ensures runner.tasks[k] in runner.clients {
        if k < |tasks0| { assert runner.tasks[k] == tasks0[k]; }
      }
    }

    /**
      The default `call_js_cb_`: the runtime calls it makes, given the status
      the runtime returns for `napi_get_undefined` and `napi_call_function`.
     */
    static function CallJs(env: Address, cb: JsValue, undefinedStatus: Status, callStatus: Status): (calls: seq<RuntimeCall>)
      ensures calls == [] <==> env == NULL || cb == NullValue
      ensures calls != [] ==> calls[0] == GetUndefined
      ensures |calls| <= 3
      ensures multiset(calls)[GetUndefined] <= 1 && multiset(calls)[CallFunction(0)] <= 1
      ensures forall c :: c in calls ==> c == GetUndefined || c == CallFunction(0) || c.ThrowError?
      ensures forall k :: 0 < k < |calls| - 1 ==> calls[k] == CallFunction(0)
      ensures CallFunction(0) in calls <==> calls != [] && undefinedStatus == Ok
      ensures (exists code, msg :: ThrowError(code, msg) in calls) <==>
                calls != [] && (undefinedStatus != Ok || (callStatus != Ok && callStatus != PendingException))
      ensures calls != [] && undefinedStatus != Ok ==>
                calls[|calls| - 1] == ThrowError("ERR_NAPI_TSFN_GET_UNDEFINED", "Failed to retrieve undefined value")
      ensures calls != [] && undefinedStatus == Ok && callStatus != Ok && callStatus != PendingException ==>
                calls[|calls| - 1] == ThrowError("ERR_NAPI_TSFN_CALL_JS", "Failed to call JS callback")
    {
      if env == NULL || cb == NullValue then []
      else if undefinedStatus != Ok then
        [GetUndefined, ThrowError("ERR_NAPI_TSFN_GET_UNDEFINED", "Failed to retrieve undefined value")]
      else if callStatus != Ok && callStatus != PendingException then
        [GetUndefined, CallFunction(0), ThrowError("ERR_NAPI_TSFN_CALL_JS", "Failed to call JS callback")]
      else
        [GetUndefined, CallFunction(0)]
    }
  }

  /**
    FIFO delivery: the items handed to the callback are a prefix of the items
    pushed, and the queue holds exactly the rest, in push order.
   */
  lemma DeliveryIsFifo(f: ThreadSafeFunction)
    requires f.Consistent()
    ensures Delivered(f.invocations) <= f.pushed
    ensures f.queue == f.pushed[|f.invocations|..]
  {
  }

  /**
    The default `CallJs`, given any invocation `Dispatch` made, calls nothing
    in the runtime, whatever the runtime would answer.
   */
  lemma DefaultCallJsInert(f: ThreadSafeFunction, undefinedStatus: Status, callStatus: Status)
    requires f.Consistent()
    ensures forall call :: call in f.invocations ==>
              ThreadSafeFunction.CallJs(call.env, call.cb, undefinedStatus, callStatus) == []
  {
  }

  /**
    Every queued item has a posted task: once a runner has no task left,
    every client's queue is empty and everything pushed has been delivered.
   */
  lemma IdleRunnerDeliveredAll(r: TaskRunner)
    requires r.Valid() && r.tasks == []
    ensures forall f :: f in r.clients ==> f.queue == [] && Delivered(f.invocations) == f.pushed
  {
  }
}
