/**
 * `AbstractResponseModelTask`: runs one request and exposes its outcome.
 *
 * The four hooks a subclass supplies (`prepareClient`, `getReponse`,
 * `processResponse`, `closeClient`) are methods here that take, as a
 * parameter, how that invocation ends; the three that `call()` may time also
 * take how long they run. `System.nanoTime` is a `NanoClock` whose reading
 * only moves forward, and only while one of those hooks runs. A ghost trace
 * records every hook invocation and clock reading in order.
 */
module ResponseTasks {
  import opened JavaLang
  import opened Requests

  /** An exception thrown out of a hook. */
  datatype Fault = Fault(description: string)

  /** What a task does, in the order it does it. */
  datatype Step = Prepare | NanoTime | Invoke | Process | Close

  /** How a `void` hook ends, and the nanoseconds it takes. */
  datatype HookRun = HookRun(nanos: nat, thrown: Option<Fault>)

  /** How `getReponse()` ends: with a response, possibly null, or an exception. */
  datatype ResponseRun<T> = ResponseRun(nanos: nat, outcome: Result<Option<T>, Fault>)

  /** How `processResponse()` ends: with the header and body text it leaves
    * in the `headers` and `body` fields, or with an exception. */
  datatype ProcessRun = Processed(headers: JString, body: JString) | ProcessFailed(fault: Fault)

  const NanosPerMilli: int := 1_000_000

  /** `TimeUnit.NANOSECONDS.toMillis`: division that truncates toward zero. */
  function NanosToMillis(nanos: int): (ms: int)
    ensures nanos >= 0 ==> 0 <= ms && ms * NanosPerMilli <= nanos < (ms + 1) * NanosPerMilli
    ensures nanos < 0 ==> ms <= 0 && (ms - 1) * NanosPerMilli < nanos <= ms * NanosPerMilli
  {
    if nanos >= 0 then nanos / NanosPerMilli else -((-nanos) / NanosPerMilli)
  }

  /** Longer waits never read as fewer milliseconds. */
  lemma NanosToMillisMonotone(a: int, b: int)
    requires a <= b
    ensures NanosToMillis(a) <= NanosToMillis(b)
  {
  }

  /** `System.nanoTime`: a reading that never goes back. */
  class NanoClock {
    var now: int

    constructor (start: int)
      ensures now == start
    {
      now := start;
    }

    method NanoTime() returns (t: int)
      ensures t == now
    {
      t := now;
    }

    method Elapse(nanos: nat)
      modifies this
      ensures now == old(now) + nanos
    {
      now := now + nanos;
    }
  }

  class ResponseModelTask<T> {
    const requestId: int32
    const requestBean: RequestBean

    var body: JString
    var headers: JString
    var elapsedTime: int
    var response: Option<T>
    /** Private, and never assigned by this class. */
    var completed: bool

    /** Every hook invocation and clock reading so far, in order. */
    ghost var trace: seq<Step>

    constructor (requestId: int32, requestBean: RequestBean)
      ensures this.requestId == requestId && this.requestBean == requestBean
      ensures body == Null && headers == Null && response.None?
      ensures elapsedTime == 0 && !completed
      ensures trace == []
    {
      this.requestId := requestId;
      this.requestBean := requestBean;
      body := Null;
      headers := Null;
      elapsedTime := 0;
      response := None;
      completed := false;
      trace := [];
    }

    /* -------------------------- hooks -------------------------- */

    method PrepareClient(run: HookRun, clock: NanoClock) returns (thrown: Option<Fault>)
      modifies this`trace, clock
      ensures trace == old(trace) + [Prepare]
      ensures clock.now == old(clock.now) + run.nanos
      ensures thrown == run.thrown
    {
      trace := trace + [Prepare];
      clock.Elapse(run.nanos);
      thrown := run.thrown;
    }

    method GetReponse(run: ResponseRun<T>, clock: NanoClock) returns (outcome: Result<Option<T>, Fault>)
      modifies this`trace, clock
      ensures trace == old(trace) + [Invoke]
      ensures clock.now == old(clock.now) + run.nanos
      ensures outcome == run.outcome
    {
      trace := trace + [Invoke];
      clock.Elapse(run.nanos);
      outcome := run.outcome;
    }

    method ProcessResponse(run: ProcessRun) returns (thrown: Option<Fault>)
      modifies this`trace, this`headers, this`body
      ensures trace == old(trace) + [Process]
      ensures run.Processed? ==> thrown.None? && headers == run.headers && body == run.body
      ensures run.ProcessFailed? ==> thrown == Some(run.fault) && headers == old(headers) && body == old(body)
    {
      trace := trace + [Process];
      match run
      case Processed(h, b) =>
        headers, body := h, b;
        thrown := None;
      case ProcessFailed(fault) =>
        thrown := Some(fault);
    }

    method CloseClient(run: HookRun, clock: NanoClock) returns (thrown: Option<Fault>)
      modifies this`trace, clock
      ensures trace == old(trace) + [Close]
      ensures clock.now == old(clock.now) + run.nanos
      ensures thrown == run.thrown
    {
      trace := trace + [Close];
      clock.Elapse(run.nanos);
      thrown := run.thrown;
    }

    /** A reading of `System.nanoTime`. */
    method ReadClock(clock: NanoClock) returns (t: int)
      modifies this`trace
      ensures trace == old(trace) + [NanoTime]
      ensures t == clock.now
    {
      trace := trace + [NanoTime];
      t := clock.NanoTime();
    }

    /* --------------------------- call --------------------------- */

    /**
     * `call()`: prepares the client, then times `getReponse()` and records the
     * elapsed milliseconds whether it returns or throws. The response goes only
     * to a local variable, so the `response` field is left as it was; the client
     * is never closed and `completed` is never set.
     */
    method Call(prepare: HookRun, respond: ResponseRun<T>, clock: NanoClock)
      returns (outcome: Result<Option<T>, Fault>)
      modifies this`trace, this`elapsedTime, clock
      ensures prepare.thrown.Some? ==>
                && outcome == Err(prepare.thrown.value)
                && trace == old(trace) + [Prepare]
                && elapsedTime == old(elapsedTime)
      ensures prepare.thrown.None? ==>
                && outcome == respond.outcome
                && trace == old(trace) + [Prepare, NanoTime, Invoke, NanoTime]
                && elapsedTime == NanosToMillis(respond.nanos)
                && elapsedTime >= 0
      ensures Close !in trace[|old(trace)|..]
      ensures clock.now == old(clock.now) + prepare.nanos + (if prepare.thrown.Some? then 0 else respond.nanos)
      ensures response == old(response) && completed == old(completed)
    {
      var thrown := PrepareClient(prepare, clock);
      if thrown.Some? {
        outcome := Err(thrown.value);
        return;
      }
      var startTime := ReadClock(clock);
      outcome := GetReponse(respond, clock);
      // the `finally` block: reached whether getReponse returned or threw
      var endTime := ReadClock(clock);
      elapsedTime := NanosToMillis(endTime - startTime);
    }

    /**
     * `call()` with the completion flag set in the `finally` block, next to
     * the elapsed time, as `isComplete()` evidently expects.
     */
    method CallAsIntended(prepare: HookRun, respond: ResponseRun<T>, clock: NanoClock)
      returns (outcome: Result<Option<T>, Fault>)
      modifies this`trace, this`elapsedTime, this`completed, clock
      ensures prepare.thrown.Some? ==>
                && outcome == Err(prepare.thrown.value)
                && trace == old(trace) + [Prepare]
                && elapsedTime == old(elapsedTime) && completed == old(completed)
      ensures prepare.thrown.None? ==>
                && outcome == respond.outcome
                && trace == old(trace) + [Prepare, NanoTime, Invoke, NanoTime]
                && elapsedTime == NanosToMillis(respond.nanos)
                && completed
      ensures response == old(response)
    {
      var thrown := PrepareClient(prepare, clock);
      if thrown.Some? {
        outcome := Err(thrown.value);
        return;
      }
      var startTime := ReadClock(clock);
      outcome := GetReponse(respond, clock);
      var endTime := ReadClock(clock);
      elapsedTime := NanosToMillis(endTime - startTime);
      completed := true;
    }

    /* ------------------------- accessors ------------------------- */

    function GetReferenceId(): (id: int32)
      ensures id == requestId
    {
      requestId
    }

    function GetElaspedTimeMili(): (ms: int)
      reads this
      ensures ms == elapsedTime
    {
      elapsedTime
    }

    /** `Objects.toString(response)`, with `show` standing for the response's
      * own `toString`. */
    function GetResponse(show: T -> string): (text: string)
      reads this
      ensures response.None? ==> text == "null"
      ensures response.Some? ==> text == show(response.value)
    {
      match response
      case None => "null"
      case Some(r) => show(r)
    }

    /** The bean given to the constructor itself, not a copy of it. */
    function GetRequestBean(): (bean: RequestBean)
      ensures bean == requestBean
    {
      requestBean
    }

    method GetHeaders(process: ProcessRun) returns (result: Result<JString, Fault>)
      modifies this`trace, this`headers, this`body
      ensures trace == old(trace) + [Process]
      ensures process.Processed? ==> result == Ok(process.headers) && headers == process.headers && body == process.body
      ensures process.ProcessFailed? ==> result == Err(process.fault) && headers == old(headers) && body == old(body)
    {
      var thrown := ProcessResponse(process);
      if thrown.Some? {
        result := Err(thrown.value);
      } else {
        result := Ok(headers);
      }
    }

    method GetBody(process: ProcessRun) returns (result: Result<JString, Fault>)
      modifies this`trace, this`headers, this`body
      ensures trace == old(trace) + [Process]
      ensures process.Processed? ==> result == Ok(process.body) && headers == process.headers && body == process.body
      ensures process.ProcessFailed? ==> result == Err(process.fault) && headers == old(headers) && body == old(body)
    {
      var thrown := ProcessResponse(process);
      if thrown.Some? {
        result := Err(thrown.value);
      } else {
        result := Ok(body);
      }
    }

    method IsComplete(process: ProcessRun) returns (result: Result<bool, Fault>)
      modifies this`trace, this`headers, this`body
      ensures trace == old(trace) + [Process]
      ensures process.Processed? ==> result == Ok(completed) && headers == process.headers && body == process.body
      ensures process.ProcessFailed? ==> result == Err(process.fault) && headers == old(headers) && body == old(body)
    {
      var thrown := ProcessResponse(process);
      if thrown.Some? {
        result := Err(thrown.value);
      } else {
        result := Ok(completed);
      }
    }
  }

  /**
   * One task as the application drives it: created, run once, then asked
   * whether it is complete. It never is, and its response text is "null".
   */
  method RunOnce<T>(requestId: int32, bean: RequestBean, prepare: HookRun, respond: ResponseRun<T>,
                    process: ProcessRun, clock: NanoClock, show: T -> string)
    returns (task: ResponseModelTask<T>, outcome: Result<Option<T>, Fault>, complete: Result<bool, Fault>)
    modifies clock
    ensures fresh(task)
    ensures task.GetReferenceId() == requestId && task.GetRequestBean() == bean
    ensures complete == if process.Processed? then Ok(false) else Err(process.fault)
    ensures outcome == if prepare.thrown.Some? then Err(prepare.thrown.value) else respond.outcome
    ensures task.GetElaspedTimeMili() == if prepare.thrown.Some? then 0 else NanosToMillis(respond.nanos)
    ensures task.GetResponse(show) == "null"
    ensures task.trace == (if prepare.thrown.Some? then [Prepare]
                           else [Prepare, NanoTime, Invoke, NanoTime]) + [Process]
  {
    task := new ResponseModelTask(requestId, bean);
    outcome := task.Call(prepare, respond, clock);
    complete := task.IsComplete(process);
  }

  /** The same life with the completion flag recorded: a task whose client
    * was prepared reports itself complete. */
  method RunOnceAsIntended<T>(requestId: int32, bean: RequestBean, prepare: HookRun, respond: ResponseRun<T>,
                              process: ProcessRun, clock: NanoClock)
    returns (task: ResponseModelTask<T>, outcome: Result<Option<T>, Fault>, complete: Result<bool, Fault>)
    modifies clock
    ensures fresh(task)
    ensures process.Processed? ==> complete == Ok(prepare.thrown.None?)
    ensures task.GetElaspedTimeMili() == if prepare.thrown.Some? then 0 else NanosToMillis(respond.nanos)
  {
    task := new ResponseModelTask(requestId, bean);
    outcome := task.CallAsIntended(prepare, respond, clock);
    complete := task.IsComplete(process);
  }

  /** A task whose client takes 5 ms to prepare and whose response takes
    * 100.5 ms is timed at 100 ms: the preparation is not counted and the
    * fraction of a millisecond is cut off. */
  method HundredMillisecondCall<T>(bean: RequestBean, start: int, response: Result<Option<T>, Fault>)
    returns (elapsed: int, outcome: Result<Option<T>, Fault>)
    ensures elapsed == 100
    ensures outcome == response
  {
    var clock := new NanoClock(start);
    var task := new ResponseModelTask<T>(1, bean);
    outcome := task.Call(HookRun(5_000_000, None), ResponseRun(100_500_000, response), clock);
    elapsed := task.GetElaspedTimeMili();
  }
}
