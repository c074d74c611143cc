/**
 * The lifecycle operators of rs_flow/src/lifecycle.rs, read on one
 * collection: the upstream's run and the runs of the user's actions.
 */
module Lifecycle {
  import opened Prelude
  import opened Flows
  import opened Combining

  /**
   * `on_start(action)`: the action runs with the downstream collector
   * before upstream is collected; its emissions come first, and a panic in
   * it stops the collection before upstream starts.
   */
  function OnStart<T>(action: Run<T>, up: Run<T>): (r: Run<T>)
    ensures action.outcome.Completed? ==> r.values == action.values + up.values && r.outcome == up.outcome
    ensures action.outcome.Panicked? ==> r == action
  {
    Concat(action, up)
  }

  /**
   * `on_completion(action)`: after upstream has been collected the action
   * runs, and it is always handed `None`.  A panic upstream unwinds past
   * it, so the action does not run then.
   */
  function OnCompletion<T>(up: Run<T>, action: Option<string> -> Run<T>): (r: Run<T>)
    ensures up.outcome.Completed? ==> r.values == up.values + action(None).values && r.outcome == action(None).outcome
    ensures up.outcome.Panicked? ==> r == up
  {
    Concat(up, action(None))
  }

  /**
   * `on_empty(action)`: each forwarded value sets a shared `emitted` flag;
   * when upstream completes with the flag still clear, the action runs.
   */
  method OnEmpty<T>(up: Run<T>, action: Run<T>) returns (out: Run<T>)
    ensures up.outcome.Panicked? ==> out == up
    ensures up.outcome.Completed? && up.values == [] ==> out == action
    ensures up.outcome.Completed? && up.values != [] ==> out == up
  {
    var emitted := false;
    var forwarded: seq<T> := [];
    for i := 0 to |up.values|
      invariant emitted <==> i > 0
      invariant forwarded == up.values[..i]
    {
      emitted := true;
      forwarded := forwarded + [up.values[i]];
    }
    assert forwarded == up.values;
    if up.outcome.Panicked? {
      out := Run(forwarded, up.outcome);
    } else if !emitted {
      out := action;
    } else {
      out := Run(forwarded, Completed);
    }
  }

  /**
   * The message `catch_panic` hands its handler: the payload's text when it
   * is a `&str` or a `String`, and "Unknown panic" otherwise.
   */
  function PanicMessage(p: Payload): (m: string)
    ensures p.StrPayload? || p.StringPayload? ==> m == p.text
    ensures p.OtherPayload? ==> m == "Unknown panic"
  {
    match p
    case StrPayload(s) => s
    case StringPayload(s) => s
    case OtherPayload => "Unknown panic"
  }

  /**
   * `catch_panic(handler)`: upstream is collected under `catch_unwind`;
   * after a panic the values emitted so far stay emitted and the handler
   * runs with the panic's message.
   */
  function CatchPanic<T>(up: Run<T>, handler: string -> Run<T>): (r: Run<T>)
    ensures up.outcome.Completed? ==> r == up
    ensures up.outcome.Panicked? ==>
      r == Concat(Done(up.values), handler(PanicMessage(up.outcome.payload)))
  {
    match up.outcome
    case Completed => up
    case Panicked(p) => Concat(Done(up.values), handler(PanicMessage(p)))
  }

  /** What was emitted before the panic is kept, and a handler that completes makes the collection complete. */
  lemma CatchPanicRecovers<T>(up: Run<T>, handler: string -> Run<T>)
    requires forall m :: handler(m).outcome.Completed?
    ensures |CatchPanic(up, handler).values| >= |up.values|
    ensures CatchPanic(up, handler).values[..|up.values|] == up.values
    ensures CatchPanic(up, handler).outcome.Completed?
  {
    if up.outcome.Panicked? {
      var h := handler(PanicMessage(up.outcome.payload));
      assert CatchPanic(up, handler).values == up.values + h.values;
    }
  }

  /** A second `catch_panic` after one whose handler completes never runs. */
  lemma CatchPanicIdempotent<T>(up: Run<T>, handler: string -> Run<T>, other: string -> Run<T>)
    requires forall m :: handler(m).outcome.Completed?
    ensures CatchPanic(CatchPanic(up, handler), other) == CatchPanic(up, handler)
  {
    CatchPanicRecovers(up, handler);
  }

  /** The values of `n` consecutive collections of `up`, starting with collection `first`. */
  function AttemptValues<T>(up: Flow<T>, first: nat, n: nat): seq<T>
  {
    if n == 0 then [] else AttemptValues(up, first, n - 1) + up.produce(first + n - 1).values
  }

  /**
   * `retry(max_retries)`: upstream is collected again after each panic,
   * until a collection completes or `max_retries` retries have been made,
   * after which the last panic is resumed.  Values emitted by the failed
   * attempts have already reached downstream.  `retries` is the number of
   * retries made; collection `first + j` is attempt `j`.
   */
  method Retry<T>(up: Flow<T>, first: nat, maxRetries: nat) returns (out: Run<T>, retries: nat)
    ensures retries <= maxRetries
    ensures forall k :: first <= k < first + retries ==> up.produce(k).outcome.Panicked?
    ensures up.produce(first + retries).outcome.Completed? || retries == maxRetries
    ensures out.outcome == up.produce(first + retries).outcome
    ensures out.values == AttemptValues(up, first, retries + 1)
  {
    retries := 0;
    var attempt := up.produce(first);
    var emitted := attempt.values;
    while attempt.outcome.Panicked? && retries < maxRetries
      invariant retries <= maxRetries
      invariant attempt == up.produce(first + retries)
      invariant forall k :: first <= k < first + retries ==> up.produce(k).outcome.Panicked?
      invariant emitted == AttemptValues(up, first, retries + 1)
      decreases maxRetries - retries
    {
      retries := retries + 1;
      attempt := up.produce(first + retries);
      emitted := emitted + attempt.values;
      assert AttemptValues(up, first, retries + 1) == AttemptValues(up, first, retries) + attempt.values;
    }
    out := Run(emitted, attempt.outcome);
  }

  /** A producer that always panics after emitting 1. */
  function AlwaysFailing(): Flow<int>
  {
    Flow(k => Run([1], Panicked(StrPayload("boom"))))
  }

  /** `retry(2)` on it collects three times, forwards every attempt's value and resumes the panic. */
  method RetryGivesUp() returns (out: Run<int>)
    ensures out == Run([1, 1, 1], Panicked(StrPayload("boom")))
  {
    var retries;
    out, retries := Retry(AlwaysFailing(), 0, 2);
    assert AttemptValues(AlwaysFailing(), 0, 3) == [1, 1, 1];
  }

  /** The length of the prefix of `times` before the first entry at or after `deadline`. */
  function OnTime(times: seq<nat>, deadline: nat): (n: nat)
    ensures n <= |times|
    ensures forall i :: 0 <= i < n ==> times[i] < deadline
    ensures n < |times| ==> times[n] >= deadline
  {
    if times == [] || times[0] >= deadline then 0 else 1 + OnTime(times[1..], deadline)
  }

  /**
   * `with_timeout(duration)`: collection races a single timer started with
   * it.  `times[i]` is when value `i` is emitted and `end` when upstream
   * ends, both measured from the start of the collection.  Once the timer
   * fires the collection stops and completes normally.
   */
  function WithTimeout<T>(up: Run<T>, times: seq<nat>, end: nat, duration: nat): (r: Run<T>)
    requires |times| == |up.values|
    ensures OnTime(times, duration) == |times| && end < duration ==> r == up
    ensures OnTime(times, duration) < |times| || end >= duration ==>
      r == Done(up.values[..OnTime(times, duration)])
  {
    var n := OnTime(times, duration);
    if n == |times| && end < duration then up else Done(up.values[..n])
  }

  /** Only values emitted before the deadline reach downstream, and a timeout ends the collection normally. */
  lemma WithTimeoutPrefix<T>(up: Run<T>, times: seq<nat>, end: nat, duration: nat)
    requires |times| == |up.values|
    ensures var r := WithTimeout(up, times, end, duration);
      |r.values| <= |up.values| && r.values == up.values[..|r.values|] &&
      (forall i :: 0 <= i < |r.values| ==> times[i] < duration) &&
      (r.outcome == up.outcome || r.outcome.Completed?)
  {
  }

  /** The lifecycle test: emissions at 0, 100 and 300 ms under a 250 ms timeout keep the first two. */
  lemma WithTimeoutTest()
    ensures WithTimeout(Done([1, 2, 3]), [0, 100, 300], 300, 250) == Done([1, 2])
  {
    assert [0, 100, 300][1..] == [100, 300];
    assert [100, 300][1..] == [300];
    assert OnTime([0, 100, 300], 250) == 2;
  }
}
