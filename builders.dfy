/** The flow builders of rs_flow/src/builders.rs. */
module Builders {
  import opened Prelude
  import opened Flows
  import opened Mpsc
  import opened Operators

  /**
   * `into_flow`: every collection clones the iterable and emits its items
   * in order, so every collection sees the same values.
   */
  function IntoFlow<T>(items: seq<T>): (f: Flow<T>)
    ensures forall k :: f.produce(k) == Done(items)
  {
    Flow(_ => Done(items))
  }

  /** `empty_flow()`: every collection completes at once without a value. */
  function EmptyFlow<T>(): (f: Flow<T>)
    ensures forall k :: f.produce(k).values == [] && f.produce(k).outcome.Completed?
  {
    Flow(_ => Done([]))
  }

  /** `flow_of_one(value)`: every collection emits the value once and completes. */
  function FlowOfOne<T>(value: T): (f: Flow<T>)
    ensures forall k :: |f.produce(k).values| == 1 && f.produce(k).values[0] == value && f.produce(k).outcome.Completed?
  {
    Flow(_ => Done([value]))
  }

  /** `flow_of(values)` is `values.into_flow()`. */
  function FlowOf<T>(values: seq<T>): (f: Flow<T>)
    ensures forall k :: f.produce(k) == Done(values)
  {
    IntoFlow(values)
  }

  /** `flow_range(lo..hi)`: the integers from `lo` up to, not including, `hi`. */
  function FlowRange(lo: int, hi: int): (f: Flow<int>)
    ensures forall k :: f.produce(k).outcome.Completed?
    ensures forall k :: |f.produce(k).values| == (if lo < hi then hi - lo else 0)
    ensures forall k, i :: 0 <= i < |f.produce(k).values| ==> f.produce(k).values[i] == lo + i
  {
    IntoFlow(if lo < hi then seq(hi - lo, i => lo + i) else [])
  }

  /** `flow_range_inclusive(lo..=hi)`. */
  function FlowRangeInclusive(lo: int, hi: int): (f: Flow<int>)
    ensures forall k :: f.produce(k).outcome.Completed?
    ensures forall k :: |f.produce(k).values| == (if lo <= hi then hi - lo + 1 else 0)
    ensures forall k, i :: 0 <= i < |f.produce(k).values| ==> f.produce(k).values[i] == lo + i
  {
    FlowRange(lo, hi + 1)
  }

  /**
   * The iterable builders are replayable: each collection completes with
   * exactly the given values, the same every time.
   */
  lemma BuildersReplay<T>(items: seq<T>, value: T, k: nat)
    ensures SelfContained(IntoFlow(items)) && IntoFlow(items).produce(k) == Done(items)
    ensures SelfContained(FlowOf(items)) && FlowOf(items).produce(k) == Done(items)
    ensures SelfContained(EmptyFlow<T>()) && EmptyFlow<T>().produce(k) == Done([])
    ensures SelfContained(FlowOfOne(value)) && FlowOfOne(value).produce(k) == Done([value])
  {
  }

  /** `flow_of!()` expands to `empty_flow()`, which behaves as `flow_of` of nothing; `flow_of_one(v)` as `flow_of([v])`. */
  lemma BuildersAgree<T>(value: T, k: nat)
    ensures EmptyFlow<T>().produce(k) == FlowOf([]).produce(k)
    ensures FlowOfOne(value).produce(k) == FlowOf([value]).produce(k)
  {
  }

  /** A range flow emits each integer of the range once, in increasing order. */
  lemma FlowRangeValues(lo: int, hi: int, k: nat)
    ensures var r := FlowRange(lo, hi).produce(k);
      r.outcome.Completed? &&
      |r.values| == (if lo < hi then hi - lo else 0) &&
      forall i :: 0 <= i < |r.values| ==> r.values[i] == lo + i
  {
  }

  /** The builder test: `(1..=5).into_flow()` collects to `[1, 2, 3, 4, 5]`. */
  lemma FlowRangeInclusiveTest()
    ensures FlowRangeInclusive(1, 5).produce(0) == Done([1, 2, 3, 4, 5])
  {
    assert FlowRangeInclusive(1, 5).produce(0).values == seq(5, i => 1 + i);
  }

  /**
   * `channel_flow(builder)`: the builder's future is spawned with the
   * sending half of a channel of 16 and the collector forwards what it
   * receives until the channel closes.  `builder` is what that future
   * sends during this collection and how it ends; a panic in it only closes
   * the channel, since the join result is discarded.
   */
  method ChannelFlow<T>(builder: Run<T>, schedule: seq<Step>) returns (out: Run<T>)
    ensures out == Done(builder.values)
  {
    var received := Pipe(builder.values, 16, schedule);
    out := Done(received);
  }

  /**
   * `generate_flow(generator)`: the generator is called until it returns
   * `None`, and every `Some` is emitted.  The generator is shared by all
   * collections, so `generator(n)` is the answer of its `n`-th call
   * overall; `calls` calls were made before this collection, and `calls'`
   * have been made after it.  A generator that never answers `None` gives
   * an endless collection, which is not modelled.
   */
  method GenerateFlow<T>(generator: nat -> Option<T>, calls: nat) returns (out: seq<T>, calls': nat)
    requires exists n :: n >= calls && generator(n).None?
    ensures calls' > calls && generator(calls' - 1).None?
    ensures forall n :: calls <= n < calls' - 1 ==> generator(n).Some?
    ensures |out| == calls' - 1 - calls
    ensures forall i :: 0 <= i < |out| ==> generator(calls + i) == Some(out[i])
  {
    ghost var bound :| bound >= calls && generator(bound).None?;
    out := [];
    calls' := calls;
    var answer := generator(calls');
    calls' := calls' + 1;
    while answer.Some?
      invariant calls < calls' <= bound + 1
      invariant answer == generator(calls' - 1)
      invariant forall n :: calls <= n < calls' - 1 ==> generator(n).Some?
      invariant |out| == calls' - 1 - calls
      invariant forall i :: 0 <= i < |out| ==> generator(calls + i) == Some(out[i])
      decreases bound + 1 - calls'
    {
      out := out + [answer.value];
      answer := generator(calls');
      calls' := calls' + 1;
    }
  }

  /**
   * The first `fuel` steps of a `generate_flow` collection, for any
   * generator, including one that never answers `None`: the answers are
   * emitted in order until the first `None` (`ended`) or until `fuel`
   * values have been emitted.
   */
  method GenerateFlowPrefix<T>(generator: nat -> Option<T>, calls: nat, fuel: nat) returns (out: seq<T>, calls': nat, ended: bool)
    ensures |out| <= fuel
    ensures forall i :: 0 <= i < |out| ==> generator(calls + i) == Some(out[i])
    ensures ended ==> calls' == calls + |out| + 1 && generator(calls' - 1).None?
    ensures !ended ==> |out| == fuel && calls' == calls + fuel
  {
    out := [];
    calls' := calls;
    ended := false;
    while |out| < fuel && !ended
      invariant |out| <= fuel
      invariant forall i :: 0 <= i < |out| ==> generator(calls + i) == Some(out[i])
      invariant ended ==> calls' == calls + |out| + 1 && generator(calls' - 1).None?
      invariant !ended ==> calls' == calls + |out|
      decreases fuel - |out|, if ended then 0 else 1
    {
      var answer := generator(calls');
      calls' := calls' + 1;
      if answer.Some? {
        out := out + [answer.value];
      } else {
        ended := true;
      }
    }
  }

  /** The documented example: a shared counter that never answers `None`. */
  function Counter(n: nat): Option<nat>
  {
    Some(n)
  }

  /** The counter's flow never ends by itself: its first three steps emit 0, 1, 2. */
  method GenerateFlowCounterPrefix() returns (out: seq<nat>, ended: bool)
    ensures out == [0, 1, 2] && !ended
  {
    var calls;
    out, calls, ended := GenerateFlowPrefix(Counter, 0, 3);
  }

  /** A counter that answers 0, 1, 2 and then `None`. */
  function CountToThree(n: nat): Option<nat>
  {
    if n < 3 then Some(n) else None
  }

  /** A generated flow is not replayable: the second collection continues after the first one's `None`. */
  method GenerateFlowIsShared() returns (first: seq<nat>, second: seq<nat>)
    ensures first == [0, 1, 2]
    ensures second == []
  {
    var calls;
    assert CountToThree(3).None?;
    first, calls := GenerateFlow(CountToThree, 0);
    assert calls == 4;
    assert CountToThree(4).None?;
    second, calls := GenerateFlow(CountToThree, calls);
    assert calls == 5;
  }

  /** The first `n` emissions of `repeat_flow(value)`, which never ends by itself. */
  function RepeatPrefix<T>(value: T, n: nat): (r: seq<T>)
    ensures |r| == n
    ensures forall i :: 0 <= i < n ==> r[i] == value
  {
    seq(n, _ => value)
  }

  /**
   * `repeat_flow(42).take(3)` with `take` as written: however many values
   * the endless upstream has emitted, all of them were received and
   * forwarded, so the collection never ends.
   */
  method RepeatTakeAsWritten(emitted: nat) returns (out: seq<int>, received: nat)
    requires emitted >= 3
    ensures received == emitted
    ensures out == RepeatPrefix(42, emitted)
  {
    out, received := Take(RepeatPrefix(42, emitted), 3);
  }

  /** With the shared counter the collection stops after three values, as the builder test expects. */
  method RepeatTakeFirst(emitted: nat) returns (out: seq<int>, received: nat)
    requires emitted >= 3
    ensures received == 3
    ensures out == [42, 42, 42]
  {
    out, received := TakeFirst(RepeatPrefix(42, emitted), 3);
  }
}
