/**
 * The transformation operators of rs_flow/src/operators.rs, each read as what
 * it does to the values of one collection of its upstream.
 */
module Operators {
  import opened Prelude
  import opened Flows
  import opened Mpsc

  /** `map`: every upstream value is passed through `f` and forwarded. */
  function Map<T, U>(up: seq<T>, f: T -> U): (r: seq<U>)
    ensures |r| == |up|
    ensures forall i :: 0 <= i < |up| ==> r[i] == f(up[i])
  {
    EmitAll(FlowCollector(f), up)
  }

  /** `filter`: a value is forwarded when the predicate accepts it, and dropped otherwise. */
  function Filter<T(!new)>(up: seq<T>, p: T -> bool): (r: seq<T>)
    ensures |r| <= |up|
    ensures forall x :: x in r <==> x in up && p(x)
  {
    if up == [] then [] else (if p(up[0]) then [up[0]] else []) + Filter(up[1..], p)
  }

  /** Filtering works value by value: it commutes with concatenating two stretches of upstream. */
  lemma {:induction false} FilterAppend<T(!new)>(a: seq<T>, b: seq<T>, p: T -> bool)
    ensures Filter(a + b, p) == Filter(a, p) + Filter(b, p)
  {
    if a != [] {
      assert (a + b)[0] == a[0];
      assert (a + b)[1..] == a[1..] + b;
      FilterAppend(a[1..], b, p);
    } else {
      assert a + b == b;
    }
  }

  /** Nothing is dropped when every value passes, and nothing survives when none does. */
  lemma {:induction false} FilterExtremes<T(!new)>(up: seq<T>, p: T -> bool)
    ensures (forall i :: 0 <= i < |up| ==> p(up[i])) ==> Filter(up, p) == up
    ensures (forall i :: 0 <= i < |up| ==> !p(up[i])) ==> Filter(up, p) == []
  {
    if up != [] {
      FilterExtremes(up[1..], p);
    }
  }

  /**
   * `take(count)` as the code stands.  The outer closure is `Fn`, so the
   * `async move` block of every value starts from its own copy of
   * `remaining`, equal to `count`; only the shared `emitted` latch survives
   * from one value to the next, and it is set only when that copy reaches 0,
   * i.e. when `count == 1`.  Every upstream value is still received.
   */
  method Take<T>(up: seq<T>, count: nat) returns (out: seq<T>, received: nat)
    ensures received == |up|
    ensures count == 0 ==> out == []
    ensures count == 1 ==> out == up[..Min(1, |up|)]
    ensures count >= 2 ==> out == up
  {
    var emitted := false;
    out := [];
    received := 0;
    while received < |up|
      invariant received <= |up|
      invariant emitted <==> count == 1 && received > 0
      invariant count == 0 ==> out == []
      invariant count == 1 ==> out == up[..Min(1, received)]
      invariant count >= 2 ==> out == up[..received]
    {
      var value := up[received];
      var remaining := count;
      if remaining > 0 && !emitted {
        remaining := remaining - 1;
        out := out + [value];
        if remaining == 0 {
          emitted := true;
        }
      }
      received := received + 1;
    }
  }

  /**
   * `take(count)` with one counter shared by all values, as its
   * documentation and tests describe it: the first `count` values, after
   * which upstream is no longer pulled.
   */
  method TakeFirst<T>(up: seq<T>, count: nat) returns (out: seq<T>, received: nat)
    ensures out == up[..Min(count, |up|)]
    ensures received == Min(count, |up|)
  {
    var remaining := count;
    out := [];
    received := 0;
    while received < |up| && remaining > 0
      invariant received <= |up|
      invariant received <= count
      invariant remaining + received == count
      invariant out == up[..received]
    {
      out := out + [up[received]];
      remaining := remaining - 1;
      received := received + 1;
    }
    assert received == Min(count, |up|);
  }

  /** The pipeline of rs_flow/tests/flow_tests.rs: `0..10`, doubled, multiples of 4, then `take(3)`. */
  function Doubled(x: int): int { 2 * x }

  predicate MultipleOfFour(x: int) { x % 4 == 0 }

  function TestPipelineInput(): (r: seq<int>)
    ensures |r| == 10
    ensures forall i :: 0 <= i < |r| ==> r[i] == i
  {
    [0, 1, 2, 3, 4, 5, 6, 7, 8, 9]
  }

  lemma FilterPair(x: int, y: int)
    requires MultipleOfFour(x) && !MultipleOfFour(y)
    ensures Filter([x, y], MultipleOfFour) == [x]
  {
    assert [x, y][1..] == [y];
    assert [y][1..] == [];
  }

  lemma PipelineDoubled()
    ensures Map(TestPipelineInput(), Doubled) == [0, 2] + [4, 6] + [8, 10] + [12, 14] + [16, 18]
  {
    var doubled := Map(TestPipelineInput(), Doubled);
    var expected := [0, 2, 4, 6, 8, 10, 12, 14, 16, 18];
    assert forall i :: 0 <= i < 10 ==> doubled[i] == 2 * TestPipelineInput()[i];
    assert doubled == expected;
  }

  lemma FilterDoubledFront()
    ensures Filter([0, 2] + [4, 6] + [8, 10], MultipleOfFour) == [0, 4, 8]
  {
    FilterPair(0, 2);
    FilterPair(4, 6);
    FilterAppend([0, 2], [4, 6], MultipleOfFour);
    assert Filter([0, 2] + [4, 6], MultipleOfFour) == [0, 4];
    FilterPair(8, 10);
    FilterAppend([0, 2] + [4, 6], [8, 10], MultipleOfFour);
  }

  lemma FilterDoubledBack()
    ensures Filter([12, 14] + [16, 18], MultipleOfFour) == [12, 16]
  {
    FilterPair(12, 14);
    FilterPair(16, 18);
    FilterAppend([12, 14], [16, 18], MultipleOfFour);
  }

  lemma FilterDoubled()
    ensures Filter([0, 2] + [4, 6] + [8, 10] + [12, 14] + [16, 18], MultipleOfFour) == [0, 4, 8, 12, 16]
  {
    var front, back := [0, 2] + [4, 6] + [8, 10], [12, 14] + [16, 18];
    assert [0, 2] + [4, 6] + [8, 10] + [12, 14] + [16, 18] == front + back;
    FilterDoubledFront();
    FilterDoubledBack();
    FilterAppend(front, back, MultipleOfFour);
  }

  lemma PipelineBeforeTake()
    ensures Filter(Map(TestPipelineInput(), Doubled), MultipleOfFour) == [0, 4, 8, 12, 16]
  {
    PipelineDoubled();
    FilterDoubled();
  }

  /** As written, `take(3)` lets all five surviving values through. */
  method TakeThreeAsWritten() returns (out: seq<int>)
    ensures out == [0, 4, 8, 12, 16]
  {
    PipelineBeforeTake();
    var received;
    out, received := Take(Filter(Map(TestPipelineInput(), Doubled), MultipleOfFour), 3);
  }

  /** With a shared counter the same pipeline yields the test's expected `[0, 4, 8]`. */
  method TakeThreeFirst() returns (out: seq<int>)
    ensures out == [0, 4, 8]
  {
    PipelineBeforeTake();
    var received;
    out, received := TakeFirst(Filter(Map(TestPipelineInput(), Doubled), MultipleOfFour), 3);
  }

  /**
   * `buffer(capacity)`: a spawned producer task collects upstream into a
   * bounded FIFO channel that the collector drains until it closes; the
   * values come out unchanged and in order.  The producer's join result is
   * discarded, so a panic upstream only closes the channel early: the
   * buffered collection still completes normally.
   */
  method Buffer<T>(up: Run<T>, capacity: nat, schedule: seq<Step>) returns (out: Run<T>)
    requires capacity > 0
    ensures out == Done(up.values)
  {
    var values := Pipe(up.values, capacity, schedule);
    out := Done(values);
  }

  /**
   * `flow_on(dispatcher)`: the same shape as `buffer` over a channel of 16,
   * with the producer handed to the dispatcher, which runs it as a detached
   * task; its panic, too, only ends the channel.
   */
  method FlowOn<T>(up: Run<T>, schedule: seq<Step>) returns (out: Run<T>)
    ensures out == Done(up.values)
  {
    var values := Pipe(up.values, 16, schedule);
    out := Done(values);
  }

  /** The values of a sequence of inner flows collected one after another. */
  function Flatten<U>(inners: seq<seq<U>>): seq<U>
  {
    if inners == [] then [] else Flatten(inners[..|inners| - 1]) + inners[|inners| - 1]
  }

  lemma {:induction false} FlattenAppend<U>(a: seq<seq<U>>, b: seq<seq<U>>)
    ensures Flatten(a + b) == Flatten(a) + Flatten(b)
    decreases |b|
  {
    if b != [] {
      var b' := b[..|b| - 1];
      assert (a + b)[..|a + b| - 1] == a + b';
      FlattenAppend(a, b');
    } else {
      assert a + b == a;
    }
  }

  /**
   * `flat_map_latest(f)` as the code stands: the mapped inner flows pass
   * through a channel of capacity 1, and the receiving loop collects each
   * inner flow to completion before it receives the next.  Nothing is
   * cancelled: the output is every inner flow, in upstream order.
   */
  method FlatMapLatest<T, U>(up: seq<T>, f: T -> seq<U>, schedule: seq<Step>) returns (out: seq<U>)
    ensures out == Flatten(Map(up, f))
  {
    var inners := Pipe(Map(up, f), 1, schedule);
    out := [];
    for i := 0 to |inners|
      invariant out == Flatten(inners[..i])
    {
      assert inners[..i + 1][..i] == inners[..i];
      out := out + inners[i];
    }
    assert inners[..|inners|] == inners;
  }

  /**
   * Events of a switch-to-latest collection: `Outer` is the arrival of the
   * next upstream value, `Inner` a step of the inner flow being collected.
   */
  datatype SwitchEvent = Outer | Inner

  /** `arrived` upstream values have been received; `pos` values of the latest one's inner flow were emitted. */
  datatype Switch = Switch(arrived: nat, pos: nat)

  /**
   * The documented `flat_map_latest`: the arrival of a new upstream value
   * cancels the inner flow being collected and starts the new one.  Each
   * output is tagged with the index of the upstream value it came from.
   */
  function SwitchFrom<T, U>(up: seq<T>, f: T -> seq<U>, s: Switch, events: seq<SwitchEvent>): seq<(nat, U)>
    decreases |events|
  {
    if events == [] then []
    else if events[0] == Outer then
      SwitchFrom(up, f, if s.arrived < |up| then Switch(s.arrived + 1, 0) else s, events[1..])
    else if 0 < s.arrived <= |up| && s.pos < |f(up[s.arrived - 1])| then
      [(s.arrived - 1, f(up[s.arrived - 1])[s.pos])] + SwitchFrom(up, f, Switch(s.arrived, s.pos + 1), events[1..])
    else
      SwitchFrom(up, f, s, events[1..])
  }

  /** Where a switch-to-latest collection stands after `events`. */
  function SwitchAfter<T, U>(up: seq<T>, f: T -> seq<U>, s: Switch, events: seq<SwitchEvent>): Switch
    decreases |events|
  {
    if events == [] then s
    else if events[0] == Outer then
      SwitchAfter(up, f, if s.arrived < |up| then Switch(s.arrived + 1, 0) else s, events[1..])
    else if 0 < s.arrived <= |up| && s.pos < |f(up[s.arrived - 1])| then
      SwitchAfter(up, f, Switch(s.arrived, s.pos + 1), events[1..])
    else
      SwitchAfter(up, f, s, events[1..])
  }

  function Untagged<U>(tagged: seq<(nat, U)>): (r: seq<U>)
    ensures |r| == |tagged|
    ensures forall i :: 0 <= i < |r| ==> r[i] == tagged[i].1
  {
    Map(tagged, (p: (nat, U)) => p.1)
  }

  /**
   * The downstream values of the documented `flat_map_latest`: at most one
   * value per inner step, each a value of the inner flow of some upstream
   * value.
   */
  function SwitchLatest<T, U>(up: seq<T>, f: T -> seq<U>, events: seq<SwitchEvent>): (r: seq<U>)
    ensures |r| <= |events|
    ensures forall i :: 0 <= i < |r| ==> exists j :: 0 <= j < |up| && r[i] in f(up[j])
  {
    var tagged := SwitchFrom(up, f, Switch(0, 0), events);
    SwitchLength(up, f, Switch(0, 0), events);
    SwitchTags(up, f, Switch(0, 0), events);
    assert forall i :: 0 <= i < |tagged| ==> tagged[i].0 < |up| && tagged[i].1 in f(up[tagged[i].0]);
    Untagged(tagged)
  }

  /** Each event emits at most one value. */
  lemma {:induction false} SwitchLength<T, U>(up: seq<T>, f: T -> seq<U>, s: Switch, events: seq<SwitchEvent>)
    ensures |SwitchFrom(up, f, s, events)| <= |events|
    decreases |events|
  {
    if events != [] {
      if events[0] == Outer {
        SwitchLength(up, f, if s.arrived < |up| then Switch(s.arrived + 1, 0) else s, events[1..]);
      } else if 0 < s.arrived <= |up| && s.pos < |f(up[s.arrived - 1])| {
        SwitchLength(up, f, Switch(s.arrived, s.pos + 1), events[1..]);
      } else {
        SwitchLength(up, f, s, events[1..]);
      }
    }
  }

  /** A collection can be read in two stretches: the second resumes where the first stopped. */
  lemma {:induction false} SwitchSplit<T, U>(up: seq<T>, f: T -> seq<U>, s: Switch, a: seq<SwitchEvent>, b: seq<SwitchEvent>)
    ensures SwitchFrom(up, f, s, a + b) == SwitchFrom(up, f, s, a) + SwitchFrom(up, f, SwitchAfter(up, f, s, a), b)
    decreases |a|
  {
    if a == [] {
      assert a + b == b;
    } else {
      assert (a + b)[0] == a[0];
      assert (a + b)[1..] == a[1..] + b;
      if a[0] == Outer {
        SwitchSplit(up, f, if s.arrived < |up| then Switch(s.arrived + 1, 0) else s, a[1..], b);
      } else if 0 < s.arrived <= |up| && s.pos < |f(up[s.arrived - 1])| {
        SwitchSplit(up, f, Switch(s.arrived, s.pos + 1), a[1..], b);
      } else {
        SwitchSplit(up, f, s, a[1..], b);
      }
    }
  }

  /**
   * Every emitted value belongs to the inner flow of the upstream value it
   * is tagged with, and no tag is older than the latest arrival at the start.
   */
  lemma {:induction false} SwitchTags<T, U>(up: seq<T>, f: T -> seq<U>, s: Switch, events: seq<SwitchEvent>)
    requires s.arrived <= |up|
    ensures forall i :: 0 <= i < |SwitchFrom(up, f, s, events)| ==>
      var (j, v) := SwitchFrom(up, f, s, events)[i];
      j < |up| && v in f(up[j]) && j + 1 >= s.arrived
    decreases |events|
  {
    if events != [] {
      if events[0] == Outer {
        SwitchTags(up, f, if s.arrived < |up| then Switch(s.arrived + 1, 0) else s, events[1..]);
      } else if 0 < s.arrived <= |up| && s.pos < |f(up[s.arrived - 1])| {
        SwitchTags(up, f, Switch(s.arrived, s.pos + 1), events[1..]);
      } else {
        SwitchTags(up, f, s, events[1..]);
      }
    }
  }

  lemma {:induction false} SwitchAfterBounded<T, U>(up: seq<T>, f: T -> seq<U>, s: Switch, events: seq<SwitchEvent>)
    requires s.arrived <= |up|
    ensures SwitchAfter(up, f, s, events).arrived <= |up|
    decreases |events|
  {
    if events != [] {
      if events[0] == Outer {
        SwitchAfterBounded(up, f, if s.arrived < |up| then Switch(s.arrived + 1, 0) else s, events[1..]);
      } else if 0 < s.arrived <= |up| && s.pos < |f(up[s.arrived - 1])| {
        SwitchAfterBounded(up, f, Switch(s.arrived, s.pos + 1), events[1..]);
      } else {
        SwitchAfterBounded(up, f, s, events[1..]);
      }
    }
  }

  /**
   * Once upstream value number `n` has arrived (`n` counting from 0), the
   * inner flows of the earlier values are cancelled: everything emitted
   * afterwards comes from value `n` or a later one.
   */
  lemma SwitchDropsSuperseded<T, U>(up: seq<T>, f: T -> seq<U>, pre: seq<SwitchEvent>, post: seq<SwitchEvent>)
    requires SwitchAfter(up, f, Switch(0, 0), pre).arrived < |up|
    ensures var n := SwitchAfter(up, f, Switch(0, 0), pre).arrived;
      var tail := SwitchFrom(up, f, SwitchAfter(up, f, Switch(0, 0), pre + [Outer]), post);
      SwitchFrom(up, f, Switch(0, 0), pre + [Outer] + post) == SwitchFrom(up, f, Switch(0, 0), pre + [Outer]) + tail &&
      forall i :: 0 <= i < |tail| ==> tail[i].0 < |up| && tail[i].0 >= n && tail[i].1 in f(up[tail[i].0])
  {
    var start := Switch(0, 0);
    var s := SwitchAfter(up, f, start, pre);
    SwitchSplit(up, f, start, pre + [Outer], post);
    SwitchSplit(up, f, start, pre, [Outer]);
    AfterAppend(up, f, start, pre, [Outer]);
    assert SwitchAfter(up, f, s, [Outer]) == Switch(s.arrived + 1, 0);
    SwitchTags(up, f, Switch(s.arrived + 1, 0), post);
  }

  lemma {:induction false} AfterAppend<T, U>(up: seq<T>, f: T -> seq<U>, s: Switch, a: seq<SwitchEvent>, b: seq<SwitchEvent>)
    ensures SwitchAfter(up, f, s, a + b) == SwitchAfter(up, f, SwitchAfter(up, f, s, a), b)
    decreases |a|
  {
    if a == [] {
      assert a + b == b;
    } else {
      assert (a + b)[0] == a[0];
      assert (a + b)[1..] == a[1..] + b;
      if a[0] == Outer {
        AfterAppend(up, f, if s.arrived < |up| then Switch(s.arrived + 1, 0) else s, a[1..], b);
      } else if 0 < s.arrived <= |up| && s.pos < |f(up[s.arrived - 1])| {
        AfterAppend(up, f, Switch(s.arrived, s.pos + 1), a[1..], b);
      } else {
        AfterAppend(up, f, s, a[1..], b);
      }
    }
  }

  /** Two inner flows of two values each. */
  function PairOf(x: int): seq<int> { [10 * x, 10 * x + 1] }

  /** As written, both inner flows reach downstream although the second upstream value arrived before the first inner flow emitted. */
  method FlatMapLatestKeepsSuperseded() returns (out: seq<int>)
    ensures out == [10, 11, 20, 21]
  {
    out := FlatMapLatest([1, 2], PairOf, [Send, Send]);
    assert Map([1, 2], PairOf) == [[10, 11], [20, 21]];
    assert [[10, 11], [20, 21]][..1] == [[10, 11]];
    assert [[10, 11]][..0] == [];
  }

  /** The documented behaviour on the same input: only the latest inner flow is seen. */
  lemma SwitchLatestQuickSuccession()
    ensures SwitchLatest([1, 2], PairOf, [Outer, Outer, Inner, Inner]) == [20, 21]
  {
    var events := [Outer, Outer, Inner, Inner];
    assert events[1..] == [Outer, Inner, Inner];
    assert events[1..][1..] == [Inner, Inner];
    assert events[1..][1..][1..] == [Inner];
    assert SwitchFrom([1, 2], PairOf, Switch(0, 0), events) == [(1, 20), (1, 21)];
  }
}
