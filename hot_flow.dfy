/**
 * The hot flows of rs_flow/src/hot_flow.rs: `SharedFlow` over a broadcast
 * channel and `StateFlow` over a watch channel.  Each is one object whose
 * state the methods update in place; a collection of a hot flow is driven
 * by an explicit sequence of events.
 */
module HotFlow {

  /**
   * `SharedFlow`: a broadcast channel.  `log` is what the channel holds, in
   * sending order, and each receiver is the position in `log` where it
   * starts reading.  A receiver subscribes at the tail, so it sees only
   * what is sent after it subscribed.
   */
  class SharedFlow<T> {
    const capacity: nat
    var log: seq<T>
    var cursors: seq<nat>

    ghost predicate Valid()
      reads this
    {
      forall i :: 0 <= i < |cursors| ==> cursors[i] <= |log|
    }

    /** `SharedFlow::new(capacity)`: the receiver made with the channel is dropped at once. */
    constructor(capacity: nat)
      requires capacity > 0
      ensures Valid()
      ensures this.capacity == capacity && log == [] && cursors == []
    {
      this.capacity := capacity;
      log := [];
      cursors := [];
    }

    /** `subscriber_count`. */
    function SubscriberCount(): (n: nat)
      reads this
      ensures n == |cursors|
    {
      |cursors|
    }

    /**
     * `emit(value)`: a broadcast send, whose failure is ignored.  With no
     * receiver the send fails and the value is not stored.
     */
    method Emit(value: T)
      requires Valid()
      modifies this
      ensures Valid()
      ensures cursors == old(cursors)
      ensures |old(cursors)| == 0 ==> log == old(log)
      ensures |old(cursors)| > 0 ==> log == old(log) + [value]
    {
      if |cursors| > 0 {
        log := log + [value];
      }
    }

    /** `subscribe` (in `as_flow`) and `resubscribe` (per collection): a new receiver at the tail. */
    method Subscribe() returns (receiver: nat)
      requires Valid()
      modifies this
      ensures Valid()
      ensures log == old(log)
      ensures cursors == old(cursors) + [|log|]
      ensures receiver == |old(cursors)|
    {
      receiver := |cursors|;
      cursors := cursors + [|log|];
    }

    /** What `receiver` has been sent since it subscribed. */
    function Pending(receiver: nat): seq<T>
      requires Valid() && receiver < |cursors|
      reads this
    {
      log[cursors[receiver]..]
    }
  }

  /**
   * A value emitted before anyone subscribed is lost, the receiver that
   * `as_flow` made sees everything after it, and a collection, which
   * resubscribes when it starts, sees only what is emitted after that.
   */
  method SharedFlowSubscriptionPoint() returns (held: seq<int>, collected: seq<int>)
    ensures held == [2, 3, 4]
    ensures collected == [3, 4]
  {
    var shared := new SharedFlow<int>(16);
    shared.Emit(1);
    var asFlow := shared.Subscribe();
    shared.Emit(2);
    var collection := shared.Subscribe();
    shared.Emit(3);
    shared.Emit(4);
    held := shared.Pending(asFlow);
    collected := shared.Pending(collection);
  }

  /** Events of a `StateFlow` collection: a write to the state, or the collector checking for a change. */
  datatype StateEvent<T> = Write(v: T) | Poll

  /**
   * What the collector emits after its first value: at each poll, the
   * current value if it was written since the last read.  `changed` says
   * whether it was.
   */
  function Observed<T>(value: T, changed: bool, events: seq<StateEvent<T>>): seq<T>
    decreases |events|
  {
    if events == [] then []
    else match events[0]
      case Write(v) => Observed(v, true, events[1..])
      case Poll => (if changed then [value] else []) + Observed(value, false, events[1..])
  }

  /** The reference reading of a `StateFlow` collection that starts when the state holds `current`. */
  function StateSpec<T>(current: T, events: seq<StateEvent<T>>): seq<T>
  {
    [current] + Observed(current, false, events)
  }

  /** The state after `events`. */
  function Latest<T>(current: T, events: seq<StateEvent<T>>): T
    decreases |events|
  {
    if events == [] then current
    else match events[0]
      case Write(v) => Latest(v, events[1..])
      case Poll => Latest(current, events[1..])
  }

  function PollCount<T>(events: seq<StateEvent<T>>): nat
    decreases |events|
  {
    if events == [] then 0 else (if events[0].Poll? then 1 else 0) + PollCount(events[1..])
  }

  /**
   * `StateFlow`: a watch channel holding one value.  `receivers` counts the
   * live receivers; `StateFlow::new` drops the one made with the channel.
   */
  class StateFlow<T> {
    var value: T
    var receivers: nat

    /** `StateFlow::new(initial)`. */
    constructor(initial: T)
      ensures value == initial && receivers == 0
    {
      value := initial;
      receivers := 0;
    }

    /** `get`: a clone of the value the channel holds. */
    function Get(): (v: T)
      reads this
      ensures v == value
    {
      value
    }

    /**
     * `emit(value)`: a watch send, whose failure is ignored.  The send fails,
     * and leaves the value unchanged, while there is no receiver.
     */
    method Emit(v: T)
      modifies this
      ensures receivers == old(receivers)
      ensures old(receivers) > 0 ==> value == v
      ensures old(receivers) == 0 ==> value == old(value)
    {
      if receivers > 0 {
        value := v;
      }
    }

    /** `set` is an alias of `emit`. */
    method Set(v: T)
      modifies this
      ensures receivers == old(receivers)
      ensures old(receivers) > 0 ==> value == v
      ensures old(receivers) == 0 ==> value == old(value)
    {
      Emit(v);
    }

    /** `emit` with the watch channel's `send_replace`, which stores the value whether or not anyone receives it. */
    method EmitReplace(v: T)
      modifies this
      ensures receivers == old(receivers)
      ensures value == v
    {
      value := v;
    }

    /** `as_flow`: subscribes a receiver that the returned flow keeps. */
    method AsFlow()
      modifies this
      ensures receivers == old(receivers) + 1
      ensures value == old(value)
    {
      receivers := receivers + 1;
    }

    /**
     * One collection of the flow `as_flow` returned: the value current at
     * the start is emitted, then at every poll that follows a write the
     * latest value.  A write in between is a send to the live receiver.
     */
    method Collect(events: seq<StateEvent<T>>) returns (out: seq<T>)
      requires receivers > 0
      modifies this
      ensures out == StateSpec(old(value), events)
      ensures value == Latest(old(value), events)
      ensures receivers == old(receivers)
    {
      out := [value];
      var changed := false;
      ghost var start := value;
      for i := 0 to |events|
        invariant receivers == old(receivers)
        invariant out + Observed(value, changed, events[i..]) == StateSpec(start, events)
        invariant Latest(value, events[i..]) == Latest(start, events)
      {
        assert events[i..][1..] == events[i + 1..];
        match events[i]
        case Write(v) =>
          Emit(v);
          changed := true;
        case Poll =>
          if changed {
            out := out + [value];
            changed := false;
          }
      }
    }
  }

  /** The first emission of a collection is the value current when it starts. */
  lemma StateFirstIsCurrent<T>(current: T, events: seq<StateEvent<T>>)
    ensures StateSpec(current, events)[0] == current
  {
  }

  /** Two writes with no poll between them are conflated: only the second can be seen. */
  lemma StateConflates<T>(value: T, changed: bool, a: T, b: T, rest: seq<StateEvent<T>>)
    ensures Observed(value, changed, [Write(a), Write(b)] + rest) == Observed(value, changed, [Write(b)] + rest)
  {
    assert ([Write(a), Write(b)] + rest)[1..] == [Write(b)] + rest;
    assert ([Write(b)] + rest)[1..] == rest;
  }

  /** At most one value per poll follows the first emission. */
  lemma {:induction false} StateOnePerPoll<T>(value: T, changed: bool, events: seq<StateEvent<T>>)
    ensures |Observed(value, changed, events)| <= PollCount(events)
    decreases |events|
  {
    if events != [] {
      match events[0]
      case Write(v) => StateOnePerPoll(v, true, events[1..]);
      case Poll => StateOnePerPoll(value, false, events[1..]);
    }
  }

  /**
   * After a poll the collector is up to date: the last value it emitted is
   * the state's latest value.
   */
  lemma StateEndsCurrent<T>(current: T, events: seq<StateEvent<T>>)
    requires events == [] || events[|events| - 1] == Poll
    ensures var out := StateSpec(current, events); out[|out| - 1] == Latest(current, events)
  {
    ObservedEndsCurrent(current, false, current, events);
  }

  lemma {:induction false} ObservedEndsCurrent<T>(value: T, changed: bool, last: T, events: seq<StateEvent<T>>)
    requires !changed ==> last == value
    requires events == [] ==> !changed
    requires events != [] ==> events[|events| - 1] == Poll
    ensures var out := [last] + Observed(value, changed, events); out[|out| - 1] == Latest(value, events)
    decreases |events|
  {
    if events != [] {
      var rest := events[1..];
      if rest == [] {
        assert events == [Poll];
      } else {
        assert rest[|rest| - 1] == events[|events| - 1];
        match events[0]
        case Write(v) =>
          ObservedEndsCurrent(v, true, last, rest);
        case Poll =>
          var next := if changed then value else last;
          ObservedEndsCurrent(value, false, next, rest);
          assert [last] + Observed(value, changed, events) ==
            (if changed then [last, value] else [last]) + Observed(value, false, rest);
      }
    }
  }

  /** `StateFlow::new(0)`, then `set(1)` and `set(42)`, with no `as_flow` alive: `get` keeps answering 0. */
  method StateFlowGetAsWritten() returns (initial: int, afterOne: int, afterFortyTwo: int)
    ensures initial == 0 && afterOne == 0 && afterFortyTwo == 0
  {
    var state := new StateFlow<int>(0);
    initial := state.Get();
    state.Set(1);
    afterOne := state.Get();
    state.Set(42);
    afterFortyTwo := state.Get();
  }

  /** With `send_replace` the same steps give 0, 1 and 42, as the state-flow test expects. */
  method StateFlowGetReplacing() returns (initial: int, afterOne: int, afterFortyTwo: int)
    ensures initial == 0 && afterOne == 1 && afterFortyTwo == 42
  {
    var state := new StateFlow<int>(0);
    initial := state.Get();
    state.EmitReplace(1);
    afterOne := state.Get();
    state.EmitReplace(42);
    afterFortyTwo := state.Get();
  }

  /**
   * A live `as_flow` receiver makes `emit` store: a collection started at 0
   * that sees two writes before its poll emits 0 and then only the second.
   */
  method StateFlowCollectConflates() returns (out: seq<int>, now: int)
    ensures out == [0, 2]
    ensures now == 2
  {
    var state := new StateFlow<int>(0);
    state.AsFlow();
    var events := [Write(1), Write(2), Poll];
    assert events[1..] == [Write(2), Poll];
    assert events[1..][1..] == [Poll];
    out := state.Collect(events);
    now := state.Get();
  }
}
