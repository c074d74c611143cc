/**
 * The cold flow of rs_flow/src/flow.rs.
 *
 * A `Flow<T>` stores one producer closure behind an `Arc`; every `collect`
 * wraps the consumer callback in a fresh `FlowCollector` and runs the producer
 * once.  The model describes a producer by what it does in one collection:
 * the values it hands to `emit`, in order, and how the collection ends
 * (normally, or by a panic after that prefix).  A producer closure may read
 * state it captured (a shared counter, a channel), so collection number `k`
 * of the same flow is allowed to differ from collection number `k + 1`.
 */
module Flows {

  /** What a panic carries: `panic!("literal")` gives a `&str`, a formatted panic a `String`. */
  datatype Payload = StrPayload(text: string) | StringPayload(text: string) | OtherPayload

  datatype Outcome = Completed | Panicked(payload: Payload)

  /** The observable result of one collection: the emitted values, then how it ended. */
  datatype Run<T> = Run(values: seq<T>, outcome: Outcome)

  function Done<T>(values: seq<T>): Run<T> { Run(values, Completed) }

  /** The consumer side: `FlowCollector::new` wraps the callback, whose effect per value is a `U`. */
  datatype FlowCollector<!T, U> = FlowCollector(emitFn: T -> U)

  /** `Flow { collect_fn }`: what the producer does in its `k`-th collection. */
  datatype Flow<T> = Flow(produce: nat -> Run<T>)

  /** `Flow::new`: every collection of the new flow runs the given producer. */
  function New<T>(produce: nat -> Run<T>): (f: Flow<T>)
    ensures forall k :: f.produce(k) == produce(k)
  {
    Flow(produce)
  }

  /** `Flow::from_fn` is an alias of `Flow::new`. */
  function FromFn<T>(produce: nat -> Run<T>): (f: Flow<T>)
    ensures forall k :: f.produce(k) == produce(k)
  {
    New(produce)
  }

  /** The free function `flow(builder)` is `Flow::new(builder)`. */
  function FlowFn<T>(builder: nat -> Run<T>): (f: Flow<T>)
    ensures forall k :: f.produce(k) == builder(k)
  {
    New(builder)
  }

  /** `Clone` copies the `Arc`, so both values share the same producer closure. */
  function Clone<T>(f: Flow<T>): (c: Flow<T>)
    ensures forall k :: c.produce(k) == f.produce(k)
  {
    Flow(f.produce)
  }

  /**
   * The effects the consumer callback has while `values` are emitted into
   * `collector`, one per value and in emission order.
   */
  function EmitAll<T, U>(collector: FlowCollector<T, U>, values: seq<T>): (effects: seq<U>)
    ensures |effects| == |values|
    ensures forall i :: 0 <= i < |values| ==> effects[i] == collector.emitFn(values[i])
  {
    if values == [] then [] else [collector.emitFn(values[0])] + EmitAll(collector, values[1..])
  }

  /** `FlowCollector::emit` awaits the wrapped callback on the value it was given: one emission is a one-value collection. */
  function Emit<T, U>(collector: FlowCollector<T, U>, value: T): (effect: U)
    ensures EmitAll(collector, [value]) == [effect]
  {
    collector.emitFn(value)
  }

  /**
   * `collect(on_value)` for the `k`-th collection: a fresh collector around
   * `onValue`, and one run of the stored producer.
   */
  function Collect<T, U>(f: Flow<T>, k: nat, onValue: T -> U): (effects: seq<U>)
    ensures |effects| == |f.produce(k).values|
    ensures forall i :: 0 <= i < |effects| ==> effects[i] == onValue(f.produce(k).values[i])
  {
    EmitAll(FlowCollector(onValue), f.produce(k).values)
  }

  /** A producer that does not depend on anything outside itself behaves the same in every collection. */
  ghost predicate SelfContained<T>(f: Flow<T>)
  {
    forall k :: f.produce(k) == f.produce(0)
  }

  /** Two collections of a self-contained flow each run the producer from scratch and see the same values. */
  lemma CollectsAreIndependent<T, U>(f: Flow<T>, j: nat, k: nat, onValue: T -> U)
    requires SelfContained(f)
    ensures Collect(f, j, onValue) == Collect(f, k, onValue)
  {
    assert f.produce(j) == f.produce(0) == f.produce(k);
  }

  /** A clone and its original yield the same emissions in every collection. */
  lemma CloneCollectsSame<T, U>(f: Flow<T>, k: nat, onValue: T -> U)
    ensures Collect(Clone(f), k, onValue) == Collect(f, k, onValue)
  {
  }

  /** `flow(builder)`, `Flow::from_fn` and `Flow::new` build the same flow. */
  lemma ConstructorsAgree<T>(produce: nat -> Run<T>)
    ensures FlowFn(produce) == FromFn(produce) == New(produce)
    ensures New(produce).produce == produce
  {
  }

  /** `emit` hands its value to the consumer callback unchanged, so collecting with the identity callback yields the emissions. */
  lemma {:induction false} EmitAllIdentity<T>(values: seq<T>)
    ensures EmitAll(FlowCollector(x => x), values) == values
  {
    if values != [] {
      EmitAllIdentity(values[1..]);
    }
  }
}
