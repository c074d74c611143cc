/**
 * A bounded tokio `mpsc` channel between one producer task and the consuming
 * `while let Some(v) = rx.recv().await` loop, as used by `buffer`, `flow_on`,
 * `flat_map_latest` and `channel_flow`.
 *
 * Thread scheduling is replaced by an explicit schedule of steps: a `Send`
 * step lets the producer push its next value (it stays suspended while the
 * channel holds `capacity` values), a `Recv` step lets the consumer take the
 * oldest buffered value.  When the schedule runs out the two sides keep
 * alternating until the producer has sent everything and dropped its sender,
 * which closes the channel and ends the consumer's loop.
 */
module Mpsc {

  datatype Step = Send | Recv

  /**
   * Everything the producer sends reaches the consumer exactly once and in
   * order, whatever the schedule and whatever the (positive) capacity.
   * tokio refuses a zero capacity with a panic, hence the requirement.
   */
  method Pipe<T>(values: seq<T>, capacity: nat, schedule: seq<Step>) returns (received: seq<T>)
    requires capacity > 0
    ensures received == values
  {
    var queue: seq<T> := [];
    var sent := 0;
    received := [];
    for i := 0 to |schedule|
      invariant sent <= |values|
      invariant |queue| <= capacity
      invariant received + queue == values[..sent]
    {
      match schedule[i]
      case Send =>
        if sent < |values| && |queue| < capacity {
          queue := queue + [values[sent]];
          sent := sent + 1;
        }
      case Recv =>
        if |queue| > 0 {
          received := received + [queue[0]];
          queue := queue[1..];
        }
    }
    while sent < |values| || |queue| > 0
      invariant sent <= |values|
      invariant |queue| <= capacity
      invariant received + queue == values[..sent]
      decreases 2 * (|values| - sent) + |queue|
    {
      if |queue| > 0 {
        received := received + [queue[0]];
        queue := queue[1..];
      } else {
        queue := queue + [values[sent]];
        sent := sent + 1;
      }
    }
    assert values[..sent] == values;
  }
}
