/**
 * The combining operators of rs_flow/src/combining.rs.  Operators that run
 * their upstreams in spawned tasks are driven by an explicit schedule of the
 * events those tasks produce, in the order the collecting side observes them.
 */
module Combining {
  import opened Prelude
  import opened Flows

  /**
   * `zip`: values of the two upstreams are received pairwise, and the
   * collection ends when either side has no next value.
   */
  method Zip<T, U, R>(a: seq<T>, b: seq<U>, transform: (T, U) -> R) returns (out: seq<R>)
    ensures |out| == Min(|a|, |b|)
    ensures forall i :: 0 <= i < |out| ==> out[i] == transform(a[i], b[i])
  {
    out := [];
    var i := 0;
    while i < |a| && i < |b|
      invariant i <= |a| && i <= |b|
      invariant |out| == i
      invariant forall k :: 0 <= k < i ==> out[k] == transform(a[k], b[k])
    {
      out := out + [transform(a[i], b[i])];
      i := i + 1;
    }
  }

  /**
   * `concat`: the first upstream is collected to its end, then the second.
   * A panic in the first unwinds the whole collection before the second
   * starts.
   */
  function Concat<T>(first: Run<T>, second: Run<T>): (r: Run<T>)
    ensures first.outcome.Completed? ==> r.values == first.values + second.values && r.outcome == second.outcome
    ensures first.outcome.Panicked? ==> r == first
  {
    if first.outcome.Panicked? then first else Run(first.values + second.values, second.outcome)
  }

  lemma ConcatAssociative<T>(a: Run<T>, b: Run<T>, c: Run<T>)
    ensures Concat(Concat(a, b), c) == Concat(a, Concat(b, c))
  {
    if a.outcome.Completed? && b.outcome.Completed? {
      assert (a.values + b.values) + c.values == a.values + (b.values + c.values);
    }
  }

  /** The empty, completed collection is a unit of `concat` on both sides. */
  lemma ConcatUnit<T>(r: Run<T>)
    ensures Concat(Done([]), r) == r
    ensures Concat(r, Done([])) == r
  {
    assert [] + r.values == r.values;
    assert r.values + [] == r.values;
  }

  /** `start_with(values)`: the given values are emitted, then upstream is collected. */
  function StartWith<T>(values: seq<T>, up: Run<T>): (r: Run<T>)
    ensures |r.values| == |values| + |up.values|
    ensures r.values[..|values|] == values
    ensures r.values[|values|..] == up.values
    ensures r.outcome == up.outcome
  {
    Run(values + up.values, up.outcome)
  }

  /** `start_with` is `concat` after a flow of the given values. */
  lemma StartWithIsConcat<T>(values: seq<T>, up: Run<T>)
    ensures StartWith(values, up) == Concat(Done(values), up)
  {
  }

  // ---------------------------------------------------------------- merge

  /** The values among `out` whose tag is `j`, in order. */
  function Pick<T>(out: seq<T>, tags: seq<nat>, j: nat): seq<T>
    requires |out| == |tags|
  {
    if out == [] then []
    else Pick(out[..|out| - 1], tags[..|tags| - 1], j) + (if tags[|tags| - 1] == j then [out[|out| - 1]] else [])
  }

  lemma PickSnoc<T>(out: seq<T>, tags: seq<nat>, v: T, t: nat, j: nat)
    requires |out| == |tags|
    ensures Pick(out + [v], tags + [t], j) == Pick(out, tags, j) + (if t == j then [v] else [])
  {
    assert (out + [v])[..|out|] == out;
    assert (tags + [t])[..|tags|] == tags;
  }

  function Total(counts: seq<nat>): nat
  {
    if counts == [] then 0 else counts[0] + Total(counts[1..])
  }

  lemma {:induction false} TotalIncrement(counts: seq<nat>, j: nat)
    requires j < |counts|
    ensures Total(counts[j := counts[j] + 1]) == Total(counts) + 1
  {
    if j > 0 {
      assert counts[j := counts[j] + 1][1..] == counts[1..][j - 1 := counts[j] + 1];
      TotalIncrement(counts[1..], j - 1);
    }
  }

  lemma {:induction false} TotalZero(n: nat)
    ensures Total(seq(n, _ => 0)) == 0
  {
    if n > 0 {
      assert seq(n, _ => 0)[1..] == seq(n - 1, _ => 0);
      TotalZero(n - 1);
    }
  }

  /** The number of values all sources hold together. */
  function TotalLength<T>(sources: seq<seq<T>>): nat
  {
    if sources == [] then 0 else |sources[0]| + TotalLength(sources[1..])
  }

  lemma {:induction false} TotalOfLengths<T>(sources: seq<seq<T>>, counts: seq<nat>)
    requires |counts| == |sources|
    requires forall j :: 0 <= j < |sources| ==> counts[j] == |sources[j]|
    ensures Total(counts) == TotalLength(sources)
  {
    if sources != [] {
      TotalOfLengths(sources[1..], counts[1..]);
    }
  }

  /** `taken[j]` values of source `j` have arrived, and `out` holds exactly them, each source's in order. */
  ghost predicate Progress<T>(sources: seq<seq<T>>, taken: seq<nat>, out: seq<T>, tags: seq<nat>)
  {
    && |taken| == |sources|
    && (forall k :: 0 <= k < |sources| ==> taken[k] <= |sources[k]|)
    && |out| == |tags| == Total(taken)
    && (forall k :: 0 <= k < |tags| ==> tags[k] < |sources| && out[k] in sources[tags[k]])
    && (forall k :: 0 <= k < |sources| ==> Pick(out, tags, k) == sources[k][..taken[k]])
  }

  /**
   * `merge(flows)`: one spawned task per source sends into a shared channel
   * and the collector forwards what arrives.  `schedule` names the source
   * whose next value arrives next; an entry naming no source, or a source
   * already exhausted, is a moment when nothing arrives; after the schedule
   * the remaining values arrive source by source.  The ghost `tags` say
   * which source each output came from.
   */
  method Merge<T>(sources: seq<seq<T>>, schedule: seq<nat>) returns (out: seq<T>, ghost tags: seq<nat>)
    ensures |out| == TotalLength(sources)
    ensures forall i :: 0 <= i < |out| ==> exists j :: 0 <= j < |sources| && out[i] in sources[j]
    ensures |tags| == |out| && forall i :: 0 <= i < |tags| ==> tags[i] < |sources|
    ensures forall j :: 0 <= j < |sources| ==> Pick(out, tags, j) == sources[j]
  {
    var taken: seq<nat> := seq(|sources|, _ => 0);
    out, tags := [], [];
    TotalZero(|sources|);
    for i := 0 to |schedule|
      invariant Progress(sources, taken, out, tags)
    {
      var j := schedule[i];
      if j < |sources| && taken[j] < |sources[j]| {
        out, tags, taken := Arrive(sources, taken, out, tags, j);
      }
    }
    for j := 0 to |sources|
      invariant Progress(sources, taken, out, tags)
      invariant forall k :: 0 <= k < j ==> taken[k] == |sources[k]|
    {
      out, tags, taken := Drain(sources, taken, out, tags, j);
    }
    TotalOfLengths(sources, taken);
    forall j | 0 <= j < |sources|
      ensures Pick(out, tags, j) == sources[j]
    {
      assert sources[j][..taken[j]] == sources[j];
    }
  }

  /** The next value of source `j` arrives and is forwarded. */
  method Arrive<T>(sources: seq<seq<T>>, taken: seq<nat>, out: seq<T>, ghost tags: seq<nat>, j: nat)
    returns (out': seq<T>, ghost tags': seq<nat>, taken': seq<nat>)
    requires Progress(sources, taken, out, tags)
    requires j < |sources| && taken[j] < |sources[j]|
    ensures Progress(sources, taken', out', tags')
    ensures out' == out + [sources[j][taken[j]]]
    ensures taken' == taken[j := taken[j] + 1]
  {
    out' := out + [sources[j][taken[j]]];
    tags' := tags + [j];
    taken' := taken[j := taken[j] + 1];
    TotalIncrement(taken, j);
    forall k | 0 <= k < |sources|
      ensures Pick(out', tags', k) == sources[k][..taken'[k]]
    {
      PickSnoc(out, tags, sources[j][taken[j]], j, k);
      if k == j {
        assert sources[j][..taken[j] + 1] == sources[j][..taken[j]] + [sources[j][taken[j]]];
      }
    }
  }

  /** The rest of source `j` arrives. */
  method Drain<T>(sources: seq<seq<T>>, taken: seq<nat>, out: seq<T>, ghost tags: seq<nat>, j: nat)
    returns (out': seq<T>, ghost tags': seq<nat>, taken': seq<nat>)
    requires Progress(sources, taken, out, tags)
    requires j < |sources|
    ensures Progress(sources, taken', out', tags')
    ensures taken'[j] == |sources[j]|
    ensures forall k :: 0 <= k < |sources| && k != j ==> taken'[k] == taken[k]
  {
    out', tags', taken' := out, tags, taken;
    while taken'[j] < |sources[j]|
      invariant Progress(sources, taken', out', tags')
      invariant forall k :: 0 <= k < |sources| && k != j ==> taken'[k] == taken[k]
      decreases |sources[j]| - taken'[j]
    {
      out', tags', taken' := Arrive(sources, taken', out', tags', j);
    }
  }

  // -------------------------------------------------------------- combine

  /** What the collecting side of `combine` observes: a new value of either upstream. */
  datatype CombineEvent<T, U> = Left(a: T) | Right(b: U)

  /** The latest value of the first upstream after `events`. */
  function LatestLeft<T, U>(events: seq<CombineEvent<T, U>>): Option<T>
  {
    if events == [] then None
    else if events[|events| - 1].Left? then Some(events[|events| - 1].a)
    else LatestLeft(events[..|events| - 1])
  }

  /** The latest value of the second upstream after `events`. */
  function LatestRight<T, U>(events: seq<CombineEvent<T, U>>): Option<U>
  {
    if events == [] then None
    else if events[|events| - 1].Right? then Some(events[|events| - 1].b)
    else LatestRight(events[..|events| - 1])
  }

  /** The output of `combine` for one event, given the latest values before it. */
  function CombineStep<T, U, R>(e: CombineEvent<T, U>, left: Option<T>, right: Option<U>, transform: (T, U) -> R): seq<R>
  {
    match e
    case Left(a) => if right.Some? then [transform(a, right.value)] else []
    case Right(b) => if left.Some? then [transform(left.value, b)] else []
  }

  /** The reference reading of `combine`: every event paired with the other side's latest value, once there is one. */
  function Combined<T, U, R>(events: seq<CombineEvent<T, U>>, transform: (T, U) -> R): seq<R>
  {
    if events == [] then []
    else
      var init := events[..|events| - 1];
      Combined(init, transform) + CombineStep(events[|events| - 1], LatestLeft(init), LatestRight(init), transform)
  }

  /**
   * `combine`: each upstream task stores its value as the latest of its
   * side and sends it with the other side's latest; the collector emits
   * the transform whenever both halves are present.
   */
  method Combine<T, U, R>(events: seq<CombineEvent<T, U>>, transform: (T, U) -> R) returns (out: seq<R>)
    ensures out == Combined(events, transform)
  {
    var latest1: Option<T> := None;
    var latest2: Option<U> := None;
    out := [];
    for i := 0 to |events|
      invariant latest1 == LatestLeft(events[..i])
      invariant latest2 == LatestRight(events[..i])
      invariant out == Combined(events[..i], transform)
    {
      assert events[..i + 1][..i] == events[..i];
      match events[i]
      case Left(a) =>
        latest1 := Some(a);
        if latest2.Some? {
          out := out + [transform(a, latest2.value)];
        }
      case Right(b) =>
        latest2 := Some(b);
        if latest1.Some? {
          out := out + [transform(latest1.value, b)];
        }
    }
    assert events[..|events|] == events;
  }

  /** Nothing is emitted until both upstreams have emitted. */
  lemma {:induction false} CombineSilentUntilBoth<T, U, R>(events: seq<CombineEvent<T, U>>, transform: (T, U) -> R)
    requires LatestLeft(events).None? || LatestRight(events).None?
    ensures Combined(events, transform) == []
  {
    if events != [] {
      CombineSilentUntilBoth(events[..|events| - 1], transform);
    }
  }

  /** Once both have emitted, every event yields exactly one output, and what was emitted stays a prefix. */
  lemma {:induction false} CombineOnePerEvent<T, U, R>(pre: seq<CombineEvent<T, U>>, post: seq<CombineEvent<T, U>>, transform: (T, U) -> R)
    requires LatestLeft(pre).Some? && LatestRight(pre).Some?
    ensures LatestLeft(pre + post).Some? && LatestRight(pre + post).Some?
    ensures |Combined(pre + post, transform)| == |Combined(pre, transform)| + |post|
    ensures Combined(pre + post, transform)[..|Combined(pre, transform)|] == Combined(pre, transform)
    decreases |post|
  {
    if post == [] {
      assert pre + post == pre;
    } else {
      var init := post[..|post| - 1];
      assert (pre + post)[..|pre + post| - 1] == pre + init;
      CombineOnePerEvent(pre, init, transform);
    }
  }

  /** When both upstreams have emitted, the latest output is the transform of the two latest values. */
  lemma CombineEmitsLatest<T, U, R>(events: seq<CombineEvent<T, U>>, transform: (T, U) -> R)
    requires LatestLeft(events).Some? && LatestRight(events).Some?
    ensures Combined(events, transform) != []
    ensures Combined(events, transform)[|Combined(events, transform)| - 1] ==
      transform(LatestLeft(events).value, LatestRight(events).value)
  {
    var init := events[..|events| - 1];
    if events[|events| - 1].Left? {
      assert LatestRight(events) == LatestRight(init);
    } else {
      assert LatestLeft(events) == LatestLeft(init);
    }
  }

  // --------------------------------------------------------------- sample

  /** What the collecting side of `sample` observes: a new data value, or a tick of the sampler. */
  datatype SampleEvent<T> = Data(v: T) | Tick

  function LatestData<T>(events: seq<SampleEvent<T>>): Option<T>
  {
    if events == [] then None
    else if events[|events| - 1].Data? then Some(events[|events| - 1].v)
    else LatestData(events[..|events| - 1])
  }

  /** The reference reading of `sample`: each tick emits the latest data value, if there is one. */
  function Sampled<T>(events: seq<SampleEvent<T>>): seq<T>
  {
    if events == [] then []
    else
      var init := events[..|events| - 1];
      Sampled(init) + (if events[|events| - 1].Tick? && LatestData(init).Some? then [LatestData(init).value] else [])
  }

  /**
   * `sample(sampler)`: the data task overwrites the latest value; on every
   * tick the collector emits a copy of the latest value, if any.
   */
  method Sample<T>(events: seq<SampleEvent<T>>) returns (out: seq<T>)
    ensures out == Sampled(events)
  {
    var latest: Option<T> := None;
    out := [];
    for i := 0 to |events|
      invariant latest == LatestData(events[..i])
      invariant out == Sampled(events[..i])
    {
      assert events[..i + 1][..i] == events[..i];
      match events[i]
      case Data(v) =>
        latest := Some(v);
      case Tick =>
        if latest.Some? {
          out := out + [latest.value];
        }
    }
    assert events[..|events|] == events;
  }

  function TickCount<T>(events: seq<SampleEvent<T>>): nat
  {
    if events == [] then 0
    else TickCount(events[..|events| - 1]) + (if events[|events| - 1].Tick? then 1 else 0)
  }

  /** Sampling emits at most one value per tick, only values the data flow emitted, and nothing before its first value. */
  lemma {:induction false} SampleBounds<T>(events: seq<SampleEvent<T>>)
    ensures |Sampled(events)| <= TickCount(events)
    ensures forall x :: x in Sampled(events) ==> Data(x) in events
    ensures LatestData(events).None? ==> Sampled(events) == []
    ensures LatestData(events).Some? ==> Data(LatestData(events).value) in events
  {
    if events != [] {
      var init := events[..|events| - 1];
      SampleBounds(init);
      assert events == init + [events[|events| - 1]];
      forall x | x in Sampled(events)
        ensures Data(x) in events
      {
        if x in Sampled(init) {
          assert Data(x) in init;
        }
      }
    }
  }

  /** A tick after data emits exactly the latest data value. */
  lemma SampleTickEmitsLatest<T>(events: seq<SampleEvent<T>>)
    requires LatestData(events).Some?
    ensures Sampled(events + [Tick]) == Sampled(events) + [LatestData(events).value]
  {
    assert (events + [Tick])[..|events|] == events;
  }
}
