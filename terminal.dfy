/**
 * The terminal operators of rs_flow/src/terminal/implementation.rs (the
 * same logic is also written out in rs_flow/src/terminal.rs).  Each one
 * collects a flow to its end, keeping shared state that the consumer
 * callback updates per value; here that state is the loop's variables and
 * the collected values are `up`.
 */
module Terminal {
  import opened Prelude

  /** The errors of the terminal operators. */
  datatype FlowError = Empty | MoreThanOneElement

  /** The `Display` text of each error. */
  function Message(e: FlowError): (m: string)
    ensures e.Empty? ==> m == "Flow completed without emitting any values"
    ensures e.MoreThanOneElement? ==> m == "Flow emitted more than one value when exactly one was expected"
  {
    match e
    case Empty => "Flow completed without emitting any values"
    case MoreThanOneElement => "Flow emitted more than one value when exactly one was expected"
  }

  /** The left fold the accumulating operators compute. */
  function FoldLeft<T, R>(f: (R, T) -> R, acc: R, xs: seq<T>): R
  {
    if xs == [] then acc else FoldLeft(f, f(acc, xs[0]), xs[1..])
  }

  lemma {:induction false} FoldLeftAppend<T, R>(f: (R, T) -> R, acc: R, xs: seq<T>, ys: seq<T>)
    ensures FoldLeft(f, acc, xs + ys) == FoldLeft(f, FoldLeft(f, acc, xs), ys)
  {
    if xs == [] {
      assert xs + ys == ys;
    } else {
      assert (xs + ys)[0] == xs[0];
      assert (xs + ys)[1..] == xs[1..] + ys;
      FoldLeftAppend(f, f(acc, xs[0]), xs[1..], ys);
    }
  }

  lemma FoldLeftSnoc<T, R>(f: (R, T) -> R, acc: R, xs: seq<T>, x: T)
    ensures FoldLeft(f, acc, xs + [x]) == f(FoldLeft(f, acc, xs), x)
  {
    FoldLeftAppend(f, acc, xs, [x]);
    assert [x][1..] == [];
  }

  /** The index of the first value the predicate accepts, or `|up|` when there is none. */
  function FirstMatch<T>(up: seq<T>, p: T -> bool): (n: nat)
    ensures n <= |up|
    ensures forall i :: 0 <= i < n ==> !p(up[i])
    ensures n < |up| ==> p(up[n])
  {
    if up == [] then 0 else if p(up[0]) then 0 else 1 + FirstMatch(up[1..], p)
  }

  /** `first`: every value is received; a latch keeps the first. */
  method First<T>(up: seq<T>) returns (r: Result<T, FlowError>)
    ensures up == [] ==> r == Err(Empty)
    ensures up != [] ==> r == Ok(up[0])
  {
    var result: Option<T> := None;
    var found := false;
    for i := 0 to |up|
      invariant found <==> i > 0
      invariant i > 0 ==> result == Some(up[0])
      invariant i == 0 ==> result == None
    {
      var wasFound := found;
      found := true;
      if !wasFound {
        result := Some(up[i]);
      }
    }
    r := result.OkOr(Empty);
  }

  /** `first_or_none` is `first().ok()`. */
  method FirstOrNone<T>(up: seq<T>) returns (r: Option<T>)
    ensures up == [] ==> r == None
    ensures up != [] ==> r == Some(up[0])
  {
    var first := First(up);
    r := first.ToOption();
  }

  /** `single`: values are counted and the first is kept; the count decides. */
  method Single<T>(up: seq<T>) returns (r: Result<T, FlowError>)
    ensures |up| == 0 ==> r == Err(Empty)
    ensures |up| == 1 ==> r == Ok(up[0])
    ensures |up| > 1 ==> r == Err(MoreThanOneElement)
  {
    var result: Option<T> := None;
    var count := 0;
    for i := 0 to |up|
      invariant count == i
      invariant i > 0 ==> result == Some(up[0])
      invariant i == 0 ==> result == None
    {
      var prev := count;
      count := count + 1;
      if prev == 0 {
        result := Some(up[i]);
      }
    }
    if count == 0 {
      r := Err(Empty);
    } else if count > 1 {
      r := Err(MoreThanOneElement);
    } else {
      r := result.OkOr(Empty);
    }
  }

  /** `single_or_none` is `single().ok()`. */
  method SingleOrNone<T>(up: seq<T>) returns (r: Option<T>)
    ensures |up| == 1 ==> r == Some(up[0])
    ensures |up| != 1 ==> r == None
  {
    var single := Single(up);
    r := single.ToOption();
  }

  /** `last_or_none`: every value overwrites the kept one. */
  method LastOrNone<T>(up: seq<T>) returns (r: Option<T>)
    ensures up == [] ==> r == None
    ensures up != [] ==> r == Some(up[|up| - 1])
  {
    r := None;
    for i := 0 to |up|
      invariant i == 0 ==> r == None
      invariant i > 0 ==> r == Some(up[i - 1])
    {
      r := Some(up[i]);
    }
  }

  /** `to_vec`: every value is pushed onto a shared vector. */
  method ToVec<T>(up: seq<T>) returns (r: seq<T>)
    ensures r == up
  {
    r := [];
    for i := 0 to |up|
      invariant r == up[..i]
    {
      r := r + [up[i]];
    }
  }

  /** `to_set`: every value is inserted into a shared hash set. */
  method ToSet<T(==)>(up: seq<T>) returns (r: set<T>)
    ensures forall x :: x in r <==> x in up
  {
    r := {};
    for i := 0 to |up|
      invariant forall x :: x in r <==> x in up[..i]
    {
      assert up[..i + 1] == up[..i] + [up[i]];
      r := r + {up[i]};
    }
    assert up[..|up|] == up;
  }

  /** `fold(initial, f)`: the accumulator is replaced by `f(acc, value)` for each value. */
  method Fold<T, R>(up: seq<T>, initial: R, f: (R, T) -> R) returns (r: R)
    ensures r == FoldLeft(f, initial, up)
  {
    r := initial;
    for i := 0 to |up|
      invariant r == FoldLeft(f, initial, up[..i])
    {
      FoldLeftSnoc(f, initial, up[..i], up[i]);
      assert up[..i + 1] == up[..i] + [up[i]];
      r := f(r, up[i]);
    }
    assert up[..|up|] == up;
  }

  /** `reduce(f)`: the first value becomes the accumulator, the others are folded into it. */
  method Reduce<T>(up: seq<T>, f: (T, T) -> T) returns (r: Result<T, FlowError>)
    ensures up == [] ==> r == Err(Empty)
    ensures up != [] ==> r == Ok(FoldLeft(f, up[0], up[1..]))
  {
    var acc: Option<T> := None;
    for i := 0 to |up|
      invariant i == 0 ==> acc == None
      invariant i > 0 ==> acc == Some(FoldLeft(f, up[0], up[1..i]))
    {
      match acc
      case None =>
        acc := Some(up[i]);
        assert up[1..1] == [];
      case Some(current) =>
        FoldLeftSnoc(f, up[0], up[1..i], up[i]);
        assert up[1..i + 1] == up[1..i] + [up[i]];
        acc := Some(f(current, up[i]));
    }
    if up != [] {
      assert up[1..|up|] == up[1..];
    }
    r := acc.OkOr(Empty);
  }

  /** Reducing is folding from the first value: for a nonempty flow `fold(x, f)` after `x` equals `reduce(f)`. */
  lemma ReduceIsFoldAfterFirst<T>(x: T, rest: seq<T>, f: (T, T) -> T)
    ensures FoldLeft(f, x, rest) == FoldLeft(f, x, ([x] + rest)[1..])
  {
    assert ([x] + rest)[1..] == rest;
  }

  /** `count`: a shared counter incremented per value. */
  method Count<T>(up: seq<T>) returns (r: nat)
    ensures r == |up|
  {
    r := 0;
    for i := 0 to |up|
      invariant r == i
    {
      r := r + 1;
    }
  }

  /**
   * `any(predicate)`: a flag set at the first match; the predicate is not
   * called once the flag is set, though the rest of the flow is still
   * received.  `calls` is the number of predicate calls.
   */
  method Any<T>(up: seq<T>, p: T -> bool) returns (r: bool, calls: nat)
    ensures r <==> exists i :: 0 <= i < |up| && p(up[i])
    ensures calls == if r then FirstMatch(up, p) + 1 else |up|
  {
    var found := false;
    calls := 0;
    var n := FirstMatch(up, p);
    for i := 0 to |up|
      invariant found <==> n < i
      invariant calls == if found then n + 1 else i
    {
      if !found {
        calls := calls + 1;
        if p(up[i]) {
          found := true;
        }
      }
    }
    r := found;
  }

  /** `all(predicate)`: a flag cleared at the first value that fails; the predicate is not called afterwards. */
  method All<T>(up: seq<T>, p: T -> bool) returns (r: bool, calls: nat)
    ensures r <==> forall i :: 0 <= i < |up| ==> p(up[i])
    ensures calls == if r then |up| else FirstMatch(up, x => !p(x)) + 1
  {
    var allMatch := true;
    calls := 0;
    var n := FirstMatch(up, x => !p(x));
    for i := 0 to |up|
      invariant allMatch <==> i <= n
      invariant calls == if allMatch then i else n + 1
    {
      if allMatch {
        calls := calls + 1;
        if !p(up[i]) {
          allMatch := false;
        }
      }
    }
    r := allMatch;
  }

  /** `none(predicate)` is `!any(predicate)`. */
  method NoneMatch<T>(up: seq<T>, p: T -> bool) returns (r: bool)
    ensures r <==> forall i :: 0 <= i < |up| ==> !p(up[i])
  {
    var any, calls := Any(up, p);
    r := !any;
  }

  /** `any` and `all` are duals: `all(p)` fails exactly where `any(!p)` succeeds, after the same predicate calls. */
  lemma AnyAllDual<T>(up: seq<T>, p: T -> bool)
    ensures (forall i :: 0 <= i < |up| ==> p(up[i])) <==> FirstMatch(up, x => !p(x)) == |up|
    ensures (exists i :: 0 <= i < |up| && p(up[i])) <==> FirstMatch(up, p) < |up|
  {
  }

  /**
   * The terminal test over `[1, 2, 3]`: `first` gives 1, summing with
   * `reduce` gives 6 and `count` gives 3; over `[1, 2]` `single` fails with
   * `MoreThanOneElement`, and over nothing with `Empty`.
   */
  method TerminalUsage() returns (first: Result<int, FlowError>, total: Result<int, FlowError>, count: nat,
                                  two: Result<int, FlowError>, none: Result<int, FlowError>)
    ensures first == Ok(1) && total == Ok(6) && count == 3
    ensures two == Err(MoreThanOneElement) && none == Err(Empty)
  {
    var series := [1, 2, 3];
    first := First(series);
    total := Reduce(series, (acc: int, x: int) => acc + x);
    assert series[1..] == [2, 3];
    assert [2, 3][1..] == [3];
    assert [3][1..] == [];
    count := Count(series);
    two := Single([1, 2]);
    none := Single([]);
  }
}
