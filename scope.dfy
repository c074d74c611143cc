/**
 * The coroutine scope of rs_coroutine_core/src/scope.rs.  A dispatcher is a
 * FIFO queue of spawned tasks that runs one task per step; a future is
 * named by a number, and `ran` records which futures were awaited.
 */
module Scope {
  import opened Prelude
  import opened Job

  /** The sending and receiving halves of a one-shot channel. */
  class OneShot<T> {
    var value: Option<T>

    constructor()
      ensures value == None
    {
      value := None;
    }

    method Send(v: T)
      modifies this
      ensures value == Some(v)
    {
      value := Some(v);
    }
  }

  /**
   * A spawned task.  `Launched` is the wrapper `launch` spawns: it checks the
   * scope's token, awaits the body if it is live, then completes the job.
   * `Forked` is the wrapper of `with_dispatcher` and `async_task`: it awaits
   * the body, whose output is `output`, and sends that through `tx`.
   */
  datatype Task<T> =
    | Launched(body: nat, token: CancelToken, job: JobHandle)
    | Forked(body: nat, output: T, tx: OneShot<T>)

  /** What a task may change when it runs. */
  function TaskFrame<T>(t: Task<T>): set<object>
  {
    match t
    case Launched(_, _, job) => {job.completed}
    case Forked(_, _, tx) => {tx}
  }

  /** The objects all of `tasks` may change. */
  function Frames<T>(tasks: seq<Task<T>>): set<object>
  {
    if tasks == [] then {} else TaskFrame(tasks[0]) + Frames(tasks[1..])
  }

  lemma {:induction false} FramesContain<T>(tasks: seq<Task<T>>)
    ensures forall i :: 0 <= i < |tasks| ==> TaskFrame(tasks[i]) <= Frames(tasks)
  {
    if tasks != [] {
      FramesContain(tasks[1..]);
      assert forall i :: 1 <= i < |tasks| ==> tasks[i] == tasks[1..][i - 1];
    }
  }

  /** A `Dispatcher`: `spawn` enqueues, and the executor runs the oldest task first. */
  class Dispatcher<T> {
    var pending: seq<Task<T>>
    var ran: seq<nat>

    constructor()
      ensures pending == [] && ran == []
    {
      pending := [];
      ran := [];
    }

    /** `spawn(fut)`. */
    method Spawn(t: Task<T>)
      modifies this
      ensures pending == old(pending) + [t] && ran == old(ran)
    {
      pending := pending + [t];
    }

    /** The executor runs the oldest pending task to its end. */
    method RunNext()
      requires pending != []
      modifies this, TaskFrame(pending[0])
      ensures pending == old(pending[1..])
      ensures old(pending[0]).Launched? ==>
        && ran == old(ran) + (if old(pending[0].token.cancelled) then [] else [old(pending[0].body)])
        && old(pending[0]).job.completed.waiting == {}
        && old(pending[0]).job.completed.released == old(pending[0].job.completed.released + pending[0].job.completed.waiting)
        && old(pending[0]).job.completed.next == old(pending[0].job.completed.next)
      ensures old(pending[0]).Forked? ==> ran == old(ran) + [old(pending[0].body)] && old(pending[0]).tx.value == Some(old(pending[0].output))
    {
      var t := pending[0];
      pending := pending[1..];
      match t
      case Launched(body, token, job) =>
        if !token.IsCancelled() {
          ran := ran + [body];
        }
        job.Complete();
      case Forked(body, output, tx) =>
        ran := ran + [body];
        tx.Send(output);
    }
  }

  /** `Deferred`: the receiving half of the task's channel and the child scope's job. */
  datatype Deferred<T> = Deferred(rx: OneShot<T>, job: JobHandle) {
    /**
     * `await_result`: the value the task sent; `None` while the task has
     * not run, during which the await stays suspended.
     */
    method AwaitResult() returns (r: Option<T>)
      ensures r == rx.value
    {
      r := rx.value;
    }
  }

  /** `CoroutineScope`: a dispatcher, a job and a cancel token. */
  class CoroutineScope<T> {
    const dispatcher: Dispatcher<T>
    const job: JobHandle
    const cancelToken: CancelToken

    ghost predicate Valid()
      reads this, job, job.token, job.token.notify, job.completed, cancelToken, cancelToken.notify
    {
      job.Valid() && cancelToken.Valid()
      && cancelToken != job.token && cancelToken.notify != job.token.notify
    }

    /** `CoroutineScope::new(dispatcher)`: a new job and a new token, neither cancelled. */
    constructor(dispatcher: Dispatcher<T>)
      ensures Valid() && this.dispatcher == dispatcher
      ensures fresh(job) && fresh(job.token) && fresh(job.token.notify) && fresh(job.completed)
      ensures fresh(cancelToken) && fresh(cancelToken.notify)
      ensures !cancelToken.cancelled && !job.token.cancelled
    {
      this.dispatcher := dispatcher;
      job := new JobHandle();
      cancelToken := new CancelToken();
    }

    /** A scope made of given parts, as `with_dispatcher` and `async_task` build their child scopes. */
    constructor FromParts(dispatcher: Dispatcher<T>, job: JobHandle, cancelToken: CancelToken)
      requires job.Valid() && cancelToken.Valid()
      requires cancelToken != job.token && cancelToken.notify != job.token.notify
      ensures Valid()
      ensures this.dispatcher == dispatcher && this.job == job && this.cancelToken == cancelToken
    {
      this.dispatcher := dispatcher;
      this.job := job;
      this.cancelToken := cancelToken;
    }

    /** `is_cancelled`: reads the cancel token only. */
    predicate IsCancelled()
      reads cancelToken
    {
      cancelToken.cancelled
    }

    /** `cancel`: cancels both the token and the job. */
    method Cancel()
      requires Valid()
      modifies cancelToken, cancelToken.notify, job.token, job.token.notify
      ensures Valid()
      ensures cancelToken.cancelled && job.token.cancelled
      ensures cancelToken.notify.waiting == {}
      ensures cancelToken.notify.released == old(cancelToken.notify.released) + old(cancelToken.notify.waiting)
      ensures cancelToken.notify.next == old(cancelToken.notify.next)
      ensures job.token.notify.waiting == {}
      ensures job.token.notify.released == old(job.token.notify.released) + old(job.token.notify.waiting)
      ensures job.token.notify.next == old(job.token.notify.next)
    {
      cancelToken.Cancel();
      job.Cancel();
    }

    /**
     * `launch(fut)`: returns a child of the scope's job and spawns a task
     * holding the scope's own token (not a child of it) and that child job.
     */
    method Launch(body: nat) returns (child: JobHandle)
      requires Valid()
      modifies dispatcher
      ensures fresh(child) && fresh(child.token) && fresh(child.token.notify) && fresh(child.completed)
      ensures child.Valid() && !child.token.cancelled
      ensures dispatcher.pending == old(dispatcher.pending) + [Launched(body, cancelToken, child)]
      ensures dispatcher.ran == old(dispatcher.ran)
    {
      child := job.NewChild();
      dispatcher.Spawn(Launched(body, cancelToken, child));
    }

    /** The child scope of `with_dispatcher` and `async_task`: a child job and a fresh token from `child()`. */
    method ChildScope(d: Dispatcher<T>) returns (scope: CoroutineScope<T>)
      ensures fresh(scope) && scope.dispatcher == d
      ensures scope.Valid()
      ensures fresh(scope.job) && fresh(scope.job.token) && fresh(scope.job.token.notify) && fresh(scope.job.completed)
      ensures fresh(scope.cancelToken) && fresh(scope.cancelToken.notify)
      ensures !scope.cancelToken.cancelled && !scope.job.token.cancelled
    {
      var childJob := job.NewChild();
      var childToken := cancelToken.Child();
      scope := new CoroutineScope.FromParts(d, childJob, childToken);
    }

    /**
     * `async_task(dispatcher, fut)`: spawns the body in a child scope and
     * returns the receiving half with the child scope's job.
     */
    method AsyncTask(d: Dispatcher<T>, body: nat, output: T) returns (deferred: Deferred<T>)
      modifies d
      ensures fresh(deferred.rx) && deferred.rx.value == None
      ensures fresh(deferred.job) && fresh(deferred.job.token) && !deferred.job.token.cancelled
      ensures d.pending == old(d.pending) + [Forked(body, output, deferred.rx)]
      ensures d.ran == old(d.ran)
    {
      var child := ChildScope(d);
      var tx := new OneShot<T>();
      d.Spawn(Forked(body, output, tx));
      deferred := Deferred(tx, child.job);
    }

    /**
     * `with_dispatcher(dispatcher, fut)`: spawns the body in a child scope
     * and waits for its output; the dispatcher runs the tasks queued before
     * it first.
     */
    method WithDispatcher(d: Dispatcher<T>, body: nat, output: T) returns (result: T)
      modifies d, Frames(d.pending)
      ensures result == output
      ensures d.pending == [] && |d.ran| > 0 && d.ran[|d.ran| - 1] == body
    {
      var child := ChildScope(d);
      var tx := new OneShot<T>();
      ghost var queue := d.pending + [Forked(body, output, tx)];
      ghost var frames := Frames(old(d.pending));
      FramesContain(old(d.pending));
      d.Spawn(Forked(body, output, tx));
      ghost var steps := 0;
      while tx.value.None?
        invariant steps <= |queue| && d.pending == queue[steps..]
        invariant steps < |queue| ==> tx.value == None
        invariant steps == |queue| ==> tx.value == Some(output) && |d.ran| > 0 && d.ran[|d.ran| - 1] == body
        invariant forall i :: steps <= i < |queue| - 1 ==> TaskFrame(queue[i]) <= frames
        decreases |d.pending|
      {
        assert d.pending[0] == queue[steps];
        if steps < |queue| - 1 {
          assert TaskFrame(queue[steps]) <= frames;
          assert tx !in TaskFrame(queue[steps]);
        }
        d.RunNext();
        steps := steps + 1;
      }
      result := tx.value.value;
    }
  }

  /** A new scope is live; `cancel` marks both its token and its job. */
  method ScopeCancel() returns (before: bool, after: bool, jobAfter: bool)
    ensures !before && after && jobAfter
  {
    var d := new Dispatcher<int>();
    var scope := new CoroutineScope(d);
    before := scope.IsCancelled();
    scope.Cancel();
    after := scope.IsCancelled();
    jobAfter := scope.job.IsCancelled();
  }

  /** The scope test: a join started before the launched task runs is released, and the body ran. */
  method LaunchedCoroutineCompletes() returns (ran: seq<nat>, joined: bool)
    ensures ran == [7] && joined
  {
    var d := new Dispatcher<int>();
    var scope := new CoroutineScope(d);
    var job := scope.Launch(7);
    var ticket := job.Join();
    d.RunNext();
    ran := d.ran;
    joined := job.completed.IsReleased(ticket);
  }

  /** The cancellation test: `cancel` after `launch` but before the task starts suppresses the body, and the job still completes. */
  method CancelBeforeStartSkipsBody() returns (ran: seq<nat>, joined: bool)
    ensures ran == [] && joined
  {
    var d := new Dispatcher<int>();
    var scope := new CoroutineScope(d);
    var job := scope.Launch(7);
    scope.Cancel();
    var ticket := job.Join();
    d.RunNext();
    ran := d.ran;
    joined := job.completed.IsReleased(ticket);
  }

  /** Once the task has already started, a later `cancel` does not undo the body, and a join started after completion stays suspended. */
  method CancelAfterStartAndLateJoin() returns (ran: seq<nat>, joined: bool)
    ensures ran == [7] && !joined
  {
    var d := new Dispatcher<int>();
    var scope := new CoroutineScope(d);
    var job := scope.Launch(7);
    d.RunNext();
    scope.Cancel();
    var ticket := job.Join();
    ran := d.ran;
    joined := job.completed.IsReleased(ticket);
  }

  /**
   * Child scopes get their own token: after the parent scope is cancelled,
   * an `async_task` still runs and delivers, its job is live, and
   * `with_dispatcher` still returns the body's output.
   */
  method ChildScopesOutliveParentCancel() returns (early: Option<int>, late: Option<int>, childCancelled: bool, switched: int)
    ensures early == None && late == Some(42)
    ensures !childCancelled
    ensures switched == 5
  {
    var d := new Dispatcher<int>();
    var scope := new CoroutineScope(d);
    scope.Cancel();
    var deferred := scope.AsyncTask(d, 3, 42);
    early := deferred.AwaitResult();
    d.RunNext();
    late := deferred.AwaitResult();
    childCancelled := deferred.job.IsCancelled();
    var io := new Dispatcher<int>();
    switched := scope.WithDispatcher(io, 4, 5);
  }
}
