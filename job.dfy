/**
 * The cancellation primitives of rs_coroutine_core/src/job.rs.  A cloned
 * token or job shares its `Arc`s with the original; here clones are the same
 * object.
 */
module Job {

  /**
   * A `tokio::sync::Notify` as `job.rs` uses it: `notified()` registers a
   * waiter, and `notify_waiters()` releases the registered waiters without
   * storing a permit for later ones.
   */
  class Notify {
    var waiting: set<nat>
    var released: set<nat>
    var next: nat

    ghost predicate Valid()
      reads this
    {
      (forall t :: t in waiting ==> t < next) && (forall t :: t in released ==> t < next) && waiting !! released
    }

    constructor()
      ensures Valid()
      ensures waiting == {} && released == {} && next == 0
    {
      waiting, released, next := {}, {}, 0;
    }

    /** `notified()`: a waiter registers and gets its ticket. */
    method Notified() returns (ticket: nat)
      requires Valid()
      modifies this
      ensures Valid()
      ensures ticket == old(next) && next == old(next) + 1
      ensures waiting == old(waiting) + {ticket} && released == old(released)
    {
      ticket := next;
      waiting := waiting + {ticket};
      next := next + 1;
    }

    /** `notify_waiters()`: every registered waiter is released; later ones are not. */
    method NotifyWaiters()
      modifies this
      ensures waiting == {} && released == old(released) + old(waiting) && next == old(next)
    {
      released := released + waiting;
      waiting := {};
    }

    predicate IsReleased(ticket: nat)
      reads this
    {
      ticket in released
    }
  }

  /** `CancelToken`: a shared flag and a notifier for those waiting on it. */
  class CancelToken {
    var cancelled: bool
    const notify: Notify

    ghost predicate Valid()
      reads this, notify
    {
      notify.Valid()
    }

    /** `CancelToken::new` (and `Default`). */
    constructor()
      ensures Valid() && fresh(notify)
      ensures !cancelled && notify.waiting == {} && notify.released == {}
    {
      cancelled := false;
      notify := new Notify();
    }

    /** `cancel`: sets the flag and wakes everyone waiting in `cancelled()`. */
    method Cancel()
      modifies this, notify
      ensures cancelled
      ensures notify.waiting == {} && notify.released == old(notify.released) + old(notify.waiting)
      ensures notify.next == old(notify.next)
    {
      cancelled := true;
      notify.NotifyWaiters();
    }

    /** `is_cancelled`. */
    predicate IsCancelled()
      reads this
    {
      cancelled
    }

    /**
     * `cancelled()`: when the token is already cancelled the wait is over
     * at once (`ready`); otherwise the caller is registered as a waiter
     * with `ticket`.
     */
    method Cancelled() returns (ready: bool, ticket: nat)
      requires Valid()
      modifies notify
      ensures Valid()
      ensures ready <==> cancelled
      ensures ready ==> notify.waiting == old(notify.waiting) && notify.next == old(notify.next)
      ensures !ready ==> ticket == old(notify.next) && notify.waiting == old(notify.waiting) + {ticket}
      ensures notify.released == old(notify.released)
    {
      ticket := 0;
      ready := IsCancelled();
      if !ready {
        ticket := notify.Notified();
      }
    }

    /** `child`: a brand-new token, not linked to this one. */
    method Child() returns (c: CancelToken)
      ensures fresh(c) && fresh(c.notify) && c.Valid()
      ensures !c.cancelled
    {
      c := new CancelToken();
    }
  }

  /** `JobHandle`: a cancel token and a completion notifier. */
  class JobHandle {
    const token: CancelToken
    const completed: Notify

    ghost predicate Valid()
      reads this, token, token.notify, completed
    {
      token.Valid() && completed.Valid() && completed != token.notify
    }

    /** `JobHandle::new`. */
    constructor()
      ensures Valid() && fresh(token) && fresh(token.notify) && fresh(completed)
      ensures !token.cancelled && completed.waiting == {} && completed.released == {}
    {
      token := new CancelToken();
      completed := new Notify();
    }

    /** A job around a given token, with a fresh completion notifier. */
    constructor WithToken(t: CancelToken)
      requires t.Valid()
      ensures Valid() && token == t && fresh(completed)
      ensures completed.waiting == {} && completed.released == {}
    {
      token := t;
      completed := new Notify();
    }

    /** `new_child`: the child's token comes from `child()`, so it is independent of this job's. */
    method NewChild() returns (child: JobHandle)
      ensures fresh(child) && fresh(child.token) && fresh(child.token.notify) && fresh(child.completed)
      ensures child.Valid() && !child.token.cancelled
    {
      var t := token.Child();
      child := new JobHandle.WithToken(t);
    }

    /** `cancel`: cancels this job's own token. */
    method Cancel()
      modifies token, token.notify
      ensures token.cancelled
      ensures token.notify.waiting == {}
      ensures token.notify.released == old(token.notify.released) + old(token.notify.waiting)
      ensures token.notify.next == old(token.notify.next)
    {
      token.Cancel();
    }

    /** `is_cancelled`. */
    predicate IsCancelled()
      reads token
    {
      token.IsCancelled()
    }

    /** `join`: waits on the completion notifier. */
    method Join() returns (ticket: nat)
      requires Valid()
      modifies completed
      ensures Valid()
      ensures ticket == old(completed.next) && !completed.IsReleased(ticket)
      ensures completed.waiting == old(completed.waiting) + {ticket} && completed.released == old(completed.released)
    {
      ticket := completed.Notified();
    }

    /** `complete`: releases the joins already waiting, and records nothing for later ones. */
    method Complete()
      modifies completed
      ensures completed.waiting == {}
      ensures completed.released == old(completed.released) + old(completed.waiting)
      ensures completed.next == old(completed.next)
    {
      completed.NotifyWaiters();
    }
  }

  /** A new token is not cancelled; once cancelled it stays so, and a second cancel changes nothing. */
  method CancelIsSticky() returns (before: bool, once: bool, twice: bool)
    ensures !before && once && twice
  {
    var token := new CancelToken();
    before := token.IsCancelled();
    token.Cancel();
    once := token.IsCancelled();
    token.Cancel();
    twice := token.IsCancelled();
  }

  /** `cancelled()` on a cancelled token is ready at once; on a live one it waits until `cancel` releases it. */
  method CancelledWakesWaiters() returns (readyWhenLive: bool, releasedByCancel: bool, readyWhenCancelled: bool)
    ensures !readyWhenLive && releasedByCancel && readyWhenCancelled
  {
    var token := new CancelToken();
    var ticket;
    readyWhenLive, ticket := token.Cancelled();
    token.Cancel();
    releasedByCancel := token.notify.IsReleased(ticket);
    var unused;
    readyWhenCancelled, unused := token.Cancelled();
  }

  /**
   * `cancelled()` reads the flag and registers its waiter in two steps.  A
   * `cancel` that runs between them sets the flag and releases the waiters
   * before this one exists; nothing stores a permit, so the wait is never
   * released although the token is cancelled.
   */
  method CancelledLostWakeup() returns (ready: bool, cancelled: bool, released: bool)
    ensures !ready && cancelled && !released
  {
    var token := new CancelToken();
    ready := token.IsCancelled();
    token.Cancel();
    var ticket := token.notify.Notified();
    cancelled := token.IsCancelled();
    released := token.notify.IsReleased(ticket);
  }

  /** A child token is independent in both directions. */
  method ChildTokenIsIndependent() returns (childAfterParent: bool, parentAfterChild: bool)
    ensures !childAfterParent && !parentAfterChild
  {
    var parent := new CancelToken();
    var child := parent.Child();
    parent.Cancel();
    childAfterParent := child.IsCancelled();
    var parent2 := new CancelToken();
    var child2 := parent2.Child();
    child2.Cancel();
    parentAfterChild := parent2.IsCancelled();
  }

  /** Cancelling a job does not cancel its child, and a child's cancel does not reach the parent. */
  method ChildJobIsIndependent() returns (childCancelled: bool, parentCancelled: bool)
    ensures !childCancelled && parentCancelled
  {
    var parent := new JobHandle();
    var child := parent.NewChild();
    parent.Cancel();
    childCancelled := child.IsCancelled();
    parentCancelled := parent.IsCancelled();
  }

  /** `complete` releases a join that was already waiting, but not a join that starts after it. */
  method CompleteReleasesOnlyWaitingJoins() returns (early: bool, late: bool)
    ensures early && !late
  {
    var job := new JobHandle();
    var first := job.Join();
    job.Complete();
    early := job.completed.IsReleased(first);
    var second := job.Join();
    late := job.completed.IsReleased(second);
  }
}
