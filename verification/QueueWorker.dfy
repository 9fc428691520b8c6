/** When the drain worker starts, and when the retry timer that stands in for it may act. */
module QueueWorker {
  import opened Common

  /**
   The protocol's fields. `timer` is the epoch of the timer that is set, if any. `workers` counts
   the goroutines that have not yet reported back, and `armed` holds the epochs of the callbacks
   that may still fire: stopping a timer does not prevent a callback that is already on its way.
   */
  datatype Protocol = Protocol(
    stopped: bool, active: bool, retry: bool, timer: Option<nat>, epoch: nat,
    workers: nat, armed: set<nat>)

  const IDLE := Protocol(false, false, false, None, 0, 0, {})

  // One critical section. Whether anything is queued and any proxy is free, and how long the front
  // asks to wait, are inputs.
  datatype Step =
    | Async(queued: bool, free: bool, wait: int)
    | Finished(queued: bool, free: bool)
    | Fire(armedEpoch: nat, queued: bool, free: bool)
    | CancelRetry
    | Stop

  function Cancelled(p: Protocol): Protocol {
    if !p.retry && p.timer.None? then p else p.(epoch := p.epoch + 1, timer := None, retry := false)
  }

  function Scheduled(p: Protocol): Protocol {
    var c := Cancelled(p);
    c.(retry := true, epoch := c.epoch + 1, timer := Some(c.epoch + 1), armed := c.armed + {c.epoch + 1})
  }

  function Apply(p: Protocol, step: Step): Protocol {
    match step
    case Async(queued, free, wait) =>
      if p.stopped || p.active || p.retry || !queued || !free then p
      else if wait > 0 then Scheduled(p)
      else p.(active := true, workers := p.workers + 1)
    case Finished(_, _) =>
      if p.workers == 0 then p else p.(active := false, workers := p.workers - 1)
    case Fire(e, _, _) =>
      if e !in p.armed then p
      else
        var fired := p.(armed := p.armed - {e});
        if !p.retry || e != p.epoch then fired else fired.(retry := false, timer := None)
    case CancelRetry => Cancelled(p)
    case Stop => Cancelled(p.(stopped := true))
  }

  function Run(p: Protocol, steps: seq<Step>): Protocol
    decreases |steps|
  {
    if steps == [] then p else Run(Apply(p, steps[0]), steps[1..])
  }

  ghost predicate Sound(p: Protocol) {
    && p.workers == (if p.active then 1 else 0)
    && !(p.active && p.retry)
    && (p.retry <==> p.timer.Some?)
    && (p.retry ==> p.timer == Some(p.epoch))
    && (forall e :: e in p.armed ==> e <= p.epoch)
    && (p.epoch in p.armed <==> p.retry)
    && (p.stopped ==> !p.retry)
  }

  lemma ApplyKeepsSound(p: Protocol, step: Step)
    requires Sound(p)
    ensures Sound(Apply(p, step))
  {
  }

  /** At most one worker, and never one beside a set timer, over all interleavings. */
  lemma {:induction false} RunKeepsSound(p: Protocol, steps: seq<Step>)
    requires Sound(p)
    ensures Sound(Run(p, steps))
    ensures Run(p, steps).workers <= 1 && !(Run(p, steps).workers > 0 && Run(p, steps).timer.Some?)
    decreases |steps|
  {
    if steps != [] {
      ApplyKeepsSound(p, steps[0]);
      RunKeepsSound(Apply(p, steps[0]), steps[1..]);
    }
  }

  /**
   When asked, and somebody waits for a free proxy, a worker starts at once, unless the front asks to wait;
   then a fresh timer is set instead. Neither happens when stopped, beside a worker, or beside a set timer.
   */
  lemma StartsExactlyWhen(p: Protocol, queued: bool, free: bool, wait: int)
    requires Sound(p)
    ensures var after := Apply(p, Async(queued, free, wait));
            var due := queued && free && !p.stopped && p.workers == 0 && p.timer.None?;
            && after.stopped == p.stopped
            && after.workers == (if due && wait <= 0 then 1 else p.workers)
            && (if due && wait > 0 then after.timer.Some? && after.timer.value !in p.armed && after.armed == p.armed + {after.timer.value}
                else after.timer == p.timer && after.armed == p.armed)
  {
  }

  /** A worker that ends is gone; a callback of the set timer takes the timer down and no other does; so does cancelling. */
  lemma EndsExactlyWhen(p: Protocol, queued: bool, free: bool, e: nat)
    requires Sound(p)
    ensures var after := Apply(p, Finished(queued, free));
            after.workers == 0 && after.timer == p.timer && after.armed == p.armed && after.stopped == p.stopped
    ensures e in p.armed ==>
              var after := Apply(p, Fire(e, queued, free));
              && after.timer == (if p.timer == Some(e) then None else p.timer)
              && after.workers == p.workers && after.armed == p.armed - {e} && after.stopped == p.stopped
    ensures Apply(p, CancelRetry).timer == None && Apply(p, CancelRetry).armed == p.armed && Apply(p, CancelRetry).workers == p.workers
    ensures Apply(p, CancelRetry).stopped == p.stopped
    ensures Apply(p, Stop).timer == None && Apply(p, Stop).stopped && Apply(p, Stop).workers == p.workers && Apply(p, Stop).armed == p.armed
  {
  }

  /** The fields the code can see. */
  function Visible(p: Protocol): Protocol {
    p.(armed := {})
  }

  /** A callback that no longer belongs to the set timer. */
  predicate Dead(p: Protocol, e: nat) {
    e < p.epoch || (e == p.epoch && !p.retry)
  }

  lemma {:induction false} DeadStaysDead(p: Protocol, e: nat, steps: seq<Step>)
    requires Sound(p) && Dead(p, e)
    ensures Sound(Run(p, steps)) && Dead(Run(p, steps), e)
    decreases |steps|
  {
    if steps != [] {
      ApplyKeepsSound(p, steps[0]);
      DeadStaysDead(Apply(p, steps[0]), e, steps[1..]);
    }
  }

  /**
   A callback that is on its way when its timer is cancelled, superseded, used up or stopped changes
   nothing whenever it still fires, whatever runs in between.
   */
  lemma RevokedCallbackIsInert(p: Protocol, e: nat, revoke: Step, steps: seq<Step>, queued: bool, free: bool)
    requires Sound(p) && e in p.armed && Apply(p, revoke).timer != Some(e)
    ensures var later := Run(Apply(p, revoke), steps);
            Visible(Apply(later, Fire(e, queued, free))) == Visible(later)
  {
    ApplyKeepsSound(p, revoke);
    DeadStaysDead(Apply(p, revoke), e, steps);
  }

  /** After stop no worker starts and no timer is ever set again. */
  lemma {:induction false} NothingStartsAfterStop(p: Protocol, steps: seq<Step>)
    requires Sound(p) && p.stopped
    ensures var later := Run(p, steps);
            later.stopped && later.workers <= p.workers && later.timer.None?
    decreases |steps|
  {
    if steps != [] {
      ApplyKeepsSound(p, steps[0]);
      NothingStartsAfterStop(Apply(p, steps[0]), steps[1..]);
    }
  }

  class QueueRunner {
    var queueStopped: bool
    var queueActive: bool
    var queueRetry: bool
    var queueTimer: Option<nat>
    var queueEpoch: nat
    ghost var workers: nat
    ghost var armed: set<nat>

    ghost function View(): Protocol
      reads this
    {
      Protocol(queueStopped, queueActive, queueRetry, queueTimer, queueEpoch, workers, armed)
    }

    ghost predicate Valid()
      reads this
    {
      Sound(View())
    }

    constructor ()
      ensures Valid() && View() == IDLE
    {
      queueStopped, queueActive, queueRetry, queueTimer, queueEpoch := false, false, false, None, 0;
      workers, armed := 0, {};
    }

    method ProcessQueueAsync(queued: bool, free: bool, wait: int) returns (started: bool)
      requires Valid()
      modifies this
      ensures Valid() && View() == Apply(old(View()), Async(queued, free, wait))
      ensures started <==> workers > old(workers)
      ensures started ==> workers == 1 && old(workers) == 0 && !queueStopped && queueTimer.None?
    {
      if queueStopped || queueActive || queueRetry {
        return false;
      }
      if !queued || !free {
        return false;
      }
      if wait > 0 {
        ScheduleQueueRetry();
        return false;
      }
      queueActive := true;
      workers := workers + 1;
      return true;
    }

    method WorkerFinished(queued: bool, free: bool) returns (restart: bool)
      requires Valid() && workers > 0
      modifies this
      ensures Valid() && View() == Apply(old(View()), Finished(queued, free))
      ensures restart <==> !queueStopped && queued && free
      ensures workers == 0
    {
      queueActive := false;
      workers := workers - 1;
      return !queueStopped && queued && free;
    }

    method ScheduleQueueRetry()
      requires Valid() && !queueStopped && !queueActive
      modifies this
      ensures Valid() && View() == Scheduled(old(View()))
    {
      CancelQueueRetry();
      queueRetry := true;
      queueEpoch := queueEpoch + 1;
      queueTimer := Some(queueEpoch);
      armed := armed + {queueEpoch};
    }

    method TimerFired(e: nat, queued: bool, free: bool) returns (process: bool)
      requires Valid() && e in armed
      modifies this
      ensures Valid() && View() == Apply(old(View()), Fire(e, queued, free))
      ensures process <==> old(queueTimer) == Some(e) && !queueStopped && queued && free
    {
      armed := armed - {e};
      if !queueRetry || e != queueEpoch {
        return false;
      }
      queueRetry := false;
      queueTimer := None;
      return !queueStopped && queued && free;
    }

    method CancelQueueRetry()
      modifies this
      ensures View() == Cancelled(old(View()))
    {
      if !queueRetry && queueTimer.None? {
        return;
      }
      queueEpoch := queueEpoch + 1;
      if queueTimer.Some? {
        queueTimer := None;
      }
      queueRetry := false;
    }

    method StopQueueProcessing()
      requires Valid()
      modifies this
      ensures Valid() && View() == Apply(old(View()), Stop)
      ensures queueStopped && queueTimer.None?
    {
      queueStopped := true;
      CancelQueueRetry();
    }
  }
}
