/** A fixed-size executor lane whose submitted plus running work is bounded. */
module BoundedLane {
  import opened Wrappers

  datatype LaneError = LaneClosed | LaneFull | SubmitFailed

  function AtLeast(n: int, low: int): int {
    if n > low then n else low
  }

  /** Jobs are numbered; `running` are submitted and not finished, `awaited` those whose
      caller still waits for the result. */
  class BoundedExecutorLane {
    const maxWorkers: int
    const maxPending: int
    var pending: int
    var closed: bool
    ghost var running: set<nat>
    ghost var awaited: set<nat>

    ghost predicate Valid()
      reads this
    {
      1 <= maxWorkers <= maxPending && pending == |running| <= maxPending && awaited <= running
    }

    constructor (workers: int, pendingLimit: int)
      ensures Valid() && pending == 0 && !closed && running == {}
      ensures maxWorkers == AtLeast(workers, 1) && maxPending == AtLeast(pendingLimit, maxWorkers)
    {
      var w := AtLeast(workers, 1);
      maxWorkers, maxPending := w, AtLeast(pendingLimit, w);
      pending, closed, running, awaited := 0, false, {}, {};
    }

    /** _reserve: refused before anything is submitted. */
    method Reserve() returns (r: Result<(), LaneError>)
      modifies this`pending
      ensures r == Failure(LaneClosed) <==> closed
      ensures r == Failure(LaneFull) <==> !closed && old(pending) >= maxPending
      ensures pending == if r.Success? then old(pending) + 1 else old(pending)
      ensures r.Success? <==> !closed && old(pending) < maxPending
    {
      if closed {
        return Failure(LaneClosed);
      }
      if pending >= maxPending {
        return Failure(LaneFull);
      }
      pending := pending + 1;
      return Success(());
    }

    method Release()
      modifies this`pending
      ensures pending == if old(pending) > 0 then old(pending) - 1 else old(pending)
    {
      if pending > 0 {
        pending := pending - 1;
      }
    }

    /** run, up to the first suspension: a refused or failed call has started no job and
        holds no capacity. */
    method Run(ghost job: nat, submits: bool) returns (r: Result<(), LaneError>)
      requires Valid() && job !in running
      modifies this
      ensures Valid() && closed == old(closed)
      ensures r == Failure(LaneClosed) <==> old(closed)
      ensures r == Failure(LaneFull) <==> !old(closed) && |old(running)| == maxPending
      ensures r == Failure(SubmitFailed) <==> !old(closed) && |old(running)| < maxPending && !submits
      ensures running == if r.Success? then old(running) + {job} else old(running)
      ensures awaited == if r.Success? then old(awaited) + {job} else old(awaited)
    {
      var reserved := Reserve();
      if reserved.Failure? {
        return reserved;
      }
      if !submits {
        Release();
        return Failure(SubmitFailed);
      }
      running, awaited := running + {job}, awaited + {job};
      return Success(());
    }

    /** Cancelling the caller stops its wait, not the job, and frees no capacity. */
    method CancelWait(ghost job: nat)
      requires Valid()
      modifies this`awaited
      ensures Valid() && awaited == old(awaited) - {job}
    {
      awaited := awaited - {job};
    }

    /** The done callback of a job that the worker finished. */
    method Complete(ghost job: nat)
      requires Valid() && job in running
      modifies this`pending, this`running, this`awaited
      ensures Valid() && running == old(running) - {job} && awaited == old(awaited) - {job}
      ensures pending == old(pending) - 1
    {
      running, awaited := running - {job}, awaited - {job};
      Release();
    }

    /** Closing refuses later work and lets the submitted jobs finish. */
    method Close()
      requires Valid()
      modifies this`closed
      ensures Valid() && closed
    {
      closed := true;
    }
  }
}
