/**
 * The rate-limited request queue: requests wait in a FIFO queue, one drain
 * takes the head, runs it 1000 ms later, hands the result to the caller and
 * then takes the next head. Requests are numbered in submission order; a
 * request's execution and its result are events supplied from outside, and
 * time is a logical clock that the environment advances.
 */
module RateLimiter {
  import opened Wrappers

  /** The delay between taking a request and executing it, in milliseconds. */
  const RateLimitDelay := 1000

  const CancelMessage := "Request cancelled"

  /** A drain step underway: the request it took, when, and whether it has started executing. */
  datatype Drain = Drain(id: nat, takenAt: int, started: bool)

  /** An execution of a request, and when it started. */
  datatype Start = Start(id: nat, at: int)

  /** What a caller's subject received: the value, or the error. */
  datatype Delivery = Delivery(id: nat, result: Outcome<int>)

  /** The error every pending request receives when the queue is cleared. */
  function Cancelled(ids: seq<nat>): (r: seq<Delivery>)
    ensures |r| == |ids|
  {
    seq(|ids|, i requires 0 <= i < |ids| => Delivery(ids[i], Err(CancelMessage)))
  }

  predicate Increasing(s: seq<nat>) {
    forall i, j :: 0 <= i < j < |s| ==> s[i] < s[j]
  }

  class RateLimiterService {
    /** The pending requests, oldest first (`requestQueue`). */
    var queue: seq<nat>
    var isProcessing: bool
    /** The drain steps whose request has been taken and has not answered yet. */
    var inFlight: seq<Drain>
    /** The number the next request gets. */
    var nextId: nat
    /** The logical clock, in milliseconds. */
    var now: int
    /** Everything the callers' subjects have received, in order. */
    var delivered: seq<Delivery>
    /** Every execution started, in order. */
    ghost var starts: seq<Start>
    /** The request the latest drain step took (-1 before the first). */
    ghost var lastTaken: int

    /** At most one drain step is underway, and exactly when the flag says one is. */
    ghost predicate Serial()
      reads this
    {
      |inFlight| <= 1 && (isProcessing <==> |inFlight| == 1)
    }

    /** Facts that hold between any two steps, whatever the flag says. */
    ghost predicate Bookkeeping()
      reads this
    {
      && |delivered| + |inFlight| + |queue| == nextId
      && Increasing(queue)
      && (forall i :: 0 <= i < |queue| ==> queue[i] < nextId)
      && (forall i :: 0 <= i < |queue| ==> lastTaken < queue[i])
      && lastTaken < nextId
      && (forall i :: 0 <= i < |inFlight| ==> inFlight[i].takenAt <= now)
      && (forall i :: 0 <= i < |starts| ==> starts[i].at <= now)
    }

    ghost predicate Valid()
      reads this
    {
      && Bookkeeping()
      && (!isProcessing ==> queue == [])
      && (isProcessing ==> |inFlight| >= 1)
      && (Serial() && starts != [] ==>
            forall i :: 0 <= i < |inFlight| && !inFlight[i].started ==> starts[|starts| - 1].at <= inFlight[i].takenAt)
    }

    constructor ()
      ensures Valid() && Serial()
      ensures queue == [] && !isProcessing && inFlight == [] && delivered == [] && starts == []
    {
      queue := [];
      isProcessing := false;
      inFlight := [];
      nextId := 0;
      now := 0;
      delivered := [];
      starts := [];
      lastTaken := -1;
    }

    /**
     * `processQueue`: with nothing pending the flag drops; otherwise the head
     * is taken and its execution is scheduled.
     */
    method ProcessQueue()
      requires Bookkeeping()
      modifies this
      ensures Valid()
      ensures old(queue) == [] ==> !isProcessing && queue == [] && inFlight == old(inFlight)
      ensures old(queue) != [] ==>
        && isProcessing && queue == old(queue)[1..]
        && inFlight == old(inFlight) + [Drain(old(queue)[0], now, false)]
      ensures old(queue) != [] ==> old(lastTaken) < old(queue)[0] == lastTaken
      ensures old(queue) != [] && Serial() ==> old(inFlight) == []
      ensures delivered == old(delivered) && starts == old(starts)
      ensures now == old(now) && nextId == old(nextId)
    {
      if |queue| == 0 {
        isProcessing := false;
        return;
      }
      isProcessing := true;
      var next := queue[0];
      lastTaken := next;
      queue := queue[1..];
      inFlight := inFlight + [Drain(next, now, false)];
    }

    /**
     * `queueRequest`: the new request goes to the tail, and a drain starts
     * only if none is running.
     */
    method QueueRequest() returns (id: nat)
      requires Valid()
      modifies this
      ensures Valid() && isProcessing
      ensures id == old(nextId) && nextId == old(nextId) + 1
      ensures old(isProcessing) ==> queue == old(queue) + [id] && inFlight == old(inFlight)
      ensures !old(isProcessing) ==> queue == [] && inFlight == old(inFlight) + [Drain(id, now, false)]
      ensures delivered == old(delivered) && starts == old(starts) && now == old(now)
      ensures old(Serial()) ==> Serial()
    {
      id := nextId;
      nextId := nextId + 1;
      queue := queue + [id];
      if !isProcessing {
        ProcessQueue();
      }
    }

    /** The delay has elapsed: the drain step `k` executes its request now. */
    method StartExecution(k: nat)
      requires Valid()
      requires k < |inFlight| && !inFlight[k].started
      requires now >= inFlight[k].takenAt + RateLimitDelay
      modifies this
      ensures Valid()
      ensures inFlight == old(inFlight)[k := old(inFlight)[k].(started := true)]
      ensures starts == old(starts) + [Start(old(inFlight)[k].id, now)]
      ensures old(Serial()) && old(starts) != [] ==> now >= old(starts)[|old(starts)| - 1].at + RateLimitDelay
      ensures queue == old(queue) && isProcessing == old(isProcessing) && delivered == old(delivered)
      ensures now == old(now) && nextId == old(nextId)
      ensures old(Serial()) ==> Serial()
    {
      inFlight := inFlight[k := inFlight[k].(started := true)];
      starts := starts + [Start(inFlight[k].id, now)];
    }

    /**
     * The execution of drain step `k` answered: the result goes to that
     * request's caller alone, and the next drain step follows, success or error.
     */
    method Complete(k: nat, result: Outcome<int>)
      requires Valid()
      requires k < |inFlight| && inFlight[k].started
      modifies this
      ensures Valid()
      ensures delivered == old(delivered) + [Delivery(old(inFlight)[k].id, result)]
      ensures var rest := old(inFlight)[..k] + old(inFlight)[k + 1..];
        && (old(queue) == [] ==> !isProcessing && queue == [] && inFlight == rest)
        && (old(queue) != [] ==>
              isProcessing && queue == old(queue)[1..] && inFlight == rest + [Drain(old(queue)[0], now, false)])
      ensures starts == old(starts) && now == old(now) && nextId == old(nextId)
      ensures old(Serial()) ==> Serial()
    {
      var d := inFlight[k];
      var rest := inFlight[..k] + inFlight[k + 1..];
      assert forall i :: 0 <= i < |rest| ==> rest[i].takenAt <= now by {
        forall i | 0 <= i < |rest|
          ensures rest[i].takenAt <= now
        {
          if i < k {
            assert rest[i] == inFlight[i];
          } else {
            assert rest[i] == inFlight[i + 1];
          }
        }
      }
      delivered := delivered + [Delivery(d.id, result)];
      inFlight := rest;
      ProcessQueue();
    }

    /** The clock moves forward. */
    method Tick(dt: nat)
      requires Valid()
      modifies this
      ensures Valid()
      ensures now == old(now) + dt
      ensures queue == old(queue) && isProcessing == old(isProcessing) && inFlight == old(inFlight)
      ensures delivered == old(delivered) && starts == old(starts) && nextId == old(nextId)
    {
      now := now + dt;
    }

    /** `getQueueLength`: the requests issued that are neither answered nor taken by a drain step. */
    method GetQueueLength() returns (n: nat)
      requires Valid()
      ensures n == |queue|
      ensures n == nextId - |delivered| - |inFlight|
    {
      n := |queue|;
    }

    /**
     * `clearQueue`: every pending request receives the cancellation error, the
     * queue empties and the flag drops, even while a request is in flight.
     */
    method ClearQueue()
      requires Valid()
      modifies this
      ensures Valid()
      ensures delivered == old(delivered) + Cancelled(old(queue))
      ensures queue == [] && !isProcessing
      ensures inFlight == old(inFlight) && starts == old(starts) && now == old(now) && nextId == old(nextId)
      ensures old(inFlight) == [] ==> Serial()
    {
      CancelPending();
      isProcessing := false;
    }

    /** The `forEach` over the pending requests, then the queue is emptied. */
    method CancelPending()
      requires Valid()
      modifies this
      ensures Bookkeeping()
      ensures delivered == old(delivered) + Cancelled(old(queue))
      ensures queue == [] && isProcessing == old(isProcessing)
      ensures inFlight == old(inFlight) && starts == old(starts) && now == old(now) && nextId == old(nextId)
    {
      var i := 0;
      ghost var d0 := delivered;
      while i < |queue|
        invariant 0 <= i <= |queue|
        invariant delivered == d0 + Cancelled(queue[..i])
        invariant inFlight == old(inFlight) && starts == old(starts) && now == old(now)
        invariant queue == old(queue) && nextId == old(nextId) && isProcessing == old(isProcessing)
        invariant lastTaken == old(lastTaken)
      {
        assert Cancelled(queue[..i + 1]) == Cancelled(queue[..i]) + [Delivery(queue[i], Err(CancelMessage))];
        delivered := delivered + [Delivery(queue[i], Err(CancelMessage))];
        i := i + 1;
      }
      assert queue[..i] == queue;
      queue := [];
    }

    /**
     * `clearQueue` as intended: pending requests are cancelled as before, but
     * the flag stays up while a drain step is underway, since that step
     * continues the drain when its request answers.
     */
    method ClearQueueKeepingDrain()
      requires Valid()
      modifies this
      ensures Valid()
      ensures delivered == old(delivered) + Cancelled(old(queue))
      ensures queue == [] && (isProcessing <==> old(isProcessing))
      ensures inFlight == old(inFlight) && starts == old(starts) && now == old(now) && nextId == old(nextId)
      ensures old(Serial()) ==> Serial()
    {
      CancelPending();
      if |inFlight| == 0 {
        isProcessing := false;
      }
    }
  }

  /** As written: a request queued after a clear, while one is in flight, starts a second drain. */
  method ClearDuringRequest() returns (r: RateLimiterService)
    ensures r.Valid() && r.isProcessing
    ensures |r.inFlight| == 2 && !r.Serial()
  {
    r := new RateLimiterService();
    var first := r.QueueRequest();
    r.ClearQueue();
    var second := r.QueueRequest();
  }

  /** With the intended clear, the same requests leave one drain running and the new request queued. */
  method ClearDuringRequestKeepingDrain() returns (r: RateLimiterService)
    ensures r.Valid() && r.Serial()
    ensures |r.inFlight| == 1 && |r.queue| == 1
  {
    r := new RateLimiterService();
    var first := r.QueueRequest();
    r.ClearQueueKeepingDrain();
    var second := r.QueueRequest();
  }
}
