/** Frame deadlines (stream_layers.c:306-359): when a tick may write its frame, and how many
    ticks can complete by a given time. */
module Pacing {
  import opened Fifo
  import opened Time

  /** The deadline set at time `now`, in nanoseconds, after the one before. */
  function NextDeadline(previous: Option<int>, now: int): int {
    if previous.None? then AlignedUp(now, FRAME_NANOS)
    else
      var next := previous.value + FRAME_NANOS;
      if next < now then AlignedUp(now, FRAME_NANOS) else next
  }

  /** tv_sec == -1 marks a deadline that was never set. */
  function DeadlineOf(t: Timespec): Option<int> {
    if t.sec == -1 then None else Some(t.Nanos())
  }

  class StreamState {
    var nextFrameTime: Timespec

    predicate Valid()
      reads this
    {
      nextFrameTime.sec == -1 || (nextFrameTime.Normal() && nextFrameTime.sec >= 0)
    }

    constructor ()
      ensures Valid() && DeadlineOf(nextFrameTime) == None
    {
      nextFrameTime := Timespec(-1, 0);
    }

    /** update_next_frame_time; a clock that cannot be read leaves the deadline alone. */
    method UpdateNextFrameTime(clock: Option<Timespec>)
      requires Valid()
      requires clock.Some? ==> clock.value.Normal() && clock.value.sec >= 0
      modifies this
      ensures Valid()
      ensures clock.None? ==> nextFrameTime == old(nextFrameTime)
      ensures clock.Some? ==>
        DeadlineOf(nextFrameTime) == Some(NextDeadline(old(DeadlineOf(nextFrameTime)), clock.value.Nanos()))
    {
      if clock.None? {
        return;
      }
      var now := clock.value;
      if nextFrameTime.sec == -1 {
        nextFrameTime := AlignFrameTime(now, FRAME_NANOS);
        return;
      }
      nextFrameTime := AddSamples(nextFrameTime, FRAME_SAMPLES, RATE, false);
      BeforeIsLess(nextFrameTime, now);
      if Before(nextFrameTime, now) {
        nextFrameTime := AlignFrameTime(now, FRAME_NANOS);
      }
    }
  }

  /** The timeout wait_for_deadline polls with; None when the deadline has passed. */
  method TimeoutUntil(deadline: Timespec, now: Timespec) returns (timeout: Option<Timespec>)
    requires deadline.Normal() && now.Normal()
    ensures timeout.None? <==> now.Nanos() >= deadline.Nanos()
    ensures timeout.Some? ==>
      timeout.value.Normal() && timeout.value.sec >= 0 && now.Nanos() + timeout.value.Nanos() == deadline.Nanos()
  {
    if now.sec > deadline.sec || (now.sec == deadline.sec && now.nsec >= deadline.nsec) {
      return None;
    }
    var t := Timespec(deadline.sec - now.sec, deadline.nsec - now.nsec);
    if t.nsec < 0 {
      t := Timespec(t.sec - 1, t.nsec + SECOND);
    }
    return Some(t);
  }

  // ---------------------------------------------------------------- whole runs

  /** The deadline standing after ticks completed with these clock readings. */
  function Deadline(nows: seq<int>): (r: Option<int>)
    ensures r.Some? <==> nows != []
  {
    if nows == [] then None
    else Some(NextDeadline(Deadline(nows[..|nows| - 1]), nows[|nows| - 1]))
  }

  /** The clock does not run backwards, and a tick completes only once its deadline is reached. */
  ghost predicate Waits(nows: seq<int>) {
    && (forall i, j :: 0 <= i < j < |nows| ==> nows[i] <= nows[j])
    && (forall k :: 0 < k < |nows| ==> Deadline(nows[..k]).value <= nows[k])
  }

  lemma WaitsBefore(nows: seq<int>, k: nat)
    requires Waits(nows) && k <= |nows|
    ensures Waits(nows[..k])
  {
    forall m | 0 < m < k
      ensures Deadline(nows[..k][..m]).value <= nows[..k][m]
    {
      assert nows[..k][..m] == nows[..m];
    }
  }

  lemma NextOnGrid(previous: Option<int>, now: int)
    requires previous.Some? ==> previous.value % FRAME_NANOS == 0
    ensures NextDeadline(previous, now) % FRAME_NANOS == 0
    ensures previous.Some? ==> NextDeadline(previous, now) >= previous.value + FRAME_NANOS
    ensures now <= NextDeadline(previous, now)
    ensures previous.None? || previous.value <= now ==> NextDeadline(previous, now) <= now + FRAME_NANOS
  {
  }

  /** The new deadline is the first grid point that is neither before now nor less than a frame
      after the one before. */
  lemma NextIsLeast(previous: Option<int>, now: int, other: int)
    requires previous.Some? ==> previous.value % FRAME_NANOS == 0
    requires other % FRAME_NANOS == 0 && now <= other
    requires previous.Some? ==> previous.value + FRAME_NANOS <= other
    ensures NextDeadline(previous, now) <= other
  {
    AlignedUpLeast(now, FRAME_NANOS, other);
  }

  /** Every deadline is on the 20 ms grid, at least 20 ms after the one before, not before the
      moment it is set and at most 20 ms after it. */
  lemma {:induction false} DeadlinesOnGrid(nows: seq<int>)
    requires Waits(nows) && nows != []
    ensures Deadline(nows).value % FRAME_NANOS == 0
    ensures nows[|nows| - 1] <= Deadline(nows).value <= nows[|nows| - 1] + FRAME_NANOS
    ensures |nows| > 1 ==> Deadline(nows).value >= Deadline(nows[..|nows| - 1]).value + FRAME_NANOS
  {
    var before := nows[..|nows| - 1];
    if before != [] {
      WaitsBefore(nows, |nows| - 1);
      DeadlinesOnGrid(before);
    }
    NextOnGrid(Deadline(before), nows[|nows| - 1]);
  }

  /** Deadlines lie at least 20 ms apart, so the k-th is at least (k - 1) frames after the first tick. */
  lemma {:induction false} DeadlinesApart(nows: seq<int>)
    requires Waits(nows) && nows != []
    ensures Deadline(nows).value >= nows[0] + (|nows| - 1) * FRAME_NANOS
  {
    DeadlinesOnGrid(nows);
    if |nows| > 1 {
      WaitsBefore(nows, |nows| - 1);
      DeadlinesApart(nows[..|nows| - 1]);
    }
  }

  /** At most (t - t0) / 20 ms + 2 ticks complete by the time t of the last one. */
  lemma TickBound(nows: seq<int>)
    requires Waits(nows) && nows != []
    ensures |nows| <= (nows[|nows| - 1] - nows[0]) / FRAME_NANOS + 2
  {
    if |nows| > 1 {
      WaitsBefore(nows, |nows| - 1);
      DeadlinesApart(nows[..|nows| - 1]);
    }
  }

  /** Every deadline set is on the grid, at least a frame after the one before and at most a frame
      ahead, and by the time t at most (t - t0) / 20 ms + 2 ticks have set one. */
  ghost predicate Paced(nows: seq<int>) {
    && (nows != [] ==> |nows| <= (nows[|nows| - 1] - nows[0]) / FRAME_NANOS + 2)
    && forall k :: 0 < k <= |nows| ==> SetWell(nows, k)
  }

  ghost predicate SetWell(nows: seq<int>, k: nat)
    requires 0 < k <= |nows|
  {
    && Deadline(nows[..k]).value % FRAME_NANOS == 0
    && nows[k - 1] <= Deadline(nows[..k]).value <= nows[k - 1] + FRAME_NANOS
    && (k > 1 ==> Deadline(nows[..k]).value >= Deadline(nows[..k - 1]).value + FRAME_NANOS)
  }

  lemma WaitsPaced(nows: seq<int>)
    requires Waits(nows)
    ensures Paced(nows)
  {
    hide Deadline, Waits;
    if nows != [] {
      TickBound(nows);
    }
    forall k | 0 < k <= |nows|
      ensures SetWell(nows, k)
    {
      WaitsBefore(nows, k);
      DeadlinesOnGrid(nows[..k]);
      assert nows[..k][..k - 1] == nows[..k - 1];
    }
  }
}
