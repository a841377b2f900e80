/** The player thread's frame loop (stream_layers.c:977-1054, 1108-1118). */
module Player {
  import opened Audio
  import opened Fifo
  import opened Commands
  import opened Playback
  import opened Layers
  import opened Time
  import opened Pacing

  /** What the outside does during one tick: the clock when the wait starts, what the poll
      returns (-1 failure, 0 timeout, 1 the event fd), the clock when the frame is written,
      and whether the channel hangs up. */
  datatype Outside = Outside(waitClock: Option<Timespec>, poll: int, clock: Option<Timespec>, hangup: bool)
  {
    ghost predicate Sound() {
      && -1 <= poll <= 1
      && (waitClock.Some? ==> waitClock.value.Normal() && waitClock.value.sec >= 0)
      && (clock.Some? ==> clock.value.Normal() && clock.value.sec >= 0)
    }
  }

  // ---------------------------------------------------------------- the loop on values

  /** Whether the tick gets to write: there is no deadline, or waiting for it timed out. */
  function WaitResult(deadline: Option<int>, o: Outside): int {
    if deadline.None? then 0
    else if o.waitClock.None? then -1
    else if o.waitClock.value.Nanos() >= deadline.value then 0
    else o.poll
  }

  /** A tick that ran: the layer before it, the deadline it waited for, and the outside. */
  datatype TickLog = TickLog(view: View, deadline: Option<int>, outside: Outside)
  {
    /** The layer was busy, and the wait timed out. */
    predicate Written() {
      view.part.Some? && WaitResult(deadline, outside) == 0
    }
  }

  /** `nows` are the clock readings of the ticks that set a deadline. */
  datatype Player = Player(
    view: View, nows: seq<int>, ticks: seq<TickLog>, written: seq<seq<short>>, ret: int, over: bool)

  function Frame(laid: seq<short>): seq<short> {
    if |laid| <= FRAME_SAMPLES then laid + Silence(FRAME_SAMPLES - |laid|) else laid
  }

  function PlayTick(world: World, p: Player, o: Outside): Player {
    var t, deadline := TickOf(world, p.view), Deadline(p.nows);
    var ret, log := WaitResult(deadline, o), TickLog(p.view, deadline, o);
    if ret != 0 then p.(view := t.view, ticks := p.ticks + [log], ret := ret, over := true)
    else
      Player(
        t.view,
        p.nows + (if o.clock.Some? then [o.clock.value.Nanos()] else []),
        p.ticks + [log],
        p.written + (if log.Written() then [Frame(t.laid)] else []),
        0,
        o.hangup)
  }

  /** The ticks run until one does not write or the channel hangs up. */
  function PlayAll(world: World, p: Player, outside: seq<Outside>): Player
    decreases |outside|
  {
    if outside == [] || p.over then p else PlayAll(world, PlayTick(world, p, outside[0]), outside[1..])
  }

  /** Every tick that runs comes to an end and stays within its frame. */
  ghost predicate AllComplete(world: World, p: Player, outside: seq<Outside>)
    decreases |outside|
  {
    outside == [] || p.over ||
    (TickCompletes(world, p.view) && AllComplete(world, PlayTick(world, p, outside[0]), outside[1..]))
  }

  /** What plays and waits fits, so every tick completes. */
  lemma {:induction false} FittingCompletes(world: World, p: Player, outside: seq<Outside>)
    requires Fitting(world, p.view)
    ensures AllComplete(world, p, outside) && Fitting(world, PlayAll(world, p, outside).view)
    decreases |outside|
  {
    hide TickOf, Fitting, Deadline, TickCompletes;
    if outside != [] && !p.over {
      TickFitting(world, p.view);
      FittingCompletes(world, PlayTick(world, p, outside[0]), outside[1..]);
    }
  }

  // ---------------------------------------------------------------- the loop in place

  class Channel {
    var written: seq<seq<short>>

    constructor ()
      ensures written == []
    {
      written := [];
    }

    method Write(frame: array<short>)
      modifies this
      ensures written == old(written) + [frame[..]]
    {
      written := written + [frame[..]];
    }
  }

  method WaitForDeadline(deadline: Timespec, waitClock: Option<Timespec>, poll: int) returns (ret: int)
    requires deadline.Normal()
    requires waitClock.Some? ==> waitClock.value.Normal()
    ensures ret ==
      if waitClock.None? then -1 else if waitClock.value.Nanos() >= deadline.Nanos() then 0 else poll
  {
    if waitClock.None? {
      return -1;
    }
    var timeout := TimeoutUntil(deadline, waitClock.value);
    return if timeout.None? then 0 else poll;
  }

  /** Steps 3 to 5 of a tick: wait for the deadline, write the frame, set the next deadline. */
  method FinishTick(state: StreamState, channel: Channel, frame: array<short>, busyBefore: bool, o: Outside)
    returns (ret: int)
    requires state.Valid() && o.Sound()
    modifies state, channel
    ensures state.Valid()
    ensures ret == WaitResult(old(DeadlineOf(state.nextFrameTime)), o)
    ensures channel.written == old(channel.written) + if ret == 0 && busyBefore then [frame[..]] else []
    ensures DeadlineOf(state.nextFrameTime) ==
      if ret == 0 && o.clock.Some? then
        Some(NextDeadline(old(DeadlineOf(state.nextFrameTime)), o.clock.value.Nanos()))
      else old(DeadlineOf(state.nextFrameTime))
  {
    hide NextDeadline;
    ret := 0;
    assert channel.written + [] == channel.written;
    if state.nextFrameTime.sec != -1 {
      ret := WaitForDeadline(state.nextFrameTime, o.waitClock, o.poll);
      if ret != 0 {
        return;
      }
    }
    if busyBefore {
      channel.Write(frame);
    }
    state.UpdateNextFrameTime(o.clock);
  }

  /** The objects are where `p` says. */
  ghost predicate Mirrors(p: Player, layer: StreamLayer, state: StreamState, channel: Channel)
    reads layer, layer.jobs`chain, layer.SourceRepr(), state, channel
  {
    && layer.View() == p.view && DeadlineOf(state.nextFrameTime) == Deadline(p.nows)
    && channel.written == p.written
  }

  /** stream_layer_stream_merged_frame. All samples mixed go into the frame; the frame is
      written exactly when the wait timed out and the layer was busy before the tick, and is
      thrown away otherwise. */
  method StreamMergedFrame(layer: StreamLayer, state: StreamState, channel: Channel, o: Outside, ghost p: Player)
    returns (ret: int, ghost p': Player)
    requires layer.Valid() && state.Valid() && o.Sound() && TickCompletes(layer.world, p.view)
    requires state !in layer.Repr && channel !in layer.Repr && Mirrors(p, layer, state, channel)
    modifies layer.Repr, state, channel
    ensures layer.Valid() && fresh(layer.Repr - old(layer.Repr)) && state.Valid()
    ensures p' == PlayTick(layer.world, p, o) && Mirrors(p', layer, state, channel) && ret == p'.ret
  {
    hide StreamLayer.Consistent, StreamLayer.View, NextDeadline, Deadline, DeadlineOf, TickOf, TickCompletes;
    layer.SourceView();
    var frame, busyBefore, busyAfter, passes := layer.MixTick();
    ret := FinishTick(state, channel, frame, busyBefore, o);
    p' := PlayTick(layer.world, p, o);
    if ret == 0 && o.clock.Some? {
      DeadlineAdded(p.nows, o.clock.value.Nanos());
    } else {
      assert p.nows + [] == p.nows;
    }
  }

  /** stream_layers: the ticks run until one does not write or the channel hangs up, or as far
      as `outside` reaches. */
  method StreamLayers(layer: StreamLayer, state: StreamState, channel: Channel, outside: seq<Outside>, ghost p: Player)
    returns (ret: int, ghost p': Player)
    requires layer.Valid() && state.Valid() && forall i :: 0 <= i < |outside| ==> outside[i].Sound()
    requires state !in layer.Repr && channel !in layer.Repr && Mirrors(p, layer, state, channel)
    requires !p.over && p.ret == 0 && AllComplete(layer.world, p, outside)
    modifies layer.Repr, state, channel
    ensures layer.Valid() && fresh(layer.Repr - old(layer.Repr)) && state.Valid()
    ensures p' == PlayAll(layer.world, p, outside) && Mirrors(p', layer, state, channel) && ret == p'.ret
  {
    hide StreamLayer.Valid, StreamLayer.View, Mirrors, PlayTick, TickCompletes;
    ret, p' := 0, p;
    for i := 0 to |outside|
      invariant layer.Valid() && fresh(layer.Repr - old(layer.Repr)) && state.Valid()
      invariant state !in layer.Repr && channel !in layer.Repr && Mirrors(p', layer, state, channel)
      invariant PlayAll(layer.world, p, outside) == PlayAll(layer.world, p', outside[i..])
      invariant !p'.over && ret == p'.ret == 0 && AllComplete(layer.world, p', outside[i..])
    {
      ghost var before := p';
      ret, p' := StreamMergedFrame(layer, state, channel, outside[i], p');
      assert outside[i..][1..] == outside[i + 1..];
      OverWhen(layer.world, before, outside[i]);
      if ret != 0 {
        return;
      }
      if outside[i].hangup {
        return;
      }
    }
  }

  lemma OverWhen(world: World, p: Player, o: Outside)
    ensures var q := PlayTick(world, p, o); q.over == (q.ret != 0 || o.hangup)
  {
    hide TickOf, Deadline;
  }

  lemma DeadlineAdded(nows: seq<int>, now: int)
    ensures Deadline(nows + [now]) == Some(NextDeadline(Deadline(nows), now))
  {
    assert (nows + [now])[..|nows|] == nows;
  }
}
