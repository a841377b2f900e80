/** What holds of every run of the frame loop. */
module PlayerRuns {
  import opened Audio
  import opened Fifo
  import opened Sources
  import opened Commands
  import opened Time
  import opened Pacing
  import opened Playback
  import opened Endings
  import opened Ticks
  import opened Player

  function LaidBy(world: World, log: TickLog): seq<short> {
    TickOf(world, log.view).laid
  }

  /** All samples mixed in some ticks. */
  function Mixed(world: World, ticks: seq<TickLog>): seq<short> {
    if ticks == [] then [] else Mixed(world, ticks[..|ticks| - 1]) + LaidBy(world, ticks[|ticks| - 1])
  }

  /** Those of the ticks that were written. */
  function Heard(world: World, ticks: seq<TickLog>): seq<short> {
    if ticks == [] then []
    else
      var last := ticks[|ticks| - 1];
      Heard(world, ticks[..|ticks| - 1]) + if last.Written() then LaidBy(world, last) else []
  }

  /** The frames that carry them. */
  function Frames(world: World, ticks: seq<TickLog>): seq<seq<short>> {
    if ticks == [] then []
    else
      var last := ticks[|ticks| - 1];
      Frames(world, ticks[..|ticks| - 1]) + if last.Written() then [Frame(LaidBy(world, last))] else []
  }

  lemma TickAdded(world: World, ticks: seq<TickLog>, log: TickLog)
    ensures Mixed(world, ticks + [log]) == Mixed(world, ticks) + LaidBy(world, log)
    ensures Heard(world, ticks + [log]) == Heard(world, ticks) + if log.Written() then LaidBy(world, log) else []
    ensures Frames(world, ticks + [log])
         == Frames(world, ticks) + if log.Written() then [Frame(LaidBy(world, log))] else []
  {
    hide TickOf;
    assert (ticks + [log])[..|ticks|] == ticks;
  }

  /** What a tick adds to a run. */
  lemma TickParts(world: World, p: Player, o: Outside) returns (log: TickLog)
    ensures var q, t := PlayTick(world, p, o), TickOf(world, p.view);
      && log == TickLog(p.view, Deadline(p.nows), o) && LaidBy(world, log) == t.laid
      && q.view == t.view && q.ticks == p.ticks + [log]
      && q.written == p.written + if log.Written() then [Frame(LaidBy(world, log))] else []
  {
    hide TickOf, Deadline, WaitResult;
    log := TickLog(p.view, Deadline(p.nows), o);
    assert p.written + [] == p.written;
  }

  /** What every tick keeps holds of the whole run. */
  lemma {:induction false} KeptByTicks(world: World, kept: Player -> bool, p: Player, outside: seq<Outside>)
    requires kept(p)
    requires forall q: Player, o: Outside {:trigger PlayTick(world, q, o)} :: kept(q) ==> kept(PlayTick(world, q, o))
    ensures kept(PlayAll(world, p, outside))
    decreases |outside|
  {
    hide PlayTick;
    if outside != [] && !p.over {
      KeptByTicks(world, kept, PlayTick(world, p, outside[0]), outside[1..]);
    }
  }

  ghost predicate AllHealthy(world: World, ticks: seq<TickLog>) {
    forall i :: 0 <= i < |ticks| ==> Healthy(world, ticks[i].view)
  }

  /** How far a run from `v` has come: what it mixed is what the turns grew by, what it wrote are
      the frames of the written ticks, and its history continues the one before. */
  ghost predicate Came(world: World, v: View, written: seq<seq<short>>, q: Player) {
    && Healthy(world, q.view) && AllHealthy(world, q.ticks)
    && q.written == written + Frames(world, q.ticks)
    && if q.ticks == [] then q.view == v
       else Advances(v, q.view, Mixed(world, q.ticks), v.override && v.part.Some?) && !q.view.override
  }

  lemma TickCame(world: World, v: View, written: seq<seq<short>>, q: Player, o: Outside)
    requires Came(world, v, written, q)
    ensures Came(world, v, written, PlayTick(world, q, o))
  {
    hide Healthy, Advances, TickOf, PlayTick, Deadline, LaidBy, TickLog.Written, Mixed, Frames;
    TickHealthy(world, q.view);
    var log := TickParts(world, q, o);
    TickAdded(world, q.ticks, log);
    Join(written, Frames(world, q.ticks), if log.Written() then [Frame(LaidBy(world, log))] else []);
    if q.ticks == [] {
      assert Mixed(world, [] + [log]) == LaidBy(world, log) by { MixedNothing(world, log); }
    } else {
      var cut := v.override && v.part.Some?;
      AdvancesMore(v, q.view, TickOf(world, q.view).view, Mixed(world, q.ticks), LaidBy(world, log), cut);
    }
  }

  lemma NoneMixed(world: World)
    ensures Mixed(world, []) == []
  {
  }

  lemma MixedNothing(world: World, log: TickLog)
    ensures Mixed(world, [] + [log]) == LaidBy(world, log)
  {
    hide TickOf, LaidBy, Mixed;
    TickAdded(world, [], log);
    NoneMixed(world);
    assert [] + LaidBy(world, log) == LaidBy(world, log);
  }

  /** In every run of the loop: what is mixed is, in order, what the turns of the commands taken
      grew by; each turn is faithful to what its command offers; only an override that was
      pending at the start cuts a source off; and the frames written are those of the ticks that
      were busy and timed out. */
  lemma RunAdvances(world: World, p: Player, outside: seq<Outside>)
    requires Healthy(world, p.view) && p.ticks == []
    ensures Came(world, p.view, p.written, PlayAll(world, p, outside))
  {
    hide PlayTick;
    var kept := (q: Player) => Came(world, p.view, p.written, q);
    forall q: Player, o: Outside {:trigger PlayTick(world, q, o)} | kept(q)
      ensures kept(PlayTick(world, q, o))
    {
      TickCame(world, p.view, p.written, q, o);
    }
    assert p.written + [] == p.written;
    KeptByTicks(world, kept, p, outside);
  }

  // ---------------------------------------------------------------- what is heard

  lemma {:induction false} HeardIsLess(world: World, ticks: seq<TickLog>)
    ensures |Heard(world, ticks)| <= |Mixed(world, ticks)|
  {
    hide TickOf;
    if ticks != [] {
      HeardIsLess(world, ticks[..|ticks| - 1]);
    }
  }

  /** A tick loses nothing if it is written or lays nothing. */
  ghost predicate Keeps(world: World, log: TickLog) {
    log.Written() || QuietTick(world, log.view)
  }

  lemma SameEnd(a: seq<short>, b: seq<short>, end: seq<short>)
    ensures a + end == b + end <==> a == b
    ensures |a| <= |b| && end != [] ==> a != b + end
  {
    if a + end == b + end {
      assert (a + end)[..|a|] == a && (b + end)[..|b|] == b;
    }
  }

  lemma LaysNothingIff(world: World, log: TickLog)
    requires Healthy(world, log.view)
    ensures LaidBy(world, log) == [] <==> QuietTick(world, log.view)
  {
    hide TickOf, QuietTick, Healthy;
    HealthyHas(world, log.view);
    QuietTickIff(world, log.view);
  }

  lemma {:induction false} HeardIff(world: World, ticks: seq<TickLog>)
    requires AllHealthy(world, ticks)
    ensures Heard(world, ticks) == Mixed(world, ticks) <==> forall i :: 0 <= i < |ticks| ==> Keeps(world, ticks[i])
  {
    hide TickOf, QuietTick, Healthy, TickLog.Written, LaidBy;
    if ticks != [] {
      var before, last := ticks[..|ticks| - 1], ticks[|ticks| - 1];
      assert AllHealthy(world, before);
      HeardIsLess(world, before);
      HeardIff(world, before);
      LaysNothingIff(world, last);
      assert forall i :: 0 <= i < |before| ==> before[i] == ticks[i];
      SameEnd(Heard(world, before), Mixed(world, before), LaidBy(world, last));
      assert Keeps(world, last) ==> Heard(world, ticks) == Heard(world, before) + LaidBy(world, last);
    }
  }

  /** All that a run mixes is heard exactly when every tick that ran found the layer busy and
      timed out, or found nothing that has a sample to mix. */
  lemma NothingLostIff(world: World, p: Player, outside: seq<Outside>)
    requires Healthy(world, p.view) && p.ticks == []
    ensures var ticks := PlayAll(world, p, outside).ticks;
      Heard(world, ticks) == Mixed(world, ticks) <==>
        forall i :: 0 <= i < |ticks| ==>
          || (ticks[i].view.part.Some? && WaitResult(ticks[i].deadline, ticks[i].outside) == 0)
          || QuietTick(world, ticks[i].view)
  {
    hide PlayAll, TickOf, QuietTick, Healthy;
    RunAdvances(world, p, outside);
    HeardIff(world, PlayAll(world, p, outside).ticks);
  }

  /** An idle layer that is given a file to play mixes the start of it at once. */
  lemma IdleMixesStart(world: World, v: View, samples: seq<short>)
    requires v.part.None? && v.waiting != []
    requires StartOf(world, |v.turns|, v.waiting[0]) == Begins(FilePart(samples))
    ensures samples[..if |samples| < FRAME_SAMPLES then |samples| else FRAME_SAMPLES] <= TickOf(world, v).laid
  {
    hide MergeAll, StartOf, StartEvents;
    SecondPassIsLast(world, v);
    var m := Begun(v);
    MergeOn(world, m);
    StepTakes(world, m);
    var taken := Step(world, m);
    MergeOn(world, taken);
    LaidContinues(world, Step(world, taken));
    var k := if |samples| < FRAME_SAMPLES then |samples| else FRAME_SAMPLES;
    assert samples[..k] == samples || |samples| >= FRAME_SAMPLES;
    assert Step(world, taken).laid == [] + samples[..k];
  }

  /** The first frame of a file that an idle layer plays is never heard: every run that begins
      with an idle layer and a `play` loses at least the first 160 samples, or all of fewer. */
  lemma IdlePlayLosesStart(world: World, p: Player, outside: seq<Outside>, samples: seq<short>)
    requires Healthy(world, p.view) && p.ticks == [] && !p.over && outside != []
    requires p.view.part.None? && p.view.waiting != [] && samples != []
    requires StartOf(world, |p.view.turns|, p.view.waiting[0]) == Begins(FilePart(samples))
    ensures var ticks := PlayAll(world, p, outside).ticks;
      && Heard(world, ticks) != Mixed(world, ticks) && ticks != [] && !ticks[0].Written()
      && samples[..if |samples| < FRAME_SAMPLES then |samples| else FRAME_SAMPLES] <= LaidBy(world, ticks[0])
  {
    hide TickOf, Healthy, StartOf, QuietTick, Deadline;
    IdleMixesStart(world, p.view, samples);
    NothingLostIff(world, p, outside);
    var first := PlayTick(world, p, outside[0]);
    TicksGrow(world, first, outside[1..]);
    var ticks := PlayAll(world, p, outside).ticks;
    assert ticks[0] == first.ticks[0] && ticks[0].view == p.view;
    HealthyHas(world, p.view);
    QuietTickIff(world, p.view);
  }

  /** At real texts: with a printed `play` of an existing file in front. */
  lemma PlayedFileLosesStart(
      world: World, p: Player, outside: seq<Outside>, filename: string, frames: seq<VoiceFrame>)
    requires Healthy(world, p.view) && p.ticks == [] && !p.over && outside != []
    requires p.view.part.None? && p.view.waiting != [] && p.view.waiting[0] == "play,," + filename
    requires world.file(|p.view.turns|, filename) == Some(frames) && world.codec.DecodeAll(frames) != []
    ensures var ticks, samples := PlayAll(world, p, outside).ticks, world.codec.DecodeAll(frames);
      && Heard(world, ticks) != Mixed(world, ticks) && ticks != [] && !ticks[0].Written()
      && samples[..if |samples| < FRAME_SAMPLES then |samples| else FRAME_SAMPLES] <= LaidBy(world, ticks[0])
  {
    hide Healthy, PlayAll, Codec.DecodeAll, Heard, Mixed, LaidBy, TickLog.Written, StartOf;
    PlayStarts(world, |p.view.turns|, filename);
    IdlePlayLosesStart(world, p, outside, world.codec.DecodeAll(frames));
  }

  lemma TicksGrow(world: World, p: Player, outside: seq<Outside>)
    ensures p.ticks <= PlayAll(world, p, outside).ticks
  {
    var kept := (q: Player) => p.ticks <= q.ticks;
    forall q: Player, o: Outside {:trigger PlayTick(world, q, o)} | kept(q)
      ensures kept(PlayTick(world, q, o))
    {
    }
    KeptByTicks(world, kept, p, outside);
  }

  // ---------------------------------------------------------------- Finished events

  ghost predicate FinishCame(world: World, v: View, q: Player) {
    && Healthy(world, q.view)
    && var finishes, ends := Finishes(q.view.events) - Finishes(v.events), Ends(q.view.turns) - Ends(v.turns);
       && finishes <= ends
       && (finishes == ends <==> forall i :: 0 <= i < |q.ticks| ==> OwnFinishedInTick(world, q.ticks[i].view))
  }

  lemma TickFinishCame(world: World, v: View, q: Player, o: Outside)
    requires FinishCame(world, v, q)
    ensures FinishCame(world, v, PlayTick(world, q, o))
  {
    hide Healthy, TickOf, OwnFinishedInTick, Finishes, Ends, Deadline;
    TickHealthy(world, q.view);
    TickFinishedIff(world, q.view);
    var ticks := PlayTick(world, q, o).ticks;
    assert ticks[..|q.ticks|] == q.ticks && ticks[|q.ticks|].view == q.view && |ticks| == |q.ticks| + 1;
    assert forall i :: 0 <= i < |q.ticks| ==> ticks[i] == q.ticks[i];
  }

  /** Over a run there are as many Finished events as sources that ended exactly when every tick
      found a layer that starts no source that ends at once, and none behind one that ends. */
  lemma RunFinishedIff(world: World, p: Player, outside: seq<Outside>)
    requires Healthy(world, p.view) && p.ticks == []
    ensures var r := PlayAll(world, p, outside);
      var finishes := Finishes(r.view.events) - Finishes(p.view.events);
      var ends := Ends(r.view.turns) - Ends(p.view.turns);
      && finishes <= ends
      && (finishes == ends <==> forall i :: 0 <= i < |r.ticks| ==> OwnFinishedInTick(world, r.ticks[i].view))
  {
    hide Healthy, PlayTick, OwnFinishedInTick, Finishes, Ends;
    var kept := (q: Player) => FinishCame(world, p.view, q);
    forall q: Player, o: Outside {:trigger PlayTick(world, q, o)} | kept(q)
      ensures kept(PlayTick(world, q, o))
    {
      TickFinishCame(world, p.view, q, o);
    }
    KeptByTicks(world, kept, p, outside);
  }

  // ---------------------------------------------------------------- pacing

  function Latest(last: int, reading: Option<Timespec>): int {
    if reading.Some? && reading.value.Nanos() > last then reading.value.Nanos() else last
  }

  /** The latest reading after the ticks. */
  function LastReading(world: World, p: Player, outside: seq<Outside>, last: int): int
    decreases |outside|
  {
    if outside == [] || p.over then last
    else
      var o := outside[0];
      LastReading(world, PlayTick(world, p, o), outside[1..], Latest(Latest(last, o.waitClock), o.clock))
  }

  /** The clock does not run backwards (`last` is the latest reading so far), and a poll that
      timed out has reached the deadline it waited for. */
  ghost predicate Timely(world: World, p: Player, outside: seq<Outside>, last: int)
    decreases |outside|
  {
    outside == [] || p.over ||
    var o := outside[0];
    && (o.waitClock.Some? ==> last <= o.waitClock.value.Nanos())
    && (o.clock.Some? ==>
          && Latest(last, o.waitClock) <= o.clock.value.Nanos()
          && (o.poll == 0 && Deadline(p.nows).Some? ==> Deadline(p.nows).value <= o.clock.value.Nanos()))
    && Timely(world, PlayTick(world, p, o), outside[1..], Latest(Latest(last, o.waitClock), o.clock))
  }

  lemma {:induction false} RunWaits(world: World, p: Player, outside: seq<Outside>, last: int)
    requires Timely(world, p, outside, last) && Waits(p.nows)
    requires p.nows != [] ==> p.nows[|p.nows| - 1] <= last
    ensures var nows := PlayAll(world, p, outside).nows;
      Waits(nows) && (nows != [] ==> nows[|nows| - 1] <= LastReading(world, p, outside, last))
    decreases |outside|
  {
    hide TickOf, Deadline, Waits;
    if outside != [] && !p.over {
      var o := outside[0];
      var q := PlayTick(world, p, o);
      if q.nows != p.nows {
        WaitsMore(p.nows, o.clock.value.Nanos());
      }
      RunWaits(world, q, outside[1..], Latest(Latest(last, o.waitClock), o.clock));
    }
  }

  lemma NoWaits()
    ensures Waits([])
  {
  }

  lemma WaitsMore(nows: seq<int>, now: int)
    requires Waits(nows)
    requires nows != [] ==> nows[|nows| - 1] <= now && Deadline(nows).value <= now
    ensures Waits(nows + [now])
  {
    hide Deadline;
    forall k | 0 < k < |nows + [now]|
      ensures Deadline((nows + [now])[..k]).value <= (nows + [now])[k]
    {
      ReachedMore(nows, now, k);
    }
    InOrderMore(nows, now);
  }

  lemma ReachedMore(nows: seq<int>, now: int, k: nat)
    requires 0 < k <= |nows| && Deadline(nows).value <= now
    requires k < |nows| ==> Deadline(nows[..k]).value <= nows[k]
    ensures Deadline((nows + [now])[..k]).value <= (nows + [now])[k]
  {
    hide Deadline;
    assert (nows + [now])[..k] == nows[..k];
    assert nows[..|nows|] == nows;
  }

  lemma InOrderMore(nows: seq<int>, now: int)
    requires forall i, j :: 0 <= i < j < |nows| ==> nows[i] <= nows[j]
    requires nows != [] ==> nows[|nows| - 1] <= now
    ensures forall i, j :: 0 <= i < j < |nows + [now]| ==> (nows + [now])[i] <= (nows + [now])[j]
  {
  }

  /** In every run of the loop with such a clock the deadlines are as they should be. */
  lemma RunPaced(world: World, p: Player, outside: seq<Outside>, last: int)
    requires Timely(world, p, outside, last) && p.nows == []
    ensures Paced(PlayAll(world, p, outside).nows)
  {
    hide PlayAll, Timely, Waits, Paced;
    NoWaits();
    RunWaits(world, p, outside, last);
    WaitsPaced(PlayAll(world, p, outside).nows);
  }

  // ---------------------------------------------------------------- which ticks run, and how they end

  /** The event fd was readable before the deadline. */
  ghost predicate EventRead(log: TickLog) {
    && log.deadline.Some? && log.outside.waitClock.Some?
    && log.outside.waitClock.value.Nanos() < log.deadline.value && log.outside.poll == 1
  }

  /** The clock could not be read, or the poll failed. */
  ghost predicate WaitFailed(log: TickLog) {
    && log.deadline.Some?
    && (log.outside.waitClock.None? ||
        (log.outside.waitClock.value.Nanos() < log.deadline.value && log.outside.poll == -1))
  }

  /** There was nothing to wait for, or the deadline had passed, or the poll timed out. */
  ghost predicate TimedOut(log: TickLog) {
    log.deadline.None? ||
    (log.outside.waitClock.Some? &&
     (log.outside.waitClock.value.Nanos() >= log.deadline.value || log.outside.poll == 0))
  }

  /** One tick: it is logged with the layer before it and what the outside did; the loop goes on
      exactly if the wait timed out and the channel did not hang up. */
  lemma TickIs(world: World, p: Player, o: Outside)
    ensures var q, log := PlayTick(world, p, o), TickLog(p.view, Deadline(p.nows), o);
      && q.ticks == p.ticks + [log] && q.view == TickOf(world, p.view).view
      && (q.ret == 1 <==> EventRead(log)) && (q.ret == -1 <==> WaitFailed(log))
      && (q.ret == 0 <==> TimedOut(log)) && q.over == (!TimedOut(log) || o.hangup)
      && q.nows == p.nows + (if TimedOut(log) && o.clock.Some? then [o.clock.value.Nanos()] else [])
      && q.written ==
           p.written + if TimedOut(log) && p.view.part.Some? then [Frame(TickOf(world, p.view).laid)] else []
  {
    hide TickOf, Deadline;
    assert p.nows + [] == p.nows && p.written + [] == p.written;
  }

  /** How the run from `p` came to `r` over the first `k` of `outside`. */
  ghost predicate Ran(world: World, p: Player, outside: seq<Outside>, r: Player, k: nat) {
    && k <= |outside| && |r.ticks| == |p.ticks| + k && p.ticks <= r.ticks
    && (forall i :: |p.ticks| <= i < |r.ticks| ==> r.ticks[i].outside == outside[i - |p.ticks|])
    && (forall i :: |p.ticks| <= i < |r.ticks| - 1 ==> TimedOut(r.ticks[i]) && !r.ticks[i].outside.hangup)
    && (k < |outside| ==> r.over)
    && if k == 0 then r == p
       else
         var last := r.ticks[|r.ticks| - 1];
         && r.view == TickOf(world, last.view).view && r.ticks[|p.ticks|].view == p.view
         && (r.ret == 1 <==> EventRead(last)) && (r.ret == -1 <==> WaitFailed(last))
         && r.over == (!TimedOut(last) || last.outside.hangup)
  }

  /** The ticks that run are the first of `outside`, up to one whose wait does not time out or
      with which the channel hangs up; the loop returns 1 exactly if that one read the event fd
      and -1 exactly if its wait failed. */
  lemma {:induction false} RunIs(world: World, p: Player, outside: seq<Outside>) returns (k: nat)
    requires !p.over
    ensures Ran(world, p, outside, PlayAll(world, p, outside), k) && (outside != [] ==> k > 0)
    decreases |outside|
  {
    hide TickOf, PlayTick, EventRead, WaitFailed, TimedOut;
    k := 0;
    if outside != [] {
      var q, rest := PlayTick(world, p, outside[0]), outside[1..];
      TickIs(world, p, outside[0]);
      k := 1;
      if !q.over && rest != [] {
        var l := RunIs(world, q, rest);
        k := l + 1;
        RanOneMore(world, p, outside, PlayAll(world, p, outside), l);
      }
    }
  }

  lemma RanOneMore(world: World, p: Player, outside: seq<Outside>, r: Player, l: nat)
    requires !p.over && outside != [] && l > 0
    requires var q := PlayTick(world, p, outside[0]); !q.over && Ran(world, q, outside[1..], r, l)
    ensures Ran(world, p, outside, r, l + 1)
  {
    hide TickOf, PlayTick, EventRead, WaitFailed, TimedOut;
    TickIs(world, p, outside[0]);
    var q, n := PlayTick(world, p, outside[0]), |p.ticks|;
    assert r.ticks[n] == q.ticks[n];
    forall i | n <= i < |r.ticks|
      ensures r.ticks[i].outside == outside[i - n]
    {
      if i > n {
        assert r.ticks[i].outside == outside[1..][i - |q.ticks|];
      }
    }
  }

  // ---------------------------------------------------------------- commands are taken

  ghost predicate TakesOn(v: View, w: View) {
    CommandsOf(v.turns) <= CommandsOf(w.turns)
  }

  lemma TickTakesOn(world: World, v: View)
    ensures TakesOn(v, TickOf(world, v).view)
  {
    hide Pass, PassMix, CommandsOf;
    PassConsumes(world, v);
    PassConsumes(world, Pass(world, v));
  }

  /** No command taken is forgotten. */
  lemma RunTakesOn(world: World, p: Player, outside: seq<Outside>)
    ensures TakesOn(p.view, PlayAll(world, p, outside).view)
  {
    hide PlayTick, CommandsOf, TickOf;
    var kept := (q: Player) => TakesOn(p.view, q.view);
    forall q: Player, o: Outside {:trigger PlayTick(world, q, o)} | kept(q)
      ensures kept(PlayTick(world, q, o))
    {
      TickIs(world, q, o);
      TickTakesOn(world, q.view);
    }
    KeptByTicks(world, kept, p, outside);
  }

  /** A layer that is idle, or whose source is to be cut off, takes the next command waiting in
      its next tick. */
  lemma TickTakesNext(world: World, v: View)
    requires (v.override || v.part.None?) && v.waiting != []
    ensures CommandsOf(v.turns) + [v.waiting[0]] <= CommandsOf(TickOf(world, v).view.turns)
  {
    hide MergeAll, StartOf, StartEvents, CommandsOf;
    OverrideConsumes(v);
    var m := Begun(v);
    assert m.view.part.None? && m.view.waiting == v.waiting;
    PlayedCommands(v.turns, [], 0, CutOff);
    MergeOn(world, m);
    StepTakes(world, m);
    TakenCommands(world, m.view);
    var s := Step(world, m);
    assert CommandsOf(s.view.turns) == CommandsOf(v.turns) + [v.waiting[0]];
    var kept := (x: Mix) => TakesOn(s.view, x.view);
    forall x: Mix | kept(x) && x.slots > 0 && x.outcome == Merging
      ensures kept(Step(world, x))
    {
      StepConsumes(world, x);
    }
    Kept(world, kept, s);
    PassConsumes(world, Pass(world, v));
  }
}
