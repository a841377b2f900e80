/** Files and sleeps come to their end: how many ticks that takes. */
module Progress {
  import opened Audio
  import opened Fifo
  import opened Commands
  import opened Time
  import opened Playback
  import opened Pacing
  import opened Player

  // ---------------------------------------------------------------- the present file

  /** The turn numbered `i` played out. */
  ghost predicate Over(v: View, i: nat) {
    i < |v.turns| && v.turns[i].end.PlayedOut?
  }

  /** The turn numbered `i` is the last one and has this much of its file left. */
  ghost predicate FileLeft(v: View, i: nat, left: seq<short>) {
    OneGoing(v) && !v.override && |v.turns| == i + 1 && v.part == Some(FilePart(left))
  }

  lemma FilePass(world: World, v: View, i: nat, left: seq<short>)
    requires FileLeft(v, i, left)
    ensures TickOf(world, v).view == Pass(world, v)
    ensures if |left| < FRAME_SAMPLES then OneGoing(Pass(world, v)) && Over(Pass(world, v), i)
      else FileLeft(Pass(world, v), i, left[FRAME_SAMPLES..])
  {
    hide MergeAll;
    SecondPassIsLast(world, v);
    PassFollows(world, v);
    var m := Begun(v);
    MergeOn(world, m);
    StepFollows(world, m);
    var s := Step(world, m);
    if |left| >= FRAME_SAMPLES {
      MergeDone(world, s);
    } else {
      assert s.view.turns[i].end.PlayedOut?;
      StaysOver(world, s, i);
    }
  }

  /** A turn that has ended stays as it is. */
  lemma StaysOver(world: World, m: Mix, i: nat)
    requires OneGoing(m.view) && Over(m.view, i)
    ensures OneGoing(MergeAll(world, m).view) && Over(MergeAll(world, m).view, i)
  {
    hide OneGoing;
    var kept := (x: Mix) => OneGoing(x.view) && Over(x.view, i);
    forall x: Mix | kept(x) && x.slots > 0 && x.outcome == Merging
      ensures kept(Step(world, x))
    {
      StepFollows(world, x);
    }
    Kept(world, kept, m);
  }

  lemma TickStaysOver(world: World, v: View, i: nat)
    requires OneGoing(v) && Over(v, i)
    ensures OneGoing(TickOf(world, v).view) && Over(TickOf(world, v).view, i)
  {
    hide OneGoing, Pass;
    PassFollows(world, v);
    PassFollows(world, Pass(world, v));
  }

  /** A file with n samples left has been played to its end once n / 160 + 1 more ticks have run,
      whatever waits behind it. */
  lemma {:induction false} FileEnds(world: World, p: Player, outside: seq<Outside>, i: nat, left: seq<short>)
    requires FileLeft(p.view, i, left) || (OneGoing(p.view) && Over(p.view, i))
    ensures var r := PlayAll(world, p, outside);
      |r.ticks| - |p.ticks| > |left| / FRAME_SAMPLES || Over(p.view, i) ==> Over(r.view, i)
    decreases |outside|
  {
    hide TickOf, Pass, Deadline, OneGoing;
    if outside != [] && !p.over {
      var q := PlayTick(world, p, outside[0]);
      if Over(p.view, i) {
        TickStaysOver(world, p.view, i);
        FileEnds(world, q, outside[1..], i, left);
      } else {
        FilePass(world, p.view, i, left);
        var rest := if |left| < FRAME_SAMPLES then left else left[FRAME_SAMPLES..];
        FileEnds(world, q, outside[1..], i, rest);
      }
    }
  }

  // ---------------------------------------------------------------- all that waits

  /** A file, or a sleep that is not negative. */
  predicate Plain(part: Part) {
    part.FilePart? || (part.SleepPart? && part.count >= 0)
  }

  function PartLoad(part: Part): nat
    requires Plain(part)
  {
    if part.FilePart? then |part.samples| else part.count
  }

  ghost predicate PlainWaiting(world: World, waiting: seq<string>, n: nat) {
    forall i :: 0 <= i < |waiting| ==>
      var start := StartOf(world, n + i, waiting[i]);
      start.Begins? ==> Plain(start.part)
  }

  lemma PlainRest(world: World, waiting: seq<string>, n: nat)
    requires PlainWaiting(world, waiting, n) && waiting != []
    ensures PlainWaiting(world, waiting[1..], n + 1)
    ensures var start := StartOf(world, n, waiting[0]); start.Begins? ==> Plain(start.part)
  {
    hide StartOf;
    var rest := waiting[1..];
    assert waiting[0] == waiting[0 + 0];
    forall i | 0 <= i < |rest|
      ensures var start := StartOf(world, n + 1 + i, rest[i]); start.Begins? ==> Plain(start.part)
    {
      assert rest[i] == waiting[i + 1] && n + 1 + i == n + (i + 1);
    }
    assert StartOf(world, n + 0, waiting[0]) == StartOf(world, n, waiting[0]);
  }

  /** The slots that the waiting commands will use, up to one that fails. */
  ghost function WaitingLoad(world: World, waiting: seq<string>, n: nat): nat
    requires PlainWaiting(world, waiting, n)
  {
    if waiting == [] then 0
    else
      PlainRest(world, waiting, n);
      match StartOf(world, n, waiting[0])
      case Begins(part) => PartLoad(part) + WaitingLoad(world, waiting[1..], n + 1)
      case DoneAtOnce => WaitingLoad(world, waiting[1..], n + 1)
      case Fails(_) => 0
  }

  ghost predicate PlainView(world: World, v: View) {
    !v.override && (v.part.Some? ==> Plain(v.part.value)) && PlainWaiting(world, v.waiting, |v.turns|)
  }

  /** The slots that all that plays and waits will use. */
  ghost function Load(world: World, v: View): nat
    requires PlainView(world, v)
  {
    (if v.part.Some? then PartLoad(v.part.value) else 0) + WaitingLoad(world, v.waiting, |v.turns|)
  }

  ghost predicate Done(v: View) {
    v.part.None? && v.waiting == []
  }

  /** Slots used up so far are taken off the load. */
  ghost predicate Progressed(world: World, load: nat, m: Mix) {
    && PlainView(world, m.view) && m.outcome != Stuck
    && (m.outcome == Merging ==> Load(world, m.view) + FRAME_SAMPLES == load + m.slots)
    && (m.outcome != Merging ==> Done(m.view))
  }

  lemma StepProgressed(world: World, load: nat, m: Mix)
    requires Progressed(world, load, m) && m.slots > 0 && m.outcome == Merging
    ensures Progressed(world, load, Step(world, m))
  {
    hide StartOf, StartEvents;
    if m.view.part.Some? {
      var added, slept, end := MergeShape(world, m);
    } else if m.view.waiting != [] {
      PlainRest(world, m.view.waiting, |m.view.turns|);
    }
  }

  /** A pass over files and sleeps finishes them all, or takes a whole frame off their load. */
  lemma PassProgress(world: World, v: View)
    requires PlainView(world, v)
    ensures var w := TickOf(world, v).view;
      PlainView(world, w) && (Done(w) || Load(world, w) + FRAME_SAMPLES == Load(world, v))
  {
    hide Load, MergeAll, PlainWaiting;
    SecondPassIsLast(world, v);
    var load := Load(world, v);
    var kept := (m: Mix) => Progressed(world, load, m);
    forall m: Mix | kept(m) && m.slots > 0 && m.outcome == Merging
      ensures kept(Step(world, m))
    {
      StepProgressed(world, load, m);
    }
    Kept(world, kept, Begun(v));
    AllDone(world, Begun(v));
    LoadOf(world, PassMix(world, v).view, Pass(world, v));
  }

  lemma LoadOf(world: World, v: View, w: View)
    requires PlainView(world, v) && w.part == v.part && w.waiting == v.waiting && |w.turns| == |v.turns|
    requires w.override == v.override
    ensures PlainView(world, w) && Load(world, w) == Load(world, v)
  {
  }

  /** Ticks that run take whole frames off the load of files and sleeps until nothing plays or
      waits: after a 160th of the load, and one more, every command has been taken, or dropped
      behind one that failed. */
  lemma {:induction false} AllPlayed(world: World, p: Player, outside: seq<Outside>)
    requires PlainView(world, p.view)
    ensures var r := PlayAll(world, p, outside);
      && PlainView(world, r.view) && |r.ticks| >= |p.ticks| && (Done(p.view) ==> Done(r.view))
      && (Done(r.view) || Load(world, r.view) + FRAME_SAMPLES * (|r.ticks| - |p.ticks|) == Load(world, p.view))
      && (|r.ticks| - |p.ticks| > Load(world, p.view) / FRAME_SAMPLES ==> Done(r.view))
    decreases |outside|
  {
    hide TickOf, Load, PlainView, Deadline;
    if outside != [] && !p.over {
      var q := PlayTick(world, p, outside[0]);
      PassProgress(world, p.view);
      AllPlayed(world, q, outside[1..]);
      if Done(p.view) {
        DoneLoad(world, p.view);
      }
    }
  }

  lemma DoneLoad(world: World, v: View)
    requires PlainView(world, v) && Done(v)
    ensures Load(world, v) == 0
  {
  }
}
