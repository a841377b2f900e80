/** What one tick keeps and does, put together from what Playback and Endings say of its passes. */
module Ticks {
  import opened Audio
  import opened Fifo
  import opened Commands
  import opened Time
  import opened Playback
  import opened Endings

  /** All that holds between ticks. */
  ghost predicate Healthy(world: World, v: View) {
    && Sound(world, v) && Counted(v)
    && Separated(v.events) && (v.part.Some? ==> Open(v.events))
  }

  lemma NothingHealthy(world: World)
    ensures Healthy(world, NOTHING)
  {
  }

  lemma HealthyHas(world: World, v: View)
    requires Healthy(world, v)
    ensures Sound(world, v) && Counted(v) && OneGoing(v)
    ensures Separated(v.events) && (v.part.Some? ==> Open(v.events) && v.turns != [])
  {
  }

  /** How a tick continues the layer's history: commands are taken in order, the samples of the
      turns grow by those laid, only an override cuts a source off, and the log goes on. */
  ghost predicate Advances(v: View, w: View, laid: seq<short>, cut: bool) {
    && (exists dropped :: ViewConsumes(v, w, dropped))
    && AllMixed(w.turns) == AllMixed(v.turns) + laid
    && Follows(v.turns, w.turns, cut)
    && v.events <= w.events
    && Finishes(w.events) - Finishes(v.events) <= Ends(w.turns) - Ends(v.turns)
  }

  lemma AdvancesMore(u: View, v: View, w: View, a: seq<short>, b: seq<short>, cut: bool)
    requires Advances(u, v, a, cut) && Advances(v, w, b, false)
    ensures Advances(u, w, a + b, cut)
  {
    hide Consumes, Follows, AllMixed, Finishes, Ends, CommandsOf;
    var d :| ViewConsumes(u, v, d);
    var e :| ViewConsumes(v, w, e);
    ConsumesMore(CommandsOf(u.turns), CommandsOf(v.turns), CommandsOf(w.turns),
      u.waiting, v.waiting, w.waiting, d, e);
    assert ViewConsumes(u, w, d || e);
    FollowsMore(u.turns, v.turns, w.turns, cut);
    Join(AllMixed(u.turns), a, b);
  }

  lemma PassHealthy(world: World, v: View)
    requires Healthy(world, v)
    ensures Healthy(world, Pass(world, v))
    ensures Advances(v, Pass(world, v), PassMix(world, v).laid, v.override && v.part.Some?)
    ensures !Pass(world, v).override
  {
    hide Sound, Counted, Separated, Open, Follows, AllMixed, Finishes, Ends, ViewConsumes,
      OneGoing, MergeAll;
    HealthyHas(world, v);
    PassSound(world, v);
    PassConsumes(world, v);
    PassLaid(world, v);
    PassFollows(world, v);
    PassLogged(world, v);
    FinishedIff(world, v);
    PassOverride(world, v);
  }

  lemma PassOverride(world: World, v: View)
    ensures !Pass(world, v).override
  {
    var kept := (m: Mix) => !m.view.override;
    forall m: Mix | kept(m) && m.slots > 0 && m.outcome == Merging
      ensures kept(Step(world, m))
    {
      if m.view.part.Some? {
        var added, slept, end := MergeShape(world, m);
      } else {
        StepTakes(world, m);
      }
    }
    Kept(world, kept, Begun(v));
  }

  /** Every tick keeps a layer healthy and continues its history by exactly what it lays. */
  lemma TickHealthy(world: World, v: View)
    requires Healthy(world, v)
    ensures var t := TickOf(world, v);
      && Healthy(world, t.view)
      && Advances(v, t.view, t.laid, v.override && v.part.Some?)
      && !t.view.override && (t.view.part.None? ==> t.view.waiting == [])
  {
    hide Healthy, Advances, Pass, PassMix;
    PassHealthy(world, v);
    SecondPassIsLast(world, v);
    var first := Pass(world, v);
    if Again(first) {
      PassHealthy(world, first);
      AdvancesMore(v, first, Pass(world, first), [], PassMix(world, first).laid, v.override && v.part.Some?);
      assert [] + PassMix(world, first).laid == PassMix(world, first).laid;
    }
  }

  /** Whether each source that ends in the next tick will have its own Finished event: in the
      first pass, and in the second one, which starts from an idle layer. */
  ghost predicate OwnFinishedInTick(world: World, v: View) {
    && OwnFinished(world, v)
    && (v.part.Some? && !v.override && FateOf(v.part.value, FRAME_SAMPLES).TakesAll? ==>
          OwnFinished(world, v.(part := None)))
  }

  lemma SecondPassOwn(world: World, v: View)
    requires Again(Pass(world, v)) && Counted(v)
    ensures OwnFinished(world, Pass(world, v)) == OwnFinished(world, v.(part := None))
  {
    hide PassMix, FateOf, FirstPart, Counted;
    SecondPassIsLast(world, v);
    PassTurns(world, v);
  }

  lemma NoneToStart(world: World, v: View)
    requires v.part.None?
    ensures v.waiting == [] ==> OwnFinished(world, v)
  {
  }

  /** In a tick as many Finished events are published as sources end exactly when the layer
      before it meets OwnFinishedInTick; otherwise there are fewer. */
  lemma TickFinishedIff(world: World, v: View)
    requires Healthy(world, v)
    ensures var w := TickOf(world, v).view;
      && Finishes(w.events) - Finishes(v.events) <= Ends(w.turns) - Ends(v.turns)
      && (Finishes(w.events) - Finishes(v.events) == Ends(w.turns) - Ends(v.turns) <==> OwnFinishedInTick(world, v))
  {
    hide Healthy, Pass, OwnFinished, Counted, Separated, Open, Finishes, Ends, FateOf, OneGoing;
    HealthyHas(world, v);
    FinishedIff(world, v);
    AgainIff(world, v);
    var first := Pass(world, v);
    if Again(first) {
      PassHealthy(world, v);
      HealthyHas(world, first);
      FinishedIff(world, first);
      SecondPassOwn(world, v);
    }
    NoneToStart(world, v.(part := None));
  }
}
