/** What is announced of each playback: its duration once, and that it plays with its first
    samples. */
module Announcements {
  import opened Audio
  import opened Fifo
  import opened Synthesis
  import opened Commands
  import opened Playback
  import opened Endings

  function Durations(events: seq<Event>): nat {
    if events == [] then 0
    else Durations(events[..|events| - 1]) + if events[|events| - 1].Duration? then 1 else 0
  }

  lemma {:induction false} DurationsConcat(a: seq<Event>, b: seq<Event>)
    ensures Durations(a + b) == Durations(a) + Durations(b)
  {
    if b == [] {
      assert a + b == a;
    } else {
      assert (a + b)[..|a + b| - 1] == a + b[..|b| - 1];
      DurationsConcat(a, b[..|b| - 1]);
    }
  }

  /** A synthesis whose duration is still to be announced. */
  function Owed(part: Option<Part>): nat {
    if part.Some? && part.value.SpeechPart? && !part.value.speech.announced then 1 else 0
  }

  /** The durations announced for the last command when that failed. */
  function ForFailed(world: World, m: Mix): nat {
    var turns := m.view.turns;
    if m.outcome == Broken && turns != [] && turns[|turns| - 1].end.NeverBegan? then
      Durations(StartEvents(world, |turns| - 1, turns[|turns| - 1].command))
    else 0
  }

  /** The announcements of a pass from `v` so far. */
  ghost predicate Announced(world: World, v: View, m: Mix) {
    && Counted(m.view)
    && Durations(m.view.events) + Owed(m.view.part) + Starts(v.turns)
         == Durations(v.events) + Starts(m.view.turns) + ForFailed(world, m)
    && (Owed(m.view.part) > 0 ==> m.slots > 0 && m.outcome == Merging)
  }

  lemma StartDurations(world: World, n: nat, command: string)
    ensures var start := StartOf(world, n, command);
      !start.Fails? ==>
        Durations(StartEvents(world, n, command)) + Owed(if start.Begins? then Some(start.part) else None)
          == if start.Begins? then 1 else 0
  {
    hide Parse;
    assert Durations([]) == 0;
    assert [SourceStarted, Duration, StreamingStarted][..2] == [SourceStarted, Duration];
    assert [SourceStarted, Duration][..1] == [SourceStarted] && [SourceStarted][..0] == [];
    assert [Error(NoChannel)][..0] == [];
    var c := Parse(world, command);
    if c.Custom? {
      assert [UserEvent(c.body)][..0] == [];
    }
  }

  lemma SpeechDurations(before: Speech, after: Speech)
    ensures Durations(SpeechEvents(before, after)) == if before.announced then 0 else 1
  {
    assert Durations([]) == 0 && [Duration][..0] == [] && [StreamingStarted][..0] == [];
    DurationsConcat(if before.announced then [] else [Duration],
      if !before.reached && after.reached then [StreamingStarted] else []);
  }

  lemma MergeKeepsAnnounced(s: Speech, slots: nat)
    ensures MergeSpeech(s, slots).speech.announced == s.announced
  {
    hide Run, ToSamples;
  }

  lemma NoError(failure: Failure)
    ensures Durations([Error(failure)]) == 0
  {
    assert [Error(failure)][..0] == [];
  }

  lemma StepAnnounced(world: World, v: View, m: Mix)
    requires Announced(world, v, m) && m.slots > 0 && m.outcome == Merging
    ensures Announced(world, v, Step(world, m))
  {
    StepCounted(world, m);
    StepPublishes(world, m);
    DurationsConcat(m.view.events, Published(world, m));
    if m.view.part.Some? {
      MergeAnnounced(world, m);
    } else if m.view.waiting != [] {
      TakeAnnounced(world, m);
    } else {
      StepTakes(world, m);
      assert m.view.events + [] == m.view.events;
    }
  }

  lemma MergeAnnounced(world: World, m: Mix)
    requires Counted(m.view) && m.view.part.Some? && m.slots > 0 && m.outcome == Merging
    ensures Durations(Published(world, m)) + Owed(Step(world, m).view.part) == Owed(m.view.part)
    ensures Owed(Step(world, m).view.part) == 0 && ForFailed(world, Step(world, m)) == 0
  {
    hide MergeSpeech, StartOf, StartEvents, Durations, Counted;
    var added, slept, end := MergeShape(world, m);
    NothingDurations();
    if m.view.part.value.SpeechPart? {
      var speech := m.view.part.value.speech;
      var s := MergeSpeech(speech.(announced := true), m.slots);
      MergeKeepsAnnounced(speech.(announced := true), m.slots);
      SpeechDurations(speech, s.speech);
      NoError(SynthesisFailed);
      DurationsConcat(SpeechEvents(speech, s.speech), if s.result.Failed? then [Error(SynthesisFailed)] else []);
    }
  }

  lemma NothingDurations()
    ensures Durations([]) == 0
  {
  }

  lemma TakeAnnounced(world: World, m: Mix)
    requires m.view.part.None? && m.view.waiting != [] && m.slots > 0 && m.outcome == Merging
    ensures var s := Step(world, m);
      && Durations(Published(world, m)) + Owed(s.view.part) + Starts(m.view.turns)
           == Starts(s.view.turns) + ForFailed(world, s)
      && (Owed(s.view.part) > 0 ==> s.slots > 0 && s.outcome == Merging)
  {
    hide StartOf, StartEvents, Durations, Starts;
    var n, command := |m.view.turns|, m.view.waiting[0];
    var start := StartOf(world, n, command);
    StartDurations(world, n, command);
    StartCounted(world, m.view);
    NothingDurations();
    if start.Fails? {
      NoError(start.failure);
    }
    DurationsConcat(StartEvents(world, n, command), if start.Fails? then [Error(start.failure)] else []);
  }

  /** In a pass one duration is announced for each source started, and one for a command that
      fails, if its failure announces one. */
  lemma PassAnnounces(world: World, v: View)
    requires Counted(v) && Owed(v.part) == 0
    ensures var w := Pass(world, v);
      && Owed(w.part) == 0
      && Durations(w.events) - Durations(v.events)
           == Starts(w.turns) - Starts(v.turns) + ForFailed(world, PassMix(world, v))
  {
    hide Durations, Starts, Counted, StartEvents, MergeAll, Step;
    OverriddenCounted(v);
    var kept := (m: Mix) => Announced(world, v, m);
    forall m: Mix | kept(m) && m.slots > 0 && m.outcome == Merging
      ensures kept(Step(world, m))
    {
      StepAnnounced(world, v, m);
    }
    Kept(world, kept, Begun(v));
    AllDone(world, Begun(v));
    var events := PassMix(world, v).view.events;
    DurationsConcat(events, [Finished]);
    FinishedHasNone();
  }

  lemma FinishedHasNone()
    ensures Durations([Finished]) == 0
  {
    assert [Finished][..0] == [];
  }

  /** A synthesis begins to play in the merge that adds its first samples. */
  lemma BeginsWithSamples(s: Speech, slots: nat)
    requires s.buffered.None? && !s.reached && slots > 0
    ensures var m := MergeSpeech(s, slots); m.speech.reached <==> m.added != []
  {
    hide Run, ToSamples, Speech.Enough, Speech.Ended;
    assert s.(buffered := None) == s;
    RefillNotEmpty(s);
    RefillNotEmpty(s.Refill());
  }

  /** A synthesis announces that it plays in the very step that lays its first samples. */
  lemma PlaysWithFirstSamples(world: World, m: Mix)
    requires m.view.part.Some? && m.view.part.value.SpeechPart? && m.slots > 0 && m.outcome == Merging
    requires var s := m.view.part.value.speech; s.buffered.None? && !s.reached
    ensures StreamingStarted in Published(world, m) <==> Step(world, m).laid != m.laid
  {
    hide MergeSpeech;
    var s := m.view.part.value.speech;
    var r := MergeSpeech(s.(announced := true), m.slots);
    BeginsWithSamples(s.(announced := true), m.slots);
    assert StreamingStarted in SpeechEvents(s, r.speech) <==> r.speech.reached;
    assert r.added != [] ==> |m.laid + r.added| > |m.laid|;
    assert m.laid + [] == m.laid;
  }
}
