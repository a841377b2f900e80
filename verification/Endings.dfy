/** What one tick does to the sources, told before the tick: which of them end in it, whether each
    gets its own Finished event, and whether anything is mixed. */
module Endings {
  import opened Audio
  import opened Fifo
  import opened Synthesis
  import opened Commands
  import opened Time
  import opened Playback

  /** Whether a source that has so much left ends within so many slots, and what that leaves: the
      other slots, none of them, or a dropped command list. */
  datatype Fate = Stays | LeavesSlots | TakesAll | Breaks

  /** The next poll finds an unsuccessful end. */
  predicate FailsNext(s: Speech) {
    var r := s.(buffered := None).Refill();
    r.buffered.None? && r.Ended() && !r.Now().completionSuccess
  }

  function SpeechFate(s: Speech, slots: nat): Fate
    decreases |s.arrivals|
  {
    RefillShrinks(s);
    var t := if s.buffered.Some? then s else s.(buffered := None).Refill();
    if t.buffered.Some? then
      if |t.buffered.value| < slots && FailsNext(t) then Breaks else Stays
    else if t.Ended() then
      if !t.Now().completionSuccess then Breaks else if t.reached then TakesAll else LeavesSlots
    else if t.reached || s.arrivals == [] then Stays
    else SpeechFate(t, slots)
  }

  function FateOf(part: Part, slots: nat): Fate {
    match part
    case FilePart(left) => if |left| < slots then LeavesSlots else Stays
    case SleepPart(left) => if left < slots then LeavesSlots else Stays
    case SpeechPart(speech) => SpeechFate(speech, slots)
  }

  /** The source that the waiting commands would start first, unless one of them fails before. */
  function FirstPart(world: World, waiting: seq<string>, n: nat): Option<Part> {
    if waiting == [] then None
    else
      match StartOf(world, n, waiting[0])
      case Begins(part) => Some(part)
      case DoneAtOnce => FirstPart(world, waiting[1..], n + 1)
      case Fails(_) => None
  }

  // ---------------------------------------------------------------- counting

  function Starts(turns: seq<Turn>): nat {
    if turns == [] then 0
    else Starts(turns[..|turns| - 1]) + if turns[|turns| - 1].end.NeverBegan? then 0 else 1
  }

  function Ends(turns: seq<Turn>): nat {
    if turns == [] then 0
    else
      var end := turns[|turns| - 1].end;
      Ends(turns[..|turns| - 1]) + if end.NeverBegan? || end.Going? then 0 else 1
  }

  lemma TurnCounted(turns: seq<Turn>, turn: Turn)
    ensures Starts(turns + [turn]) == Starts(turns) + if turn.end.NeverBegan? then 0 else 1
    ensures Ends(turns + [turn]) == Ends(turns) + if turn.end.NeverBegan? || turn.end.Going? then 0 else 1
  {
    assert (turns + [turn])[..|turns|] == turns;
  }

  lemma PlayedIs(turns: seq<Turn>, added: seq<short>, slept: int, end: End)
    requires turns != []
    ensures var before, last := turns[..|turns| - 1], turns[|turns| - 1];
      && turns == before + [last]
      && Played(turns, added, slept, end) ==
           before + [Turn(last.command, last.mixed + added, last.slept + slept, end)]
  {
  }

  lemma PlayedCounted(turns: seq<Turn>, added: seq<short>, slept: int, end: End)
    requires turns != [] && turns[|turns| - 1].end.Going? && !end.NeverBegan?
    ensures Starts(Played(turns, added, slept, end)) == Starts(turns)
    ensures Ends(Played(turns, added, slept, end)) == Ends(turns) + if end.Going? then 0 else 1
  {
    hide Starts, Ends, Played;
    var before, last := turns[..|turns| - 1], turns[|turns| - 1];
    var played := Turn(last.command, last.mixed + added, last.slept + slept, end);
    PlayedIs(turns, added, slept, end);
    TurnCounted(before, last);
    TurnCounted(before, played);
  }

  /** Every source started has ended or is the present one. */
  ghost predicate Balanced(v: View) {
    Starts(v.turns) == Ends(v.turns) + if v.part.Some? then 1 else 0
  }

  ghost predicate Counted(v: View) {
    OneGoing(v) && Balanced(v)
  }

  lemma StepCounted(world: World, m: Mix)
    requires Counted(m.view) && m.slots > 0 && m.outcome == Merging
    ensures var s := Step(world, m).view;
      && Counted(s) && Starts(s.turns) >= Starts(m.view.turns) && Ends(s.turns) >= Ends(m.view.turns)
      && (m.view.part.Some? ==> Starts(s.turns) == Starts(m.view.turns) && |s.turns| == |m.view.turns|)
  {
    hide Step, StartOf, StartEvents, Starts, Ends;
    StepFollows(world, m);
    if m.view.part.Some? {
      var added, slept, end := MergeShape(world, m);
      PlayedCounted(m.view.turns, added, slept, end);
    } else {
      StepTakes(world, m);
      if m.view.waiting != [] {
        var start := StartOf(world, |m.view.turns|, m.view.waiting[0]);
        TurnCounted(m.view.turns, Turn(m.view.waiting[0], [], 0, if start.Begins? then Going else NeverBegan));
      }
    }
  }

  lemma MergeCounted(world: World, m: Mix)
    requires Counted(m.view)
    ensures var s := MergeAll(world, m).view;
      Counted(s) && Starts(s.turns) >= Starts(m.view.turns) && Ends(s.turns) >= Ends(m.view.turns)
  {
    hide Counted;
    var kept := (x: Mix) => Counted(x.view) && Starts(x.view.turns) >= Starts(m.view.turns) &&
                            Ends(x.view.turns) >= Ends(m.view.turns);
    forall x: Mix | kept(x) && x.slots > 0 && x.outcome == Merging
      ensures kept(Step(world, x))
    {
      StepCounted(world, x);
    }
    Kept(world, kept, m);
  }

  lemma OverriddenCounted(v: View)
    requires Counted(v)
    ensures Counted(Overridden(v)) && Starts(Overridden(v).turns) == Starts(v.turns)
    ensures |Overridden(v).turns| == |v.turns| && Overridden(v).waiting == v.waiting
    ensures Ends(Overridden(v).turns) == Ends(v.turns) + if v.override && v.part.Some? then 1 else 0
  {
    hide Starts, Ends;
    if v.part.Some? {
      PlayedFollows(v.turns, [], 0, CutOff);
      PlayedCounted(v.turns, [], 0, CutOff);
    }
  }

  // ---------------------------------------------------------------- up to the first source

  /** The merge up to where the first source starts, if one does. */
  lemma {:induction false} UpToFirst(world: World, m: Mix) returns (n: Mix)
    requires Counted(m.view) && m.view.part.None? && m.slots > 0 && m.outcome == Merging
    ensures MergeAll(world, m) == MergeAll(world, n) && Counted(n.view)
    ensures n.view.part == FirstPart(world, m.view.waiting, |m.view.turns|) && n.laid == m.laid
    ensures Starts(n.view.turns) == Starts(m.view.turns) + if n.view.part.Some? then 1 else 0
    ensures if n.view.part.Some? then n.slots == m.slots && n.outcome == Merging
            else n.outcome == Idle || n.outcome == Broken
    decreases |m.view.waiting|
  {
    hide MergeAll, Step, StartOf, StartEvents, Counted, Starts;
    StepCounted(world, m);
    MergeOn(world, m);
    StepTakes(world, m);
    n := Step(world, m);
    if m.view.waiting != [] {
      StartCounted(world, m.view);
      var start := StartOf(world, |m.view.turns|, m.view.waiting[0]);
      if start.DoneAtOnce? {
        n := UpToFirst(world, n);
      }
    }
  }

  lemma StartCounted(world: World, v: View)
    requires v.waiting != []
    ensures Starts(Taken(world, v).turns)
         == Starts(v.turns) + if StartOf(world, |v.turns|, v.waiting[0]).Begins? then 1 else 0
  {
    hide StartOf, StartEvents, Starts;
    var start := StartOf(world, |v.turns|, v.waiting[0]);
    TurnCounted(v.turns, Turn(v.waiting[0], [], 0, if start.Begins? then Going else NeverBegan));
  }

  // ---------------------------------------------------------------- the fate of a source

  lemma FateIgnoresAnnouncement(s: Speech, slots: nat)
    ensures SpeechFate(s.(announced := true), slots) == SpeechFate(s, slots)
    decreases |s.arrivals|
  {
    hide Run, ToSamples;
    RefillShrinks(s);
    var t := s.(announced := true);
    assert s.(buffered := None).Refill().(announced := true) == t.(buffered := None).Refill();
    if s.buffered.None? && s.arrivals != [] {
      FateIgnoresAnnouncement(s.(buffered := None).Refill(), slots);
    }
  }

  /** One merge of a synthesis settles its fate, or waits and leaves it as it is. */
  lemma MergeMeetsFate(s: Speech, slots: nat)
    requires slots > 0
    ensures var m, fate := MergeSpeech(s, slots), SpeechFate(s, slots);
      && (m.stopped ==> fate == if m.result.Failed? then Breaks else if m.slots == 0 then TakesAll else LeavesSlots)
      && (!m.stopped && (m.slots == 0 || s.arrivals == []) ==> fate == Stays)
      && (!m.stopped && m.slots > 0 && s.arrivals != [] ==> fate == SpeechFate(m.speech, slots) && m.slots == slots)
  {
    hide Run, ToSamples, Speech.Refill, Speech.Ended;
    assert s.buffered.None? ==> s.(buffered := None) == s;
    ArrivalsShrink(s, slots);
  }

  lemma FateOfMerge(world: World, m: Mix)
    requires m.view.part.Some? && m.slots > 0 && m.outcome == Merging
    ensures var s, fate := Step(world, m), FateOf(m.view.part.value, m.slots);
      if s.view.part.Some? then
        if s.slots == 0 || s.outcome == Stuck then fate == Stays
        else s.slots == m.slots && s.outcome == Merging && fate == FateOf(s.view.part.value, s.slots)
      else if s.outcome == Broken then fate == Breaks
      else s.outcome == Merging && fate == if s.slots == 0 then TakesAll else LeavesSlots
  {
    hide MergeSpeech, SpeechFate, StartEvents, StartOf;
    if m.view.part.value.SpeechPart? {
      var speech := m.view.part.value.speech;
      FateIgnoresAnnouncement(speech, m.slots);
      MergeMeetsFate(speech.(announced := true), m.slots);
      ArrivalsShrink(speech.(announced := true), m.slots);
    }
  }

  /** The merge up to where the present source meets its fate. */
  lemma {:induction false} ToFate(world: World, m: Mix) returns (n: Mix)
    requires Counted(m.view) && m.view.part.Some? && m.slots > 0 && m.outcome == Merging
    ensures MergeAll(world, m) == MergeAll(world, n) && Counted(n.view)
    ensures Starts(n.view.turns) == Starts(m.view.turns) && |n.view.turns| == |m.view.turns|
    ensures var fate := FateOf(m.view.part.value, m.slots);
      && n.view.part.Some? == fate.Stays?
      && (fate.LeavesSlots? ==> n.slots > 0 && n.outcome == Merging)
      && (!fate.Breaks? ==> n.view.waiting == m.view.waiting)
      && (!fate.LeavesSlots? ==> n.slots == 0 || n.outcome != Merging)
    decreases Polls(m.view.part)
  {
    hide MergeAll, Step, Counted, Starts, FateOf;
    FateOfMerge(world, m);
    StepCounted(world, m);
    MergeOn(world, m);
    StepDecreases(world, m);
    var added, slept, end := MergeShape(world, m);
    n := Step(world, m);
    if n.view.part.Some? && n.slots > 0 && n.outcome == Merging {
      n := ToFate(world, n);
    }
  }

  /** Whether each source that ends in the next pass will have its own Finished event: an idle
      layer must start none that ends at once, and one whose source ends with slots to spare must
      have no other to start. */
  ghost predicate OwnFinished(world: World, v: View) {
    var first := FirstPart(world, v.waiting, |v.turns|);
    if v.part.None? then first.None? || FateOf(first.value, FRAME_SAMPLES).Stays?
    else if v.override || FateOf(v.part.value, FRAME_SAMPLES).LeavesSlots? then first.None?
    else true
  }

  /** From an idle moment in a pass: nothing starts, or the first source stays, or it ends. */
  lemma FromIdle(world: World, m: Mix)
    requires Counted(m.view) && m.view.part.None? && m.slots > 0 && m.outcome == Merging
    ensures var s, first := MergeAll(world, m).view, FirstPart(world, m.view.waiting, |m.view.turns|);
      && Counted(s) && Starts(s.turns) >= Starts(m.view.turns) && Ends(s.turns) >= Ends(m.view.turns)
      && if first.None? then s.part.None? && Starts(s.turns) == Starts(m.view.turns)
         else
           && Starts(s.turns) > Starts(m.view.turns)
           && if FateOf(first.value, m.slots).Stays? then
                s.part.Some? && Starts(s.turns) == Starts(m.view.turns) + 1
              else Ends(s.turns) > Ends(m.view.turns)
  {
    hide MergeAll, Starts, Ends, OneGoing, FateOf, FirstPart;
    MergeCounted(world, m);
    var n := UpToFirst(world, m);
    if n.view.part.None? {
      MergeDone(world, n);
    } else {
      MergeCounted(world, n);
      var e := ToFate(world, n);
      MergeCounted(world, e);
      if FateOf(n.view.part.value, n.slots).Stays? {
        MergeDone(world, e);
      }
    }
  }

  lemma CountedOf(v: View, w: View)
    requires Counted(v) && w.part == v.part && w.turns == v.turns
    ensures Counted(w)
  {
  }

  lemma CountedBalanced(v: View)
    requires Counted(v)
    ensures Balanced(v)
  {
  }

  lemma {:induction false} StartsBound(turns: seq<Turn>)
    ensures Starts(turns) <= |turns|
  {
    if turns != [] {
      StartsBound(turns[..|turns| - 1]);
    }
  }

  /** In a pass each source that ends gets its own Finished event exactly when the layer before
      the pass meets OwnFinished; there are never more such events than ends. */
  lemma FinishedIff(world: World, v: View)
    requires Counted(v) && Separated(v.events) && (v.part.Some? ==> Open(v.events))
    ensures var w := Pass(world, v);
      && Counted(w)
      && Finishes(w.events) - Finishes(v.events) <= Ends(w.turns) - Ends(v.turns)
      && (Finishes(w.events) - Finishes(v.events) == Ends(w.turns) - Ends(v.turns) <==> OwnFinished(world, v))
  {
    hide MergeAll, Starts, Ends, OneGoing, FateOf, FirstPart, Finishes, Separated, Open;
    PassLogged(world, v);
    OverriddenCounted(v);
    var m := Begun(v);
    MergeCounted(world, m);
    CountedOf(PassMix(world, v).view, Pass(world, v));
    if m.view.part.None? {
      FromIdle(world, m);
    } else {
      var n := ToFate(world, m);
      if FateOf(m.view.part.value, m.slots).LeavesSlots? {
        FromIdle(world, n);
      } else {
        MergeDone(world, n);
      }
    }
  }

  /** The shortest way to miss it: on an idle layer, a source too short for a frame never gets a
      Finished event. */
  lemma ShortSourceNeverFinished(world: World, command: string, events: seq<Event>)
    requires Separated(events)
    requires var start := StartOf(world, 0, command);
      start.Begins? && FateOf(start.part, FRAME_SAMPLES).LeavesSlots?
    ensures var v := View(false, None, [command], [], events);
      var w := Pass(world, v);
      Ends(w.turns) > 0 && Finishes(w.events) == Finishes(events) && w.part.None? && !Again(w)
  {
    hide FateOf, Finishes, Separated, Open, MergeAll, PassMix, Pass, StartOf;
    var v := View(false, None, [command], [], events);
    assert Counted(v) && Ends(v.turns) == 0;
    hide Counted, Ends, Starts, OneGoing;
    FinishedIff(world, v);
    PassLogged(world, v);
    PassConsumes(world, v);
    StartsBound(Pass(world, v).turns);
    assert Balanced(Pass(world, v)) by { CountedBalanced(Pass(world, v)); }
    SecondPassIsLast(world, v);
  }

  // ---------------------------------------------------------------- ticks that mix nothing

  /** A synthesis that mixes no sample before it meets its fate. */
  predicate Mute(s: Speech)
    decreases |s.arrivals|
  {
    RefillShrinks(s);
    var refill := s.(buffered := None).Refill();
    if s.buffered.Some? then s.buffered.value == [] && refill.buffered.None?
    else if refill.buffered.Some? then false
    else refill.Ended() || refill.reached || s.arrivals == [] || Mute(refill)
  }

  predicate Silent(part: Part) {
    match part
    case FilePart(left) => left == []
    case SleepPart(_) => true
    case SpeechPart(speech) => Mute(speech)
  }

  /** Within so many slots nothing that plays or waits has a sample to mix. */
  predicate Quiet(world: World, part: Option<Part>, waiting: seq<string>, n: nat, slots: nat)
    decreases |waiting|, if part.Some? then 1 else 0
  {
    if slots == 0 then true
    else if part.Some? then
      && Silent(part.value)
      && (FateOf(part.value, slots).LeavesSlots? ==>
            Quiet(world, None, waiting, n, if part.value.SleepPart? then slots - part.value.count else slots))
    else if waiting == [] then true
    else
      match StartOf(world, n, waiting[0])
      case Begins(start) => Quiet(world, Some(start), waiting[1..], n + 1, slots)
      case DoneAtOnce => Quiet(world, None, waiting[1..], n + 1, slots)
      case Fails(_) => true
  }

  lemma MuteIgnoresAnnouncement(s: Speech)
    ensures Mute(s.(announced := true)) == Mute(s)
    decreases |s.arrivals|
  {
    hide Run, ToSamples;
    RefillShrinks(s);
    var t := s.(announced := true);
    assert s.(buffered := None).Refill().(announced := true) == t.(buffered := None).Refill();
    if s.buffered.None? && s.arrivals != [] {
      MuteIgnoresAnnouncement(s.(buffered := None).Refill());
    }
  }

  /** One merge of a synthesis mixes nothing if it is mute, and then it stays mute. */
  lemma MergeMute(s: Speech, slots: nat)
    requires slots > 0
    ensures var m := MergeSpeech(s, slots);
      && (Mute(s) ==> m.added == [])
      && (m.added == [] ==> Mute(s) == (m.stopped || m.slots == 0 || s.arrivals == [] || Mute(m.speech)))
  {
    hide Run, Speech.Enough, Speech.Poll, Speech.Ended;
    assert s.buffered.None? ==> s.(buffered := None) == s;
    RefillNotEmpty(s);
    if s.buffered.None? {
      RefillNotEmpty(s.Refill());
    }
  }

  lemma RefillNotEmpty(s: Speech)
    ensures var r := s.(buffered := None).Refill(); r.buffered.Some? ==> r.buffered.value != []
  {
    hide Run;
  }

  lemma LaidGrows(world: World, m: Mix)
    ensures |MergeAll(world, m).laid| >= |m.laid|
  {
    var kept := (x: Mix) => |x.laid| >= |m.laid|;
    forall x: Mix | kept(x) && x.slots > 0 && x.outcome == Merging
      ensures kept(Step(world, x))
    {
      if x.view.part.Some? {
        var added, slept, end := MergeShape(world, x);
      } else {
        StepTakes(world, x);
      }
    }
    Kept(world, kept, m);
  }

  /** What one merge of the source means for the quiet of the rest. */
  lemma QuietStep(world: World, m: Mix)
    requires m.view.part.Some? && m.slots > 0 && m.outcome == Merging
    ensures var s := Step(world, m);
      var quiet := Quiet(world, m.view.part, m.view.waiting, |m.view.turns|, m.slots);
      if |s.laid| > |m.laid| then !quiet
      else
        && s.laid == m.laid && |s.view.turns| == |m.view.turns|
        && quiet == (s.slots == 0 || s.outcome != Merging
                     || Quiet(world, s.view.part, s.view.waiting, |s.view.turns|, s.slots))
  {
    hide MergeSpeech, SpeechFate, Mute, StartOf, StartEvents;
    FateOfMerge(world, m);
    var added, slept, end := MergeShape(world, m);
    if m.view.part.value.SpeechPart? {
      var speech := m.view.part.value.speech;
      MuteIgnoresAnnouncement(speech);
      MergeMute(speech.(announced := true), m.slots);
      ArrivalsShrink(speech.(announced := true), m.slots);
    }
  }

  /** A merge lays nothing exactly when all that plays and waits is quiet. */
  lemma {:induction false} QuietMerge(world: World, m: Mix)
    requires m.outcome == Merging
    ensures MergeAll(world, m).laid == m.laid
       <==> Quiet(world, m.view.part, m.view.waiting, |m.view.turns|, m.slots)
    decreases |m.view.waiting|, if m.view.part.Some? then 1 else 0, Polls(m.view.part), m.slots
  {
    hide Step, MergeAll, StartOf, StartEvents, FateOf, Silent;
    if m.slots == 0 {
      MergeDone(world, m);
      return;
    }
    var s := Step(world, m);
    MergeOn(world, m);
    StepDecreases(world, m);
    LaidGrows(world, s);
    if m.view.part.Some? {
      QuietStep(world, m);
    } else {
      StepTakes(world, m);
    }
    if s.slots == 0 || s.outcome != Merging {
      MergeDone(world, s);
    } else if s.laid == m.laid {
      QuietMerge(world, s);
    }
  }

  /** Commands are left over for a second pass exactly when the present source, not overridden,
      ends with the slots used up. */
  lemma AgainIff(world: World, v: View)
    requires Counted(v)
    ensures Again(Pass(world, v)) <==>
      v.part.Some? && !v.override && FateOf(v.part.value, FRAME_SAMPLES).TakesAll? && v.waiting != []
  {
    hide MergeAll, Step, FateOf, Counted;
    SecondPassIsLast(world, v);
    var m := Begun(v);
    if v.part.Some? && !v.override {
      var n := ToFate(world, m);
      FateOfMerge(world, m);
      if !FateOf(v.part.value, FRAME_SAMPLES).LeavesSlots? {
        MergeDone(world, n);
      }
      if Again(Pass(world, v)) {
        AllDone(world, m);
        var added, slept, end := MergeShape(world, m);
      }
    }
  }

  /** What makes a whole tick quiet: the layer before it and what waits. */
  ghost predicate QuietTick(world: World, v: View) {
    && Quiet(world, Overridden(v).part, v.waiting, |v.turns|, FRAME_SAMPLES)
    && (v.part.Some? && !v.override && FateOf(v.part.value, FRAME_SAMPLES).TakesAll? ==>
          Quiet(world, None, v.waiting, |v.turns|, FRAME_SAMPLES))
  }

  lemma QuietTickIff(world: World, v: View)
    requires Counted(v)
    ensures TickOf(world, v).laid == [] <==> QuietTick(world, v)
  {
    hide MergeAll, FateOf, Counted, Silent, StartOf;
    AgainIff(world, v);
    SecondPassIsLast(world, v);
    OverriddenCounted(v);
    QuietMerge(world, Begun(v));
    if Again(Pass(world, v)) {
      PassTurns(world, v);
      QuietMerge(world, Begun(Pass(world, v)));
    }
  }

  lemma PassTurns(world: World, v: View)
    requires Again(Pass(world, v)) && Counted(v)
    ensures |Pass(world, v).turns| == |v.turns|
  {
    hide MergeAll, Step;
    SecondPassIsLast(world, v);
    StepCounted(world, Begun(v));
  }

  // ---------------------------------------------------------------- samples at their own slots

  /** Every sample laid so far lies at the slot it was due at. */
  ghost predicate InPlace(m: Mix) {
    |m.due| == |m.laid| && forall i :: 0 <= i < |m.due| ==> m.due[i] == i
  }

  /** What follows a sleep in the same pass is laid in front of the sleep's silence: all samples
      lie at their slots only if nothing that is `late`, by the sleeps before it, has one to mix. */
  predicate OnTime(world: World, part: Option<Part>, waiting: seq<string>, n: nat, slots: nat, late: int)
    decreases |waiting|, if part.Some? then 1 else 0
  {
    if slots == 0 then true
    else if part.Some? then
      && (Silent(part.value) || late == 0)
      && (FateOf(part.value, slots).LeavesSlots? ==>
            match part.value
            case FilePart(left) => OnTime(world, None, waiting, n, slots - |left|, late)
            case SleepPart(count) => OnTime(world, None, waiting, n, slots - count, late + count)
            case SpeechPart(_) => OnTime(world, None, waiting, n, slots, late))
    else if waiting == [] then true
    else
      match StartOf(world, n, waiting[0])
      case Begins(start) => OnTime(world, Some(start), waiting[1..], n + 1, slots, late)
      case DoneAtOnce => OnTime(world, None, waiting[1..], n + 1, slots, late)
      case Fails(_) => true
  }

  /** A merge under way whose samples lie in place. */
  ghost predicate Punctual(m: Mix) {
    Accounted(m) && m.underrun == 0 && InPlace(m)
  }

  ghost predicate OnTimeNow(world: World, m: Mix) {
    OnTime(world, m.view.part, m.view.waiting, |m.view.turns|, m.slots, m.slept)
  }

  /** A sample out of its place stays there. */
  lemma OutOfPlace(world: World, m: Mix)
    requires |m.due| == |m.laid| && !InPlace(m)
    ensures !InPlace(MergeAll(world, m))
  {
    hide MergeAll;
    var i :| 0 <= i < |m.due| && m.due[i] != i;
    var kept := (x: Mix) => i < |x.due| && x.due[i] != i;
    forall x: Mix | kept(x) && x.slots > 0 && x.outcome == Merging
      ensures kept(Step(world, x))
    {
      hide Step;
      if x.view.part.Some? {
        var added, slept, end := MergeShape(world, x);
      } else {
        StepTakes(world, x);
      }
    }
    Kept(world, kept, m);
  }

  /** What one merge of the source means for the places of the samples. */
  lemma PunctualStep(world: World, m: Mix)
    requires Punctual(m) && m.view.part.Some? && m.slots > 0 && m.outcome == Merging
    ensures var s := Step(world, m);
      && |s.due| == |s.laid| && Accounted(s)
      && if !InPlace(s) then !OnTimeNow(world, m)
         else if s.slots == 0 || s.outcome != Merging then OnTimeNow(world, m)
         else s.underrun == 0 && OnTimeNow(world, m) == OnTimeNow(world, s)
  {
    hide MergeSpeech, SpeechFate, Mute, StartOf, StartEvents;
    StepAccounts(world, m);
    FateOfMerge(world, m);
    var added, slept, end := MergeShape(world, m);
    PlacesAfter(m, Step(world, m), |added|);
    if m.view.part.value.SpeechPart? {
      var speech := m.view.part.value.speech;
      MuteIgnoresAnnouncement(speech);
      MergeMute(speech.(announced := true), m.slots);
      ArrivalsShrink(speech.(announced := true), m.slots);
    }
  }

  /** Samples added are in place if there are none or nothing was slept. */
  lemma PlacesAfter(m: Mix, s: Mix, added: nat)
    requires Punctual(m) && |s.laid| == |m.laid| + added
    requires s.due == m.due + SlotsFrom(FRAME_SAMPLES - m.slots, added)
    ensures InPlace(s) <==> added == 0 || m.slept == 0
  {
    if added > 0 {
      assert s.due[|m.due|] == |m.laid| + m.slept;
    }
  }

  /** All samples of a merge lie at their slots exactly when the layer before it meets OnTime. */
  lemma {:induction false} OnTimeMerge(world: World, m: Mix)
    requires Punctual(m) && m.outcome == Merging
    ensures InPlace(MergeAll(world, m)) <==> OnTimeNow(world, m)
    decreases |m.view.waiting|, if m.view.part.Some? then 1 else 0, Polls(m.view.part), m.slots
  {
    hide Step, MergeAll, StartOf, StartEvents, InPlace, FateOf, Silent;
    if m.slots == 0 {
      MergeDone(world, m);
      return;
    }
    var s := Step(world, m);
    MergeOn(world, m);
    StepDecreases(world, m);
    if m.view.part.Some? {
      PunctualStep(world, m);
    } else {
      StepTakes(world, m);
      SameInPlace(m, s);
    }
    if s.slots == 0 || s.outcome != Merging {
      MergeDone(world, s);
    } else if InPlace(s) {
      OnTimeMerge(world, s);
    } else {
      OutOfPlace(world, s);
    }
  }

  lemma SameInPlace(m: Mix, s: Mix)
    requires m.laid == s.laid && m.due == s.due
    ensures InPlace(m) == InPlace(s)
  {
  }

  /** In a pass every sample lies at the slot it was due at exactly when no source that comes late,
      by the sleeps that end before it, has a sample to mix. */
  lemma OnTimeIff(world: World, v: View)
    ensures InPlace(PassMix(world, v))
       <==> OnTime(world, Overridden(v).part, v.waiting, |v.turns|, FRAME_SAMPLES, 0)
  {
    hide MergeAll, OnTime;
    OnTimeMerge(world, Begun(v));
  }

  /** A file behind a short sleep is laid in front of the sleep's silence. */
  lemma SleepThenPlay(world: World, v: View, count: int, samples: seq<short>)
    requires v.part.None? && |v.waiting| == 2 && 0 < count < FRAME_SAMPLES
    requires StartOf(world, |v.turns|, v.waiting[0]) == Begins(SleepPart(count))
    requires StartOf(world, |v.turns| + 1, v.waiting[1]) == Begins(FilePart(samples))
    requires |samples| >= FRAME_SAMPLES - count
    ensures var m := PassMix(world, v);
      m.laid == samples[..FRAME_SAMPLES - count] && m.due != [] && m.due[0] == count && !InPlace(m)
  {
    hide MergeAll, StartOf, StartEvents;
    var m := Begun(v);
    MergeOn(world, m);
    var slept := Step(world, m);
    MergeOn(world, slept);
    var over := Step(world, slept);
    MergeOn(world, over);
    var playing := Step(world, over);
    MergeOn(world, playing);
    MergeDone(world, Step(world, playing));
    assert [] + samples[..FRAME_SAMPLES - count] == samples[..FRAME_SAMPLES - count];
  }

  // ---------------------------------------------------------------- how much is laid

  /** How many samples a synthesis lays into so many slots. */
  function SpeechLays(s: Speech, slots: nat): nat
    decreases |s.arrivals|
  {
    RefillShrinks(s);
    var refill := s.(buffered := None).Refill();
    var t := if s.buffered.Some? then s else refill;
    if t.buffered.Some? then
      var frame := |t.buffered.value|;
      if frame >= slots then slots
      else frame + Min(|t.(buffered := None).Refill().Unplayed()|, slots - frame)
    else if t.Ended() || t.reached || s.arrivals == [] then 0
    else SpeechLays(t, slots)
  }

  function PartLays(part: Part, slots: nat): nat {
    match part
    case FilePart(left) => Min(|left|, slots)
    case SleepPart(_) => 0
    case SpeechPart(speech) => SpeechLays(speech, slots)
  }

  /** How many samples a merge lays: each source as many as it has for the slots left to it. */
  function Lays(world: World, part: Option<Part>, waiting: seq<string>, n: nat, slots: nat): nat
    decreases |waiting|, if part.Some? then 1 else 0
  {
    if slots == 0 then 0
    else if part.Some? then
      PartLays(part.value, slots) +
      (if !FateOf(part.value, slots).LeavesSlots? then 0
       else
         match part.value
         case FilePart(left) => Lays(world, None, waiting, n, slots - |left|)
         case SleepPart(count) => Lays(world, None, waiting, n, slots - count)
         case SpeechPart(_) => Lays(world, None, waiting, n, slots))
    else if waiting == [] then 0
    else
      match StartOf(world, n, waiting[0])
      case Begins(start) => Lays(world, Some(start), waiting[1..], n + 1, slots)
      case DoneAtOnce => Lays(world, None, waiting[1..], n + 1, slots)
      case Fails(_) => 0
  }

  lemma LaysIgnoresAnnouncement(s: Speech, slots: nat)
    ensures SpeechLays(s.(announced := true), slots) == SpeechLays(s, slots)
    decreases |s.arrivals|
  {
    hide Run, ToSamples;
    RefillShrinks(s);
    var t := s.(announced := true);
    var r := s.(buffered := None).Refill();
    assert r.(announced := true) == t.(buffered := None).Refill();
    assert r.(buffered := None).Refill().(announced := true) == r.(announced := true).(buffered := None).Refill();
    if s.buffered.None? && s.arrivals != [] {
      LaysIgnoresAnnouncement(r, slots);
    }
  }

  /** One merge of a synthesis lays what SpeechLays says, or waits. */
  lemma MergeLays(s: Speech, slots: nat)
    requires slots > 0
    ensures var m := MergeSpeech(s, slots);
      if m.stopped || m.slots == 0 || s.arrivals == [] then SpeechLays(s, slots) == |m.added|
      else m.added == [] && m.slots == slots && SpeechLays(s, slots) == SpeechLays(m.speech, slots)
  {
    hide Run, ToSamples, Speech.Refill, Speech.Ended;
    assert s.buffered.None? ==> s.(buffered := None) == s;
    ArrivalsShrink(s, slots);
  }

  ghost function LaysNow(world: World, m: Mix): nat {
    |m.laid| + Lays(world, m.view.part, m.view.waiting, |m.view.turns|, m.slots)
  }

  lemma StepLays(world: World, m: Mix)
    requires m.view.part.Some? && m.slots > 0 && m.outcome == Merging
    ensures var s := Step(world, m);
      if s.slots == 0 || s.outcome != Merging then LaysNow(world, m) == |s.laid|
      else LaysNow(world, m) == LaysNow(world, s)
  {
    hide MergeSpeech, SpeechFate, SpeechLays, StartOf, StartEvents;
    FateOfMerge(world, m);
    var added, slept, end := MergeShape(world, m);
    if m.view.part.value.SpeechPart? {
      var speech := m.view.part.value.speech;
      LaysIgnoresAnnouncement(speech, m.slots);
      MergeLays(speech.(announced := true), m.slots);
      ArrivalsShrink(speech.(announced := true), m.slots);
    }
  }

  lemma {:induction false} LaysMerge(world: World, m: Mix)
    requires m.outcome == Merging
    ensures |MergeAll(world, m).laid| == LaysNow(world, m)
    decreases |m.view.waiting|, if m.view.part.Some? then 1 else 0, Polls(m.view.part), m.slots
  {
    hide Step, MergeAll, StartOf, StartEvents, FateOf, PartLays;
    if m.slots == 0 {
      MergeDone(world, m);
      return;
    }
    var s := Step(world, m);
    MergeOn(world, m);
    StepDecreases(world, m);
    if m.view.part.Some? {
      StepLays(world, m);
    } else {
      StepTakes(world, m);
    }
    if s.slots == 0 || s.outcome != Merging {
      MergeDone(world, s);
    } else {
      LaysMerge(world, s);
    }
  }

  // ---------------------------------------------------------------- passes that hang

  /** A synthesis that has not begun to play and that all its sender will ever do does not let
      begin. */
  ghost predicate Hopeless(part: Part) {
    part.SpeechPart? &&
    var s := part.speech;
    s.buffered.None? && !s.reached && !Ready(PolledAll(s.Now(), s.arrivals), s.estimate)
  }

  /** A hopeless synthesis is reached within so many slots. */
  ghost predicate Hangs(world: World, part: Option<Part>, waiting: seq<string>, n: nat, slots: nat)
    decreases |waiting|, if part.Some? then 1 else 0
  {
    if slots == 0 then false
    else if part.Some? then
      || Hopeless(part.value)
      || (FateOf(part.value, slots).LeavesSlots? &&
          match part.value
          case FilePart(left) => Hangs(world, None, waiting, n, slots - |left|)
          case SleepPart(count) => Hangs(world, None, waiting, n, slots - count)
          case SpeechPart(_) => Hangs(world, None, waiting, n, slots))
    else if waiting == [] then false
    else
      match StartOf(world, n, waiting[0])
      case Begins(start) => Hangs(world, Some(start), waiting[1..], n + 1, slots)
      case DoneAtOnce => Hangs(world, None, waiting[1..], n + 1, slots)
      case Fails(_) => false
  }

  /** The present synthesis, if there is one, is fed by a sender. */
  ghost predicate Fed(part: Option<Part>) {
    part.Some? && part.value.SpeechPart? ==> AllSends(part.value.speech.arrivals)
  }

  ghost predicate HangsNow(world: World, m: Mix) {
    Hangs(world, m.view.part, m.view.waiting, |m.view.turns|, m.slots)
  }

  /** A synthesis that is not hopeless does not hang, and stays so. */
  lemma HopefulMerge(s: Speech, slots: nat)
    requires AllSends(s.arrivals) && !Hopeless(SpeechPart(s)) && slots > 0
    ensures var m := MergeSpeech(s, slots);
      !m.stopped && m.slots > 0 ==>
        s.arrivals != [] && AllSends(m.speech.arrivals) && !Hopeless(SpeechPart(m.speech))
  {
    hide Run, PolledAll, Ready, AllSends, Speech.Refill, Speech.Ended;
    ArrivalsShrink(s, slots);
    if s.buffered.None? {
      assert s.Lively();
      MergeLively(s, slots);
    }
  }

  lemma HopelessIgnoresAnnouncement(s: Speech)
    ensures Hopeless(SpeechPart(s.(announced := true))) == Hopeless(SpeechPart(s))
  {
    hide Run, PolledAll, Ready;
  }

  lemma StepHangs(world: World, m: Mix)
    requires m.view.part.Some? && Fed(m.view.part) && !Hopeless(m.view.part.value)
    requires m.slots > 0 && m.outcome == Merging
    ensures var s := Step(world, m);
      && s.outcome != Stuck && Fed(s.view.part)
      && if s.slots == 0 || s.outcome != Merging then !HangsNow(world, m)
         else HangsNow(world, m) == HangsNow(world, s)
  {
    hide MergeSpeech, SpeechFate, StartOf, StartEvents, Hopeless, AllSends;
    FateOfMerge(world, m);
    var added, slept, end := MergeShape(world, m);
    if m.view.part.value.SpeechPart? {
      var speech := m.view.part.value.speech;
      HopelessIgnoresAnnouncement(speech);
      MergeMeetsFate(speech.(announced := true), m.slots);
      HopefulMerge(speech.(announced := true), m.slots);
      ArrivalsShrink(speech.(announced := true), m.slots);
      StaysFed(speech.(announced := true), m.slots);
    } else {
      NeverHopeless(m.view.part.value);
      if Step(world, m).view.part.Some? {
        NeverHopeless(Step(world, m).view.part.value);
      }
    }
  }

  lemma NeverHopeless(part: Part)
    ensures !part.SpeechPart? ==> !Hopeless(part)
  {
  }

  lemma StaysFed(s: Speech, slots: nat)
    requires AllSends(s.arrivals)
    ensures AllSends(MergeSpeech(s, slots).speech.arrivals)
  {
    hide Run, ToSamples, AllSends, Speech.Refill, Speech.Ended;
    assert s.buffered.None? ==> s.(buffered := None) == s;
    RefillFed(s);
    RefillFed(s.(buffered := None).Refill());
  }

  lemma RefillFed(s: Speech)
    requires AllSends(s.arrivals)
    ensures AllSends(s.(buffered := None).Refill().arrivals)
  {
    hide Run, ToSamples, Speech.Enough;
    BatchSends(s);
  }

  lemma {:induction false} HangsMerge(world: World, m: Mix)
    requires m.outcome == Merging && Fed(m.view.part)
    ensures MergeAll(world, m).outcome == Stuck <==> HangsNow(world, m)
    decreases |m.view.waiting|, if m.view.part.Some? then 1 else 0, Polls(m.view.part), m.slots
  {
    hide Step, MergeAll, StartOf, StartEvents, FateOf, Fed, Hopeless;
    if m.slots == 0 {
      MergeDone(world, m);
      return;
    }
    if m.view.part.Some? && Hopeless(m.view.part.value) {
      HopelessHangs(world, m);
      return;
    }
    var s := Step(world, m);
    MergeOn(world, m);
    StepDecreases(world, m);
    if m.view.part.Some? {
      StepHangs(world, m);
    } else {
      StepTakes(world, m);
      TakenFed(world, m.view);
    }
    if s.slots == 0 || s.outcome != Merging {
      MergeDone(world, s);
    } else {
      HangsMerge(world, s);
    }
  }

  lemma HopelessHangs(world: World, m: Mix)
    requires m.view.part.Some? && Fed(m.view.part) && Hopeless(m.view.part.value)
    requires m.slots > 0 && m.outcome == Merging
    ensures MergeAll(world, m).outcome == Stuck
  {
    hide MergeAll, Run, PolledAll, Ready;
    WaitsForEver(world, m);
  }

  lemma TakenFed(world: World, v: View)
    requires v.part.None?
    ensures Fed(Taken(world, v).part)
  {
    hide StartOf, StartEvents;
    if v.waiting != [] {
      StartSends(world, |v.turns|, v.waiting[0]);
    }
  }

  /** The player waits for ever in the next pass exactly when it reaches, within the pass, a
      synthesis that all its sender will ever do does not let begin. */
  lemma StuckIff(world: World, v: View)
    requires Fed(v.part)
    ensures PassMix(world, v).outcome == Stuck
       <==> Hangs(world, Overridden(v).part, v.waiting, |v.turns|, FRAME_SAMPLES)
  {
    hide MergeAll, Hangs, AllSends;
    HangsMerge(world, Begun(v));
  }

  /** An idle layer that takes a `say`, with nothing behind it that does not fit, waits for ever in
      that pass exactly when the job does not settle. */
  lemma SayHangsIff(world: World, v: View, arrivals: seq<seq<Op>>, estimate: nat)
    requires v.part.None? && v.waiting != [] && AllSends(arrivals)
    requires StartOf(world, |v.turns|, v.waiting[0]) == Begins(SpeechPart(NewSpeech(arrivals, estimate)))
    requires forall i :: 1 <= i < |v.waiting| ==> StartFits(StartOf(world, |v.turns| + i, v.waiting[i]))
    ensures PassMix(world, v).outcome == Stuck <==> !Ready(PolledAll(EMPTY, arrivals), estimate)
  {
    hide MergeAll, Run, PolledAll, Ready, StartOf, AllSends, FateOf;
    RunNothing(EMPTY);
    StuckIff(world, v);
    if Ready(PolledAll(EMPTY, arrivals), estimate) {
      assert Fitting(world, v);
      PassFitting(world, v);
    }
  }

  /** The next pass neither hangs nor leaves its frame, told before it. */
  lemma CompletesIff(world: World, v: View)
    requires Fed(v.part)
    ensures Completes(world, Begun(v)) <==>
      && !Hangs(world, Overridden(v).part, v.waiting, |v.turns|, FRAME_SAMPLES)
      && Lays(world, Overridden(v).part, v.waiting, |v.turns|, FRAME_SAMPLES) <= FRAME_SAMPLES
  {
    hide MergeAll, Hangs, Lays, AllSends;
    HangsMerge(world, Begun(v));
    LaysMerge(world, Begun(v));
  }
}
