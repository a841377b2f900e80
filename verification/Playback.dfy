/** A layer on values: what stream_layers.c does to its jobs, its source and the samples of one
    tick, without frames, buffers and links. Layers.StreamLayer is proved against it; what holds
    of every tick is proved here. */
module Playback {
  import opened Audio
  import opened Fifo
  import opened Synthesis
  import opened Sources
  import opened SayArgs
  import opened Commands
  import opened Time

  /** The events a layer publishes; SourceStarted only marks the start of a source. */
  datatype Event =
    | SourceStarted
    | Duration
    | StreamingStarted
    | Finished
    | Error(failure: Failure)
    | UserEvent(body: string)

  /** What an audio source has left. */
  datatype Part = FilePart(samples: seq<short>) | SleepPart(count: int) | SpeechPart(speech: Speech)

  /** What taking a command comes to. */
  datatype Start = Begins(part: Part) | DoneAtOnce | Fails(failure: Failure)

  /** What the command taken after `n` others starts. */
  function StartOf(world: World, n: nat, command: string): Start {
    match Parse(world, command)
    case Play(filename) =>
      var file := world.file(n, filename);
      if file.Some? then Begins(FilePart(world.codec.DecodeAll(file.value))) else Fails(CannotOpen)
    case Sleep(timeout) => Begins(SleepPart(SleepSamples(timeout)))
    case Speak(say) =>
      var job := world.job(n, say);
      if world.hasSynthesis(n) then Begins(SpeechPart(NewSpeech(job.arrivals, job.estimate))) else DoneAtOnce
    case Custom(_) => DoneAtOnce
    case Bad(failure, _) => Fails(failure)
  }

  function StartEvents(world: World, n: nat, command: string): seq<Event> {
    match Parse(world, command)
    case Play(filename) =>
      if world.file(n, filename).None? then [Duration] else [SourceStarted, Duration, StreamingStarted]
    case Sleep(_) => [SourceStarted, Duration, StreamingStarted]
    case Speak(_) => if world.hasSynthesis(n) then [SourceStarted] else [Error(NoChannel)]
    case Custom(body) => [UserEvent(body)]
    case Bad(_, duration) => if duration then [Duration] else []
  }

  /** What the printed commands start and publish: `play` its file, or a failure if there is none. */
  lemma PlayStarts(world: World, n: nat, filename: string)
    ensures var file := world.file(n, filename); var text := "play,," + filename;
      if file.Some? then
        && StartOf(world, n, text) == Begins(FilePart(world.codec.DecodeAll(file.value)))
        && StartEvents(world, n, text) == [SourceStarted, Duration, StreamingStarted]
      else StartOf(world, n, text) == Fails(CannotOpen) && StartEvents(world, n, text) == [Duration]
  {
    hide Parse, Codec.DecodeAll;
    PlayParsed(world, filename);
  }

  /** `event` publishes its body and starts nothing. */
  lemma EventStarts(world: World, n: nat, body: string)
    ensures StartOf(world, n, "event,," + body) == DoneAtOnce
    ensures StartEvents(world, n, "event,," + body) == [UserEvent(body)]
  {
    hide Parse;
    EventParsed(world, body);
  }

  /** `sleep` starts a sleep of its samples, or fails if its text is no number. */
  lemma SleepStarts(world: World, n: nat, text: string)
    ensures var seconds, command := world.timeout(text), "sleep,," + text;
      if seconds.Some? then
        && StartOf(world, n, command) == Begins(SleepPart(SleepSamples(ParsedTimeout(seconds.value, world.rounded))))
        && StartEvents(world, n, command) == [SourceStarted, Duration, StreamingStarted]
      else StartOf(world, n, command) == Fails(BadSleep) && StartEvents(world, n, command) == [Duration]
  {
    hide Parse, SleepSamples, ParsedTimeout;
    SleepParsed(world, text);
  }

  /** `say` starts the job of its options and input, or publishes that there is no channel. */
  lemma SayStarts(world: World, n: nat, settings: seq<Setting>, input: string)
    requires forall i :: 0 <= i < |settings| ==> Printable(world.numbers, settings[i])
    ensures var command := "say," + PrintAll(settings) + "," + input;
      var job := world.job(n, Say(settings, input));
      if world.hasSynthesis(n) then
        && StartOf(world, n, command) == Begins(SpeechPart(NewSpeech(job.arrivals, job.estimate)))
        && StartEvents(world, n, command) == [SourceStarted]
      else StartOf(world, n, command) == DoneAtOnce && StartEvents(world, n, command) == [Error(NoChannel)]
  {
    hide Parse, PrintAll, Printable;
    SayParsed(world, settings, input);
  }

  datatype End = NeverBegan | Going | PlayedOut | Broke | CutOff

  /** A command that was taken, what was mixed from its source, the slots it slept, and how that
      ended. */
  datatype Turn = Turn(command: string, mixed: seq<short>, slept: int, end: End)

  datatype View = View(
    override: bool, part: Option<Part>, waiting: seq<string>, turns: seq<Turn>, events: seq<Event>)

  datatype Outcome = Merging | Idle | Broken | Stuck

  /** A tick's mixing under way: `laid` are the samples mixed so far and `due` the slot each was
      due at; `slots` are to come. Sleeps and underruns use up slots without advancing. */
  datatype Mix = Mix(
    view: View, laid: seq<short>, due: seq<int>, slept: int, underrun: nat, slots: nat, outcome: Outcome)

  const NOTHING := View(false, None, [], [], [])

  // ---------------------------------------------------------------- steps

  function CommandsOf(turns: seq<Turn>): (r: seq<string>)
    ensures |r| == |turns|
  {
    seq(|turns|, i requires 0 <= i < |turns| => turns[i].command)
  }

  /** The present turn, with more samples mixed and perhaps at its end. */
  function Played(turns: seq<Turn>, added: seq<short>, slept: int, end: End): seq<Turn> {
    if turns == [] then []
    else
      var last := turns[|turns| - 1];
      turns[..|turns| - 1] + [last.(mixed := last.mixed + added, slept := last.slept + slept, end := end)]
  }

  function Ended(v: View, added: seq<short>, slept: int, end: End): View {
    v.(part := None, turns := Played(v.turns, added, slept, end))
  }

  function Continued(v: View, added: seq<short>, slept: int, part: Part): View {
    v.(part := Some(part), turns := Played(v.turns, added, slept, Going))
  }

  /** A pending override cuts the source off. */
  function Overridden(v: View): View {
    if !v.override then v
    else if v.part.None? then v.(override := false)
    else Ended(v, [], 0, CutOff).(override := false)
  }

  /** The next command is taken. */
  function Taken(world: World, v: View): View {
    if v.waiting == [] then v
    else
      var n, command := |v.turns|, v.waiting[0];
      var start := StartOf(world, n, command);
      v.(part := if start.Begins? then Some(start.part) else None,
         waiting := v.waiting[1..],
         turns := v.turns + [Turn(command, [], 0, if start.Begins? then Going else NeverBegan)],
         events := v.events + StartEvents(world, n, command))
  }

  /** After a failure the commands still waiting are dropped. */
  function Dropped(v: View, failure: Failure): View {
    v.(waiting := [], events := v.events + [Error(failure)])
  }

  /** Samples are laid into the frame, then `slots` are left. */
  function Lay(m: Mix, view: View, added: seq<short>, slots: nat): Mix {
    m.(view := view, laid := m.laid + added, due := m.due + SlotsFrom(FRAME_SAMPLES - m.slots, |added|), slots := slots)
  }

  function SlotsFrom(from: int, count: nat): seq<int> {
    seq(count, i => from + i)
  }

  function TakeStep(world: World, m: Mix): Mix {
    var v := m.view;
    if v.waiting == [] then m.(outcome := Idle)
    else
      var start := StartOf(world, |v.turns|, v.waiting[0]);
      if start.Fails? then m.(view := Dropped(Taken(world, v), start.failure), outcome := Broken)
      else m.(view := Taken(world, v))
  }

  function FileStep(m: Mix, left: seq<short>): Mix {
    var v := m.view;
    if |left| < m.slots then Lay(m, Ended(v, left, 0, PlayedOut), left, m.slots - |left|)
    else Lay(m, Continued(v, left[..m.slots], 0, FilePart(left[m.slots..])), left[..m.slots], 0)
  }

  function SleepStep(m: Mix, left: int): Mix {
    var v := m.view;
    if left < m.slots then m.(view := Ended(v, [], left, PlayedOut), slept := m.slept + left, slots := m.slots - left)
    else m.(view := Continued(v, [], m.slots, SleepPart(left - m.slots)), slept := m.slept + m.slots, slots := 0)
  }

  /** The first merge of a synthesis announces a duration, the first samples that it plays. */
  function SpeechEvents(before: Speech, after: Speech): seq<Event> {
    (if before.announced then [] else [Duration]) +
    (if !before.reached && after.reached then [StreamingStarted] else [])
  }

  function SpeechTurn(v: View, speech: Speech, s: SpeechMerge): View {
    var logged := v.(events := v.events + SpeechEvents(speech, s.speech));
    if !s.stopped then Continued(logged, s.added, 0, SpeechPart(s.speech))
    else Ended(logged, s.added, 0, if s.result.Failed? then Broke else PlayedOut)
  }

  function SpeechStep(m: Mix, speech: Speech): Mix {
    var s := MergeSpeech(speech.(announced := true), m.slots);
    var view := SpeechTurn(m.view, speech, s);
    var laid := Lay(m, view, s.added, s.slots).(underrun := m.underrun + Idled(m.slots, s));
    if s.result.Failed? then laid.(view := Dropped(view, SynthesisFailed), outcome := Broken)
    else if s.result.Waiting? && !s.stopped && s.slots > 0 && speech.arrivals == [] then laid.(outcome := Stuck)
    else laid
  }

  /** The slots a synthesis source leaves silent. */
  function Idled(slots: nat, s: SpeechMerge): nat {
    var used := |s.added| + s.slots;
    if used <= slots then slots - used else 0
  }

  /** One step of the merge loop: a command taken, or a merge of the source. */
  function Step(world: World, m: Mix): Mix {
    if m.view.part.None? then TakeStep(world, m)
    else
      match m.view.part.value
      case FilePart(left) => FileStep(m, left)
      case SleepPart(left) => SleepStep(m, left)
      case SpeechPart(speech) => SpeechStep(m, speech)
  }

  function Polls(part: Option<Part>): nat {
    if part.Some? && part.value.SpeechPart? then |part.value.speech.arrivals| else 0
  }

  lemma ArrivalsShrink(s: Speech, slots: nat)
    ensures |MergeSpeech(s, slots).speech.arrivals| <= |s.arrivals|
    ensures var m := MergeSpeech(s, slots);
      m.result.Waiting? && m.slots > 0 && s.arrivals != [] ==> |m.speech.arrivals| < |s.arrivals|
    ensures var m := MergeSpeech(s, slots);
      |m.added| <= slots && m.slots <= slots && |m.added| + m.slots <= slots
    ensures var m := MergeSpeech(s, slots);
      && (m.result.Merged? ==> m.slots == 0 && !m.stopped)
      && (m.result.Failed? ==> m.stopped && |m.added| + m.slots == slots)
      && (m.result.Waiting? ==> m.added == [] && (m.slots == slots || m.slots == 0))
  {
    hide Run, ToSamples, Speech.Refill, Speech.Ended;
    RefillShrinks(s);
    var r := s.(buffered := None).Refill();
    assert s.buffered.None? ==> s.(buffered := None) == s;
    RefillShrinks(r);
  }

  lemma RefillShrinks(s: Speech)
    ensures |s.(buffered := None).Refill().arrivals| == if s.arrivals == [] then 0 else |s.arrivals| - 1
  {
    hide Run, ToSamples, Speech.Enough;
  }

  /** The merge loop, until the slots are used up or there is nothing more to do. */
  function MergeAll(world: World, m: Mix): Mix
    decreases if m.slots == 0 || m.outcome != Merging then 0 else 1, |m.view.waiting|,
              if m.view.part.Some? then 1 else 0, Polls(m.view.part), m.slots
  {
    if m.slots == 0 || m.outcome != Merging then m
    else
      StepDecreases(world, m);
      MergeAll(world, Step(world, m))
  }

  lemma StepDecreases(world: World, m: Mix)
    requires m.slots > 0 && m.outcome == Merging
    ensures var s := Step(world, m);
      s.slots == 0 || s.outcome != Merging || |s.view.waiting| < |m.view.waiting| ||
      (s.view.waiting == m.view.waiting && m.view.part.Some? &&
       (s.view.part.None? || Polls(s.view.part) < Polls(m.view.part)))
  {
    hide MergeSpeech, StartOf, StartEvents, Parse;
    if m.view.part.Some? && m.view.part.value.SpeechPart? {
      ArrivalsShrink(m.view.part.value.speech.(announced := true), m.slots);
    }
  }

  /** A pass starts with a whole frame of slots; a pending override takes effect first. */
  function Begun(v: View): Mix {
    Mix(Overridden(v), [], [], 0, 0, FRAME_SAMPLES, Merging)
  }

  function PassMix(world: World, v: View): Mix {
    MergeAll(world, Begun(v))
  }

  /** A source that was there before a pass and is gone after it has finished. */
  function Pass(world: World, v: View): View {
    var after := PassMix(world, v).view;
    if v.part.Some? && after.part.None? then after.(events := after.events + [Finished]) else after
  }

  /** Commands were left over, so there is another pass over the same frame. */
  predicate Again(v: View) {
    v.part.None? && v.waiting != []
  }

  datatype Ticked = Ticked(view: View, laid: seq<short>)

  function TickOf(world: World, v: View): Ticked {
    var first := Pass(world, v);
    if Again(first) then Ticked(Pass(world, first), PassMix(world, first).laid)
    else Ticked(first, PassMix(world, v).laid)
  }

  lemma MergeOn(world: World, m: Mix)
    requires m.slots > 0 && m.outcome == Merging
    ensures MergeAll(world, m) == MergeAll(world, Step(world, m))
  {
  }

  ghost predicate Preserves(world: World, kept: Mix -> bool) {
    forall m :: kept(m) && m.slots > 0 && m.outcome == Merging ==> kept(Step(world, m))
  }

  /** What every step keeps holds of the whole merge. */
  lemma {:induction false} Kept(world: World, kept: Mix -> bool, m: Mix)
    requires kept(m) && Preserves(world, kept)
    ensures kept(MergeAll(world, m))
    decreases if m.slots == 0 || m.outcome != Merging then 0 else 1, |m.view.waiting|,
              if m.view.part.Some? then 1 else 0, Polls(m.view.part), m.slots
  {
    hide Step;
    if m.slots > 0 && m.outcome == Merging {
      StepDecreases(world, m);
      Kept(world, kept, Step(world, m));
    }
  }

  // ---------------------------------------------------------------- slots

  /** Where the slots of a pass went. */
  ghost predicate Accounted(m: Mix) {
    |m.laid| + m.slept + m.underrun + m.slots == FRAME_SAMPLES
  }

  lemma StepAccounts(world: World, m: Mix)
    requires Accounted(m) && m.slots > 0
    ensures Accounted(Step(world, m))
  {
    hide MergeSpeech, StartOf, StartEvents, Parse;
    if m.view.part.Some? && m.view.part.value.SpeechPart? {
      ArrivalsShrink(m.view.part.value.speech.(announced := true), m.slots);
    }
  }

  /** Every slot of a pass is a sample laid, sleep, underrun, or left over. */
  lemma SlotsAccounted(world: World, v: View)
    ensures Accounted(PassMix(world, v))
  {
    var kept := (m: Mix) => Accounted(m);
    forall m: Mix | kept(m) && m.slots > 0 && m.outcome == Merging
      ensures kept(Step(world, m))
    {
      StepAccounts(world, m);
    }
    Kept(world, kept, Begun(v));
  }

  /** A playing synthesis that has used up its frame and finds less than its estimate queued, and no
      end, leaves the whole next frame silent and the bytes in the queue. */
  lemma PassHeldBack(world: World, v: View)
    requires !v.override && v.part.Some? && v.part.value.SpeechPart?
    requires var s := v.part.value.speech;
      s.reached && s.buffered.None? && AllSends(s.arrivals) &&
      var q := Polled(s.Now(), s.Batch());
      |q.received| / 2 < s.estimate && !q.terminationCalled
    ensures var m, s := PassMix(world, v), v.part.value.speech;
      && m.laid == [] && m.underrun == FRAME_SAMPLES
      && m.view.part.Some? && m.view.part.value.SpeechPart?
      && m.view.part.value.speech.Now() == Polled(s.Now(), s.Batch())
  {
    hide MergeAll, MergeSpeech, Polled, Run, AllSends;
    var m := Begun(v);
    var speech := v.part.value.speech.(announced := true);
    assert speech.Now() == v.part.value.speech.Now() && speech.Batch() == v.part.value.speech.Batch();
    HeldBack(speech, m.slots);
    MergeOn(world, m);
    MergeDone(world, Step(world, m));
    assert m.laid + [] == m.laid;
  }

  /** Slots stay silent only when nothing is buffered and the queue has not enough for a frame;
      so `estimate` holds back every refill, not only the first. */
  lemma UnderrunIsEmpty(s: Speech, slots: nat)
    ensures var m := MergeSpeech(s, slots);
      Idled(slots, m) > 0 ==> m.slots == 0 && m.speech.Unplayed() == [] && !m.speech.Enough()
  {
    hide Run, ToSamples, Speech.Refill, Speech.Enough, Speech.Ended;
    assert s.buffered.None? ==> s.(buffered := None) == s;
    RefillLeaves(s);
    var r := s.(buffered := None).Refill();
    RefillLeaves(r);
    ArrivalsShrink(s, slots);
    NotEnough(r, MergeSpeech(s, slots).speech);
    NotEnough(r.(buffered := None).Refill(), MergeSpeech(s, slots).speech);
  }

  /** A refill leaves too little for another frame. */
  lemma RefillLeaves(s: Speech)
    ensures !s.(buffered := None).Refill().Enough()
  {
    hide Run, ToSamples;
    TakeIs(s.(buffered := None).Poll());
  }

  lemma NotEnough(s: Speech, t: Speech)
    ensures t == s.(buffered := t.buffered) ==> s.Enough() == t.Enough()
  {
  }

  /** After an underrun the pass is over, and a source that is still there is a synthesis with
      nothing to mix. */
  ghost predicate Starved(m: Mix) {
    m.underrun > 0 ==>
      && m.slots == 0
      && (m.view.part.Some? ==>
            && m.view.part.value.SpeechPart?
            && m.view.part.value.speech.Unplayed() == [] && !m.view.part.value.speech.Enough())
  }

  lemma StepStarved(world: World, m: Mix)
    requires Starved(m) && m.slots > 0 && m.outcome == Merging
    ensures Starved(Step(world, m))
  {
    hide MergeSpeech, StartOf, StartEvents, Idled, Speech.Unplayed, Speech.Enough;
    if m.view.part.Some? && m.view.part.value.SpeechPart? {
      UnderrunIsEmpty(m.view.part.value.speech.(announced := true), m.slots);
    }
  }

  lemma UnderrunStarved(world: World, v: View)
    ensures Starved(PassMix(world, v))
  {
    var kept := (m: Mix) => Starved(m);
    forall m: Mix | kept(m) && m.slots > 0 && m.outcome == Merging
      ensures kept(Step(world, m))
    {
      StepStarved(world, m);
    }
    Kept(world, kept, Begun(v));
  }

  /** The merge comes to an end and stays within the frame. */
  ghost predicate Completes(world: World, m: Mix) {
    MergeAll(world, m).outcome != Stuck && |MergeAll(world, m).laid| <= FRAME_SAMPLES
  }

  ghost predicate TickCompletes(world: World, v: View) {
    Completes(world, Begun(v)) && (Again(Pass(world, v)) ==> Completes(world, Begun(Pass(world, v))))
  }

  lemma StepCompletes(world: World, m: Mix)
    requires Completes(world, m) && m.slots > 0 && m.outcome == Merging
    ensures Step(world, m).outcome != Stuck && |Step(world, m).laid| <= FRAME_SAMPLES
  {
    hide Step, MergeAll;
    MergeOn(world, m);
    LaidContinues(world, Step(world, m));
    if Step(world, m).outcome == Stuck {
      MergeDone(world, Step(world, m));
    }
  }

  // ---------------------------------------------------------------- commands

  /** The commands taken are the next ones waiting; the others still wait, or were dropped
      after a failure. */
  ghost predicate Consumes(
      taken: seq<string>, taken': seq<string>, waiting: seq<string>, waiting': seq<string>, dropped: bool)
  {
    var k := |taken'| - |taken|;
    && 0 <= k <= |waiting| && taken' == taken + waiting[..k]
    && waiting' == if dropped then [] else waiting[k..]
  }

  lemma ConsumesMore(taken: seq<string>, taken': seq<string>, taken'': seq<string>,
      waiting: seq<string>, waiting': seq<string>, waiting'': seq<string>, dropped: bool, dropped': bool)
    requires Consumes(taken, taken', waiting, waiting', dropped)
    requires Consumes(taken', taken'', waiting', waiting'', dropped')
    ensures Consumes(taken, taken'', waiting, waiting'', dropped || dropped')
  {
    var k, l := |taken'| - |taken|, |taken''| - |taken'|;
    if !dropped {
      TwoSlices(waiting, k, l);
      Join(taken, waiting[..k], waiting[k..][..l]);
    }
  }

  lemma TwoSlices<T>(s: seq<T>, k: nat, l: nat)
    requires k + l <= |s|
    ensures s[..k + l] == s[..k] + s[k..][..l] && s[k..][l..] == s[k + l..]
  {
  }

  ghost predicate ViewConsumes(v: View, w: View, dropped: bool) {
    Consumes(CommandsOf(v.turns), CommandsOf(w.turns), v.waiting, w.waiting, dropped)
  }

  lemma PlayedCommands(turns: seq<Turn>, added: seq<short>, slept: int, end: End)
    ensures CommandsOf(Played(turns, added, slept, end)) == CommandsOf(turns)
  {
  }

  lemma TakenCommands(world: World, v: View)
    ensures ViewConsumes(v, Taken(world, v), false)
    ensures v.waiting != [] ==> CommandsOf(Taken(world, v).turns) == CommandsOf(v.turns) + [v.waiting[0]]
  {
    hide StartOf, StartEvents;
  }

  /** What a merge of the source does to the turns: the present one goes on or ends. */
  lemma MergeShape(world: World, m: Mix) returns (added: seq<short>, slept: int, end: End)
    requires m.view.part.Some? && m.slots > 0 && m.outcome == Merging
    ensures var s := Step(world, m);
      && s.view.turns == Played(m.view.turns, added, slept, end) && s.laid == m.laid + added
      && s.due == m.due + SlotsFrom(FRAME_SAMPLES - m.slots, |added|) && s.slept == m.slept + slept
      && s.view.part.Some? == end.Going? && !end.NeverBegan? && !end.CutOff? && s.view.override == m.view.override
      && s.view.waiting == (if s.outcome == Broken then [] else m.view.waiting)
      && (s.outcome == Broken ==> s.view.part.None?) && !s.outcome.Idle?
  {
    hide MergeSpeech, StartOf, StartEvents, Played;
    var s := Step(world, m);
    assert m.laid + [] == m.laid && m.due + SlotsFrom(FRAME_SAMPLES - m.slots, 0) == m.due;
    slept := 0;
    match m.view.part.value
    case FilePart(left) =>
      added := if |left| < m.slots then left else left[..m.slots];
      end := if |left| < m.slots then PlayedOut else Going;
    case SleepPart(left) =>
      added, end := [], if left < m.slots then PlayedOut else Going;
      slept := if left < m.slots then left else m.slots;
    case SpeechPart(speech) =>
      var r := MergeSpeech(speech.(announced := true), m.slots);
      ArrivalsShrink(speech.(announced := true), m.slots);
      added, end := r.added, if !r.stopped then Going else if r.result.Failed? then Broke else PlayedOut;
  }

  lemma StepConsumes(world: World, m: Mix)
    requires m.slots > 0 && m.outcome == Merging
    ensures ViewConsumes(m.view, Step(world, m).view, Step(world, m).outcome == Broken)
  {
    hide Step, StartOf, StartEvents, CommandsOf;
    if m.view.part.Some? {
      var added, slept, end := MergeShape(world, m);
      PlayedCommands(m.view.turns, added, slept, end);
    } else {
      TakenCommands(world, m.view);
      StepTakes(world, m);
    }
  }

  lemma StepTakes(world: World, m: Mix)
    requires m.view.part.None?
    ensures Step(world, m) == TakeStep(world, m)
  {
  }

  lemma OverrideConsumes(v: View)
    ensures ViewConsumes(v, Overridden(v), false)
  {
    PlayedCommands(v.turns, [], 0, CutOff);
  }

  /** A pass takes commands from the front of the list; the others wait on, or are dropped after
      a failure. */
  lemma PassConsumes(world: World, v: View)
    ensures ViewConsumes(v, Pass(world, v), PassMix(world, v).outcome == Broken)
  {
    var kept := (m: Mix) => ViewConsumes(v, m.view, m.outcome == Broken);
    forall m: Mix | kept(m) && m.slots > 0 && m.outcome == Merging
      ensures kept(Step(world, m))
    {
      StepConsumes(world, m);
      var w := Step(world, m).view;
      ConsumesMore(CommandsOf(v.turns), CommandsOf(m.view.turns), CommandsOf(w.turns),
        v.waiting, m.view.waiting, w.waiting, false, Step(world, m).outcome == Broken);
    }
    OverrideConsumes(v);
    Kept(world, kept, Begun(v));
  }

  // ---------------------------------------------------------------- samples

  function AllMixed(turns: seq<Turn>): seq<short> {
    if turns == [] then [] else AllMixed(turns[..|turns| - 1]) + turns[|turns| - 1].mixed
  }

  /** The slots all turns slept. */
  function AllSlept(turns: seq<Turn>): int {
    if turns == [] then 0 else AllSlept(turns[..|turns| - 1]) + turns[|turns| - 1].slept
  }

  lemma PlayedMixed(turns: seq<Turn>, added: seq<short>, slept: int, end: End)
    requires turns != []
    ensures AllMixed(Played(turns, added, slept, end)) == AllMixed(turns) + added
    ensures AllSlept(Played(turns, added, slept, end)) == AllSlept(turns) + slept
  {
    var played, last := Played(turns, added, slept, end), turns[|turns| - 1];
    assert played[..|played| - 1] == turns[..|turns| - 1];
    assert AllMixed(turns[..|turns| - 1]) + (last.mixed + added) == AllMixed(turns) + added;
  }

  lemma TurnAdded(turns: seq<Turn>, turn: Turn)
    ensures AllMixed(turns + [turn]) == AllMixed(turns) + turn.mixed
    ensures AllSlept(turns + [turn]) == AllSlept(turns) + turn.slept
  {
    assert (turns + [turn])[..|turns|] == turns;
  }

  /** A pass moves samples from the sources to the frame and to the turns alike, and so slots to
      the sleeps. */
  ghost predicate LaidInTurn(v: View, m: Mix) {
    && (m.view.part.Some? ==> m.view.turns != [])
    && AllMixed(m.view.turns) == AllMixed(v.turns) + m.laid
    && AllSlept(m.view.turns) == AllSlept(v.turns) + m.slept
  }

  lemma StepLaid(world: World, v: View, m: Mix)
    requires LaidInTurn(v, m) && m.slots > 0 && m.outcome == Merging
    ensures LaidInTurn(v, Step(world, m))
  {
    hide Step, StartOf, StartEvents, AllMixed, AllSlept;
    if m.view.part.Some? {
      var added, slept, end := MergeShape(world, m);
      PlayedMixed(m.view.turns, added, slept, end);
    } else {
      StepTakes(world, m);
      if m.view.waiting != [] {
        var start := StartOf(world, |m.view.turns|, m.view.waiting[0]);
        TurnAdded(m.view.turns, Turn(m.view.waiting[0], [], 0, if start.Begins? then Going else NeverBegan));
      }
    }
  }

  /** The samples of the turns grow by exactly what is laid into the frame, and the slots they
      slept by those of the pass. */
  lemma PassLaid(world: World, v: View)
    requires v.part.Some? ==> v.turns != []
    ensures AllMixed(Pass(world, v).turns) == AllMixed(v.turns) + PassMix(world, v).laid
    ensures AllSlept(Pass(world, v).turns) == AllSlept(v.turns) + PassMix(world, v).slept
    ensures Pass(world, v).part.Some? ==> Pass(world, v).turns != []
  {
    hide AllMixed, AllSlept, Step, MergeAll;
    var kept := (m: Mix) => LaidInTurn(v, m);
    forall m: Mix | kept(m) && m.slots > 0 && m.outcome == Merging
      ensures kept(Step(world, m))
    {
      StepLaid(world, v, m);
    }
    BegunLaid(v);
    Kept(world, kept, Begun(v));
  }

  lemma BegunLaid(v: View)
    requires v.part.Some? ==> v.turns != []
    ensures LaidInTurn(v, Begun(v))
  {
    hide AllMixed, AllSlept;
    assert AllMixed(v.turns) + [] == AllMixed(v.turns);
    if v.part.Some? {
      PlayedMixed(v.turns, [], 0, CutOff);
    }
  }

  /** What a source that was started offers, if nothing cuts it off. */
  function Whole(part: Part): seq<short> {
    match part
    case FilePart(samples) => samples
    case SleepPart(_) => []
    case SpeechPart(speech) => ToSamples(Offered(Flat(speech.arrivals)))
  }

  /** `part` is what is left of the started one after the turn so far. */
  ghost predicate Remains(start: Start, turn: Turn, part: Part) {
    && start.Begins?
    && match part
       case FilePart(left) => start.part.FilePart? && turn.mixed + left == start.part.samples
       case SleepPart(left) => start.part.SleepPart? && turn.slept + left == start.part.count
       case SpeechPart(speech) =>
         start.part.SpeechPart? && speech.Sound(Flat(start.part.speech.arrivals), turn.mixed)
  }

  /** A sleep that played out slept exactly its count, any other no more; nothing else sleeps. */
  ghost predicate SleptWell(part: Part, turn: Turn) {
    if !part.SleepPart? then turn.slept == 0
    else if turn.end.PlayedOut? then turn.slept == part.count
    else turn.slept == 0 || 0 < turn.slept <= part.count
  }

  ghost predicate EndsWith(part: Part, success: bool) {
    part.SpeechPart? ==> FirstTerminate(Flat(part.speech.arrivals)) == Some(success)
  }

  /** Every push of a synthesis carries data. */
  ghost predicate CarriesData(part: Part) {
    part.SpeechPart? ==> PushesCarryData(Flat(part.speech.arrivals))
  }

  /** What is mixed is the beginning of what the command's source offers, and all of it unless
      the source is still going or was cut off. A source breaks exactly if its sender says so. */
  ghost predicate Faithful(start: Start, turn: Turn) {
    if !start.Begins? then turn.end.NeverBegan? && turn.mixed == [] && turn.slept == 0
    else
      && !turn.end.NeverBegan? && turn.mixed <= Whole(start.part) && SleptWell(start.part, turn)
      && (turn.end.Broke? ==> start.part.SpeechPart?)
      && (turn.end.PlayedOut? || turn.end.Broke? ==> CarriesData(start.part) ==>
            turn.mixed == Whole(start.part) && EndsWith(start.part, turn.end.PlayedOut?))
  }

  ghost predicate TurnsSound(world: World, turns: seq<Turn>) {
    forall i :: 0 <= i < |turns| ==> Faithful(StartOf(world, i, turns[i].command), turns[i])
  }

  /** At most the last turn is going, and then what remains of its source is the present part. */
  ghost predicate PartSound(world: World, v: View) {
    && (forall i :: 0 <= i < |v.turns| && v.turns[i].end.Going? ==> i == |v.turns| - 1 && v.part.Some?)
    && (v.part.Some? ==>
          && v.turns != []
          && var last := v.turns[|v.turns| - 1];
             last.end.Going? && Remains(StartOf(world, |v.turns| - 1, last.command), last, v.part.value))
  }

  ghost predicate Sound(world: World, v: View) {
    TurnsSound(world, v.turns) && PartSound(world, v)
  }

  lemma PlayedSound(world: World, v: View, added: seq<short>, slept: int, end: End, part: Option<Part>)
    requires Sound(world, v) && v.part.Some? && !end.NeverBegan? && part.Some? == end.Going?
    requires var last := v.turns[|v.turns| - 1];
      var start := StartOf(world, |v.turns| - 1, last.command);
      var turn := Turn(last.command, last.mixed + added, last.slept + slept, end);
      && Faithful(start, turn) && (part.Some? ==> Remains(start, turn, part.value))
    ensures Sound(world, v.(part := part, turns := Played(v.turns, added, slept, end)))
  {
    hide StartOf, Faithful, Remains;
  }

  lemma TakenSound(world: World, v: View)
    requires Sound(world, v) && v.part.None? && v.waiting != []
    ensures Sound(world, Taken(world, v))
  {
    hide StartOf, StartEvents, Remains, Faithful;
    var n, command := |v.turns|, v.waiting[0];
    StartSound(world, n, command);
    forall i | 0 <= i < |v.turns|
      ensures !v.turns[i].end.Going?
    {
    }
  }

  lemma StartSound(world: World, n: nat, command: string)
    ensures var start := StartOf(world, n, command);
      var turn := Turn(command, [], 0, if start.Begins? then Going else NeverBegan);
      Faithful(start, turn) && (start.Begins? ==> Remains(start, turn, start.part))
  {
    hide Parse, SleepSamples, Run, PolledAll, ToSamples;
    var start := StartOf(world, n, command);
    if start.Begins? && start.part.FilePart? {
      assert [] + start.part.samples == start.part.samples;
    } else if start.Begins? && start.part.SpeechPart? {
      StartSends(world, n, command);
      FreshSound(start.part.speech.arrivals, start.part.speech.estimate);
    }
  }

  lemma StartSends(world: World, n: nat, command: string)
    ensures var start := StartOf(world, n, command);
      start.Begins? && start.part.SpeechPart? ==> AllSends(start.part.speech.arrivals)
  {
    hide Parse, SleepSamples, ParsedTimeout;
    if Parse(world, command).Speak? {
      OnlySenderOps(world.job(n, Parse(world, command).say).arrivals);
    }
  }

  lemma FreshSound(arrivals: seq<seq<Op>>, estimate: nat)
    requires AllSends(arrivals)
    ensures NewSpeech(arrivals, estimate).Sound(Flat(arrivals), [])
  {
    assert ToBytes([] + []) == [];
    assert Sent([]) + Flat(arrivals) == Flat(arrivals);
  }

  lemma SoundOf(world: World, v: View, w: View)
    requires Sound(world, v) && w.part == v.part && w.turns == v.turns
    ensures Sound(world, w)
  {
    hide Faithful, Remains, StartOf;
  }

  /** What the present turn of a sound view stands for. */
  lemma PresentTurn(world: World, v: View) returns (start: Start, turn: Turn)
    requires Sound(world, v) && v.part.Some?
    ensures v.turns != [] && turn == v.turns[|v.turns| - 1] && start == StartOf(world, |v.turns| - 1, turn.command)
    ensures turn.end.Going? && Faithful(start, turn) && Remains(start, turn, v.part.value)
  {
    hide Faithful, Remains, StartOf;
    turn := v.turns[|v.turns| - 1];
    start := StartOf(world, |v.turns| - 1, turn.command);
  }

  lemma FileStepSound(world: World, m: Mix)
    requires Sound(world, m.view) && m.view.part.Some? && m.view.part.value.FilePart?
    ensures Sound(world, FileStep(m, m.view.part.value.samples).view)
  {
    hide Sound, StartOf;
    var start, turn := PresentTurn(world, m.view);
    var left := m.view.part.value.samples;
    var k := if |left| < m.slots then |left| else m.slots;
    assert left == left[..k] + left[k..];
    assert turn.mixed + left == turn.mixed + left[..k] + left[k..];
    if |left| < m.slots {
      PlayedSound(world, m.view, left, 0, PlayedOut, None);
    } else {
      PlayedSound(world, m.view, left[..k], 0, Going, Some(FilePart(left[k..])));
    }
  }

  lemma SleptTurn(start: Start, turn: Turn, left: int, slots: nat)
    requires Faithful(start, turn) && turn.end.Going? && Remains(start, turn, SleepPart(left))
    ensures if left < slots then Faithful(start, Turn(turn.command, turn.mixed + [], turn.slept + left, PlayedOut))
      else
        var slept := Turn(turn.command, turn.mixed + [], turn.slept + slots, Going);
        Faithful(start, slept) && Remains(start, slept, SleepPart(left - slots))
  {
    assert turn.mixed + [] == turn.mixed && Whole(start.part) == [];
  }

  lemma SleepStepSound(world: World, m: Mix)
    requires Sound(world, m.view) && m.view.part.Some? && m.view.part.value.SleepPart?
    ensures Sound(world, SleepStep(m, m.view.part.value.count).view)
  {
    hide Sound, StartOf, Played, Faithful, Remains;
    var start, turn := PresentTurn(world, m.view);
    var left := m.view.part.value.count;
    SleptTurn(start, turn, left, m.slots);
    if left < m.slots {
      PlayedSound(world, m.view, [], left, PlayedOut, None);
    } else {
      PlayedSound(world, m.view, [], m.slots, Going, Some(SleepPart(left - m.slots)));
    }
  }

  lemma AnnouncedSound(speech: Speech, script: seq<Op>, mixed: seq<short>)
    requires speech.Sound(script, mixed)
    ensures speech.(announced := true).Sound(script, mixed)
  {
    hide Run, Sent, Flat, ToBytes;
  }

  lemma SpeechStepSound(world: World, m: Mix)
    requires Sound(world, m.view) && m.view.part.Some? && m.view.part.value.SpeechPart?
    ensures Sound(world, SpeechStep(m, m.view.part.value.speech).view)
  {
    hide Sound, StartOf, Speech.Sound, MergeSpeech, Offered, ToSamples, PushesCarryData, Flat, FirstTerminate;
    var start, turn := PresentTurn(world, m.view);
    var speech := m.view.part.value.speech.(announced := true);
    var script := Flat(start.part.speech.arrivals);
    var s := MergeSpeech(speech, m.slots);
    AnnouncedSound(m.view.part.value.speech, script, turn.mixed);
    MergeSound(speech, m.slots, script, turn.mixed);
    MixedIsOffered(s.speech, script, turn.mixed + s.added);
    if PushesCarryData(script) {
      StoppedHasPlayedAll(speech, m.slots, script, turn.mixed);
    }
    ArrivalsShrink(speech, m.slots);
    var end := if !s.stopped then Going else if s.result.Failed? then Broke else PlayedOut;
    var part := if s.stopped then None else Some(SpeechPart(s.speech));
    PlayedSound(world, m.view, s.added, 0, end, part);
    SoundOf(world, m.view.(part := part, turns := Played(m.view.turns, s.added, 0, end)),
      SpeechStep(m, m.view.part.value.speech).view);
  }

  lemma StepSound(world: World, m: Mix)
    requires Sound(world, m.view) && m.slots > 0 && m.outcome == Merging
    ensures Sound(world, Step(world, m).view)
  {
    hide Sound, FileStep, SleepStep, SpeechStep, StartOf, StartEvents;
    if m.view.part.None? {
      if m.view.waiting != [] {
        TakenSound(world, m.view);
        SoundOf(world, Taken(world, m.view), Step(world, m).view);
      }
    } else {
      match m.view.part.value
      case FilePart(_) => FileStepSound(world, m);
      case SleepPart(_) => SleepStepSound(world, m);
      case SpeechPart(_) => SpeechStepSound(world, m);
    }
  }

  lemma OverriddenSound(world: World, v: View)
    requires Sound(world, v)
    ensures Sound(world, Overridden(v))
  {
    hide Sound, StartOf, Played;
    SoundOf(world, v, v.(override := false));
    if v.part.Some? {
      var start, turn := PresentTurn(world, v);
      assert turn.mixed + [] == turn.mixed;
      PlayedSound(world, v, [], 0, CutOff, None);
      var cut := Ended(v, [], 0, CutOff);
      SoundOf(world, cut, cut.(override := false));
    }
  }

  /** Every pass keeps what the turns say faithful to what the commands offer. */
  lemma PassSound(world: World, v: View)
    requires Sound(world, v)
    ensures Sound(world, Pass(world, v))
  {
    hide Sound;
    var kept := (m: Mix) => Sound(world, m.view);
    forall m: Mix | kept(m) && m.slots > 0 && m.outcome == Merging
      ensures kept(Step(world, m))
    {
      StepSound(world, m);
    }
    OverriddenSound(world, v);
    Kept(world, kept, Begun(v));
    SoundOf(world, PassMix(world, v).view, Pass(world, v));
  }

  // ---------------------------------------------------------------- only an override cuts off

  /** Of the turns there were, those at their end stay as they are and the present one goes on;
      it is cut off if `cut`, and no other is. */
  ghost predicate Follows(turns: seq<Turn>, turns': seq<Turn>, cut: bool) {
    && |turns| <= |turns'|
    && (forall i :: 0 <= i < |turns| ==>
          turns'[i].command == turns[i].command && turns[i].mixed <= turns'[i].mixed &&
          (!turns[i].end.Going? || cut ==>
             turns'[i].mixed == turns[i].mixed && turns'[i].slept == turns[i].slept))
    && (forall i :: 0 <= i < |turns| && !turns[i].end.Going? ==> turns'[i].end == turns[i].end)
    && (forall i :: 0 <= i < |turns| && turns[i].end.Going? ==> turns'[i].end.CutOff? == cut)
    && (forall i :: |turns| <= i < |turns'| ==> !turns'[i].end.CutOff?)
  }

  lemma FollowsSame(turns: seq<Turn>)
    ensures Follows(turns, turns, false)
  {
  }

  lemma FollowsMore(a: seq<Turn>, b: seq<Turn>, c: seq<Turn>, cut: bool)
    requires Follows(a, b, cut) && Follows(b, c, false)
    ensures Follows(a, c, cut)
  {
    forall i | 0 <= i < |a|
      ensures c[i].command == a[i].command && a[i].mixed <= c[i].mixed
    {
      assert b[i].command == a[i].command;
    }
  }

  lemma PlayedFollows(turns: seq<Turn>, added: seq<short>, slept: int, end: End)
    requires turns != [] ==> turns[|turns| - 1].end.Going?
    requires end.CutOff? ==> added == [] && slept == 0
    requires forall i :: 0 <= i < |turns| && turns[i].end.Going? ==> i == |turns| - 1
    ensures Follows(turns, Played(turns, added, slept, end), end.CutOff?)
  {
  }

  ghost predicate OneGoing(v: View) {
    && (forall i :: 0 <= i < |v.turns| && v.turns[i].end.Going? ==> i == |v.turns| - 1 && v.part.Some?)
    && (v.part.Some? ==> v.turns != [] && v.turns[|v.turns| - 1].end.Going?)
  }

  lemma StepFollows(world: World, m: Mix)
    requires OneGoing(m.view) && m.slots > 0 && m.outcome == Merging
    ensures OneGoing(Step(world, m).view) && Follows(m.view.turns, Step(world, m).view.turns, false)
  {
    hide Step, StartOf, StartEvents;
    FollowsSame(m.view.turns);
    if m.view.part.Some? {
      var added, slept, end := MergeShape(world, m);
      PlayedFollows(m.view.turns, added, slept, end);
    } else {
      StepTakes(world, m);
    }
  }

  /** In a pass a source is cut off exactly if an override was pending, and before anything more
      was mixed from it. */
  lemma PassFollows(world: World, v: View)
    requires OneGoing(v)
    ensures OneGoing(Pass(world, v)) && Follows(v.turns, Pass(world, v).turns, v.override && v.part.Some?)
  {
    hide Follows;
    var cut := v.override && v.part.Some?;
    var kept := (m: Mix) => OneGoing(m.view) && Follows(v.turns, m.view.turns, cut);
    forall m: Mix | kept(m) && m.slots > 0 && m.outcome == Merging
      ensures kept(Step(world, m))
    {
      StepFollows(world, m);
      FollowsMore(v.turns, m.view.turns, Step(world, m).view.turns, cut);
    }
    FollowsSame(v.turns);
    if cut {
      PlayedFollows(v.turns, [], 0, CutOff);
    }
    Kept(world, kept, Begun(v));
  }

  // ---------------------------------------------------------------- the log

  /** A source was started since the last Finished event. */
  function Open(events: seq<Event>): bool {
    events != [] &&
    var last := events[|events| - 1];
    last.SourceStarted? || (!last.Finished? && Open(events[..|events| - 1]))
  }

  /** Each Finished event has a source start between it and the one before. */
  ghost predicate Separated(events: seq<Event>) {
    forall i :: 0 <= i < |events| && events[i].Finished? ==> Open(events[..i])
  }

  function Finishes(events: seq<Event>): nat {
    if events == [] then 0
    else Finishes(events[..|events| - 1]) + if events[|events| - 1].Finished? then 1 else 0
  }

  /** Between two Finished events a source was started. */
  lemma StartBetween(events: seq<Event>, i: nat, j: nat)
    requires Separated(events) && i < j < |events| && events[i].Finished? && events[j].Finished?
    ensures exists k :: i < k < j && events[k].SourceStarted?
  {
    assert Open(events[..j]);
    LastStart(events, i, j);
  }

  lemma {:induction false} LastStart(events: seq<Event>, i: nat, j: nat)
    requires i < j <= |events| && events[i].Finished? && Open(events[..j])
    ensures exists k :: i < k < j && events[k].SourceStarted?
    decreases j
  {
    var last := events[..j][j - 1];
    if !last.SourceStarted? {
      assert events[..j][..j - 1] == events[..j - 1];
      LastStart(events, i, j - 1);
    }
  }

  lemma EventAdded(events: seq<Event>, event: Event)
    requires Separated(events) && (event.Finished? ==> Open(events))
    ensures Separated(events + [event])
    ensures Open(events + [event]) == (event.SourceStarted? || (!event.Finished? && Open(events)))
    ensures Finishes(events + [event]) == Finishes(events) + if event.Finished? then 1 else 0
  {
    var more := events + [event];
    assert more[..|events|] == events;
    forall i | 0 <= i < |more| && more[i].Finished?
      ensures Open(more[..i])
    {
      assert more[..i] == events[..i];
    }
  }

  ghost predicate NoFinish(events: seq<Event>) {
    forall i :: 0 <= i < |events| ==> !events[i].Finished?
  }

  lemma {:induction false} EventsAdded(events: seq<Event>, more: seq<Event>)
    requires Separated(events) && NoFinish(more)
    ensures Separated(events + more) && Finishes(events + more) == Finishes(events)
    ensures Open(events + more) == (Open(events) || exists i :: 0 <= i < |more| && more[i].SourceStarted?)
  {
    hide Separated, Finishes, Open;
    if more == [] {
      assert events + more == events;
    } else {
      var before, last := more[..|more| - 1], more[|more| - 1];
      assert events + more == events + before + [last];
      EventsAdded(events, before);
      EventAdded(events + before, last);
      if i :| 0 <= i < |before| && before[i].SourceStarted? {
        assert more[i].SourceStarted?;
      }
    }
  }

  /** Every event but Finished is published while mixing. */
  ghost predicate Logged(v: View, m: View) {
    && v.events <= m.events && Separated(m.events) && Finishes(m.events) == Finishes(v.events)
    && (m.part.Some? ==> Open(m.events))
  }

  /** The events a step publishes. */
  function Published(world: World, m: Mix): seq<Event> {
    if m.view.part.Some? then
      if !m.view.part.value.SpeechPart? then []
      else
        var speech := m.view.part.value.speech;
        var s := MergeSpeech(speech.(announced := true), m.slots);
        SpeechEvents(speech, s.speech) + if s.result.Failed? then [Error(SynthesisFailed)] else []
    else if m.view.waiting == [] then []
    else
      var start := StartOf(world, |m.view.turns|, m.view.waiting[0]);
      StartEvents(world, |m.view.turns|, m.view.waiting[0]) + if start.Fails? then [Error(start.failure)] else []
  }

  lemma StepPublishes(world: World, m: Mix)
    ensures Step(world, m).view.events == m.view.events + Published(world, m)
  {
    hide MergeSpeech, StartOf, StartEvents;
  }

  lemma StartEventsOf(world: World, n: nat, command: string)
    ensures NoFinish(StartEvents(world, n, command))
    ensures StartOf(world, n, command).Begins? ==>
      StartEvents(world, n, command) != [] && StartEvents(world, n, command)[0].SourceStarted?
  {
    hide Parse, SleepSamples, ParsedTimeout;
  }

  lemma PublishedOpens(world: World, m: Mix)
    ensures NoFinish(Published(world, m))
    ensures m.view.part.None? && Step(world, m).view.part.Some? ==>
      exists i :: 0 <= i < |Published(world, m)| && Published(world, m)[i].SourceStarted?
  {
    hide MergeSpeech, StartOf, StartEvents;
    if m.view.part.None? && m.view.waiting != [] {
      StartEventsOf(world, |m.view.turns|, m.view.waiting[0]);
      if StartOf(world, |m.view.turns|, m.view.waiting[0]).Begins? {
        assert Published(world, m)[0].SourceStarted?;
      }
    }
  }

  lemma StepLogged(world: World, v: View, m: Mix)
    requires Logged(v, m.view)
    ensures Logged(v, Step(world, m).view)
  {
    hide Step, Published, Open, Separated, Finishes;
    StepPublishes(world, m);
    PublishedOpens(world, m);
    EventsAdded(m.view.events, Published(world, m));
  }

  /** The log of a pass continues the log before; a Finished event is added exactly when a source
      that was there is gone, and a source was started since the one before. */
  lemma PassLogged(world: World, v: View)
    requires Separated(v.events) && (v.part.Some? ==> Open(v.events))
    ensures var w := Pass(world, v);
      && v.events <= w.events && Separated(w.events) && (w.part.Some? ==> Open(w.events))
      && Finishes(w.events) == Finishes(v.events) + if v.part.Some? && w.part.None? then 1 else 0
  {
    hide Open, Separated, Finishes, Published;
    var kept := (m: Mix) => Logged(v, m.view) && (v.part.Some? ==> Open(m.view.events));
    forall m: Mix | kept(m) && m.slots > 0 && m.outcome == Merging
      ensures kept(Step(world, m))
    {
      StepLogged(world, v, m);
      if v.part.Some? {
        StepPublishes(world, m);
        PublishedOpens(world, m);
        EventsAdded(m.view.events, Published(world, m));
      }
    }
    Kept(world, kept, Begun(v));
    if v.part.Some? {
      EventAdded(PassMix(world, v).view.events, Finished);
    }
  }

  // ---------------------------------------------------------------- failures and second passes

  /** A sleep that is not negative, a synthesis that settles; a file always fits. */
  ghost predicate PartFits(part: Part) {
    match part
    case FilePart(_) => true
    case SleepPart(count) => count >= 0
    case SpeechPart(speech) => speech.Lively()
  }

  ghost predicate StartFits(start: Start) {
    start.Begins? ==> PartFits(start.part)
  }

  /** What plays and what waits fits. */
  ghost predicate Fitting(world: World, v: View) {
    && (v.part.Some? ==> PartFits(v.part.value))
    && forall i :: 0 <= i < |v.waiting| ==> StartFits(StartOf(world, |v.turns| + i, v.waiting[i]))
  }

  /** Whenever it is taken, the command starts nothing that does not fit. */
  ghost predicate Safe(world: World, command: string) {
    forall n: nat :: StartFits(StartOf(world, n, command))
  }

  /** All commands are safe but sleeps of negative length and synthesis jobs that do not settle. */
  lemma SafeIff(world: World, command: string)
    ensures Safe(world, command) <==>
      match Parse(world, command)
      case Sleep(timeout) => SleepSamples(timeout) >= 0
      case Speak(say) => forall n: nat :: world.hasSynthesis(n) ==> world.job(n, say).Settles()
      case _ => true
  {
    hide Parse, SleepSamples, PolledAll, Run, AllSends;
    var command' := Parse(world, command);
    RunNothing(EMPTY);
    match command'
    case Sleep(timeout) =>
      assert StartOf(world, 0, command) == Begins(SleepPart(SleepSamples(timeout)));
    case Speak(say) =>
      forall n: nat
        ensures StartFits(StartOf(world, n, command)) <==> (world.hasSynthesis(n) ==> world.job(n, say).Settles())
      {
        OnlySenderOps(world.job(n, say).arrivals);
      }
    case _ =>
  }

  /** 83 hours of sleep come out negative. */
  lemma LongSleepUnsafe(world: World)
    requires world.timeout("300000") == Some(300_000.0) && RoundsToDouble(world.rounded)
    ensures StartOf(world, 0, "sleep,,300000") == Begins(SleepPart(-1_894_967_296)) && !Safe(world, "sleep,,300000")
  {
    hide Parse, ParsedTimeout, SleepSamples;
    assert "sleep,," + "300000" == "sleep,,300000";
    SleepParsed(world, "300000");
    LongSleep(world.rounded);
    assert !StartFits(StartOf(world, 0, "sleep,,300000"));
  }

  lemma FittingOf(world: World, v: View, w: View)
    requires Fitting(world, v) && |w.turns| == |v.turns|
    requires w.part.None? || w.part == v.part || PartFits(w.part.value)
    requires w.waiting == v.waiting || w.waiting == []
    ensures Fitting(world, w)
  {
    hide StartFits, PartFits, StartOf;
  }

  lemma TakenFitting(world: World, v: View)
    requires Fitting(world, v) && v.waiting != []
    ensures Fitting(world, Taken(world, v))
  {
    hide PartFits, StartOf, StartEvents;
    var w := Taken(world, v);
    forall i | 0 <= i < |w.waiting|
      ensures StartFits(StartOf(world, |w.turns| + i, w.waiting[i]))
    {
      assert w.waiting[i] == v.waiting[i + 1] && |w.turns| + i == |v.turns| + (i + 1);
    }
  }

  /** A step keeps everything fitting, never gets stuck and never sleeps backwards. */
  lemma StepFitting(world: World, m: Mix)
    requires Fitting(world, m.view) && m.slots > 0 && m.outcome == Merging
    ensures Fitting(world, Step(world, m).view)
    ensures Step(world, m).outcome != Stuck && Step(world, m).slept >= m.slept
  {
    hide Fitting, MergeSpeech, StartOf, StartEvents, Played;
    var s := Step(world, m).view;
    if m.view.part.None? {
      if m.view.waiting != [] {
        TakenFitting(world, m.view);
        FittingOf(world, Taken(world, m.view), s);
      }
    } else {
      var added, slept, end := MergeShape(world, m);
      PlayedCommands(m.view.turns, added, slept, end);
      PresentFits(world, m.view);
      if m.view.part.value.SpeechPart? {
        var speech := m.view.part.value.speech.(announced := true);
        AnnouncedLively(m.view.part.value.speech);
        MergeLively(speech, m.slots);
        ArrivalsShrink(speech, m.slots);
      }
      FittingOf(world, m.view, s);
    }
  }

  lemma PresentFits(world: World, v: View)
    requires Fitting(world, v) && v.part.Some?
    ensures PartFits(v.part.value)
  {
  }

  lemma AnnouncedLively(s: Speech)
    requires s.Lively()
    ensures s.(announced := true).Lively()
  {
    hide Run, PolledAll;
  }

  /** A pass in which all that plays and waits fits leaves it so, never waits for ever, and lays
      no more than the frame holds. */
  lemma PassFitting(world: World, v: View)
    requires Fitting(world, v)
    ensures Fitting(world, Pass(world, v))
    ensures PassMix(world, v).outcome != Stuck && |PassMix(world, v).laid| <= FRAME_SAMPLES
  {
    hide Fitting, Played;
    var kept := (m: Mix) => Fitting(world, m.view) && m.outcome != Stuck && m.slept >= 0;
    forall m: Mix | kept(m) && m.slots > 0 && m.outcome == Merging
      ensures kept(Step(world, m))
    {
      StepFitting(world, m);
    }
    PlayedCommands(v.turns, [], 0, CutOff);
    FittingOf(world, v, Overridden(v));
    Kept(world, kept, Begun(v));
    FittingOf(world, PassMix(world, v).view, Pass(world, v));
    SlotsAccounted(world, v);
  }

  lemma TickFitting(world: World, v: View)
    requires Fitting(world, v)
    ensures Fitting(world, TickOf(world, v).view) && TickCompletes(world, v)
  {
    hide Fitting, Pass, PassMix, MergeAll;
    PassFitting(world, v);
    if Again(Pass(world, v)) {
      PassFitting(world, Pass(world, v));
    }
    PassMixIs(world, v);
    PassMixIs(world, Pass(world, v));
  }

  lemma PassMixIs(world: World, v: View)
    ensures PassMix(world, v) == MergeAll(world, Begun(v))
  {
  }

  /** On an idle layer with a sleep and a file of more than a frame waiting, and whatever fits
      behind them, the next pass stays within the frame exactly when the sleep is not negative. */
  lemma SleepFitsIff(world: World, v: View, count: int, samples: seq<short>)
    requires v.part.None? && |v.waiting| >= 2
    requires StartOf(world, |v.turns|, v.waiting[0]) == Begins(SleepPart(count))
    requires StartOf(world, |v.turns| + 1, v.waiting[1]) == Begins(FilePart(samples)) && |samples| > FRAME_SAMPLES
    requires forall i :: 2 <= i < |v.waiting| ==> StartFits(StartOf(world, |v.turns| + i, v.waiting[i]))
    ensures |PassMix(world, v).laid| <= FRAME_SAMPLES <==> count >= 0
  {
    hide MergeAll, StartOf, StartEvents;
    if count >= 0 {
      assert Fitting(world, v);
      PassFitting(world, v);
    } else {
      var m := Begun(v);
      MergeOn(world, m);
      var slept := Step(world, m);
      MergeOn(world, slept);
      var over := Step(world, slept);
      MergeOn(world, over);
      var playing := Step(world, over);
      MergeOn(world, playing);
      assert |Step(world, playing).laid| > FRAME_SAMPLES;
      LaidContinues(world, Step(world, playing));
    }
  }

  /** A synthesis that has nothing to play yet and never will keeps the player waiting. */
  lemma {:induction false} WaitsForEver(world: World, m: Mix)
    requires m.slots > 0 && m.outcome == Merging && m.view.part.Some? && m.view.part.value.SpeechPart?
    requires var s := m.view.part.value.speech;
      AllSends(s.arrivals) && s.buffered.None? && !s.reached && !s.Lively()
    ensures MergeAll(world, m).outcome == Stuck
    decreases Polls(m.view.part)
  {
    hide MergeAll, Run, Queue.After, PolledAll, ToSamples, Speech.Take;
    var s := m.view.part.value.speech.(announced := true);
    BatchSends(s);
    PollIs(s);
    NotReadyYet(s);
    MergeOn(world, m);
    if s.arrivals == [] {
      MergeDone(world, Step(world, m));
    } else {
      PolledAllStep(s.Now(), s.arrivals);
      WaitsForEver(world, Step(world, m));
    }
  }

  lemma NotReadyYet(s: Speech)
    requires AllSends(s.arrivals) && !Ready(PolledAll(s.Now(), s.arrivals), s.estimate)
    ensures !Ready(s.Poll().Now(), s.estimate)
  {
    hide Run, Queue.After, Ready;
    PollIs(s);
    BatchSends(s);
    if Ready(s.Poll().Now(), s.estimate) {
      if s.arrivals == [] {
        RunNothing(s.Now());
      } else {
        ReadyStaysAll(s.Poll().Now(), s.arrivals[1..], s.estimate);
      }
    }
  }

  /** An error that drops the commands still waiting. */
  predicate DropsAll(event: Event) {
    event.Error? && event.failure != NoChannel
  }

  lemma FailuresOf(world: World, command: string)
    ensures Parse(world, command).Bad? ==> Parse(world, command).failure != NoChannel
  {
  }

  /** An error that a command publishes when it is taken drops the others exactly when the command
      is not a `say` without a TTS channel. */
  lemma ErrorDropsIff(world: World, m: Mix)
    requires m.view.part.None? && |m.view.waiting| > 1 && m.slots > 0 && m.outcome == Merging
    ensures var s, n, command := Step(world, m).view, |m.view.turns|, m.view.waiting[0];
      m.view.events <= s.events &&
      ((exists i :: |m.view.events| <= i < |s.events| && s.events[i].Error?) ==>
         (s.waiting == [] <==> !(Parse(world, command).Speak? && !world.hasSynthesis(n))))
  {
    hide Parse, SleepSamples;
  }

  /** Such a `say` leaves its error behind and the next command plays. */
  lemma SayWithoutChannel(world: World, say: string, play: string, samples: seq<short>)
    requires Parse(world, say).Speak? && !world.hasSynthesis(0)
    requires StartOf(world, 1, play) == Begins(FilePart(samples)) && |samples| >= FRAME_SAMPLES
    ensures var w := Pass(world, View(false, None, [say, play], [], []));
      w.events != [] && w.events[0] == Error(NoChannel) && w.part == Some(FilePart(samples[FRAME_SAMPLES..]))
  {
    hide MergeAll, Parse, StartEvents;
    var m := Begun(View(false, None, [say, play], [], []));
    MergeOn(world, m);
    var said := Step(world, m);
    assert StartEvents(world, 0, say) == [Error(NoChannel)] by { NoChannelEvents(world, say); }
    MergeOn(world, said);
    var playing := Step(world, said);
    MergeOn(world, playing);
    MergeDone(world, Step(world, playing));
  }

  lemma NoChannelEvents(world: World, say: string)
    requires Parse(world, say).Speak? && !world.hasSynthesis(0)
    ensures StartEvents(world, 0, say) == [Error(NoChannel)]
  {
  }

  /** At real texts: a printed `say` and a printed `play`. */
  lemma SaidWithoutChannel(
      world: World, settings: seq<Setting>, input: string, filename: string, frames: seq<VoiceFrame>)
    requires forall i :: 0 <= i < |settings| ==> Printable(world.numbers, settings[i])
    requires !world.hasSynthesis(0) && world.file(1, filename) == Some(frames)
    requires |world.codec.DecodeAll(frames)| >= FRAME_SAMPLES
    ensures var say := "say," + PrintAll(settings) + "," + input;
      var w := Pass(world, View(false, None, [say, "play,," + filename], [], []));
      && w.events != [] && w.events[0] == Error(NoChannel)
      && w.part == Some(FilePart(world.codec.DecodeAll(frames)[FRAME_SAMPLES..]))
  {
    hide Pass, Parse, PrintAll, Printable, Codec.DecodeAll;
    SayParsed(world, settings, input);
    PlayStarts(world, 1, filename);
    var say := "say," + PrintAll(settings) + "," + input;
    SayWithoutChannel(world, say, "play,," + filename, world.codec.DecodeAll(frames));
  }

  ghost predicate DropLogged(v: View, m: View) {
    v.events <= m.events && exists i :: |v.events| <= i < |m.events| && DropsAll(m.events[i])
  }

  lemma StartErrors(world: World, n: nat, command: string)
    ensures forall i :: 0 <= i < |StartEvents(world, n, command)| ==> !DropsAll(StartEvents(world, n, command)[i])
    ensures StartOf(world, n, command).Fails? ==> StartOf(world, n, command).failure != NoChannel
  {
    hide Parse, SleepSamples, ParsedTimeout;
    FailuresOf(world, command);
  }

  lemma StepErrors(world: World, m: Mix)
    requires m.slots > 0 && m.outcome == Merging
    ensures (exists i :: 0 <= i < |Published(world, m)| && DropsAll(Published(world, m)[i]))
       <==> Step(world, m).outcome == Broken
  {
    hide MergeSpeech, StartOf, StartEvents;
    if m.view.part.None? && m.view.waiting != [] {
      StartErrors(world, |m.view.turns|, m.view.waiting[0]);
    }
    if Step(world, m).outcome == Broken {
      assert DropsAll(Published(world, m)[|Published(world, m)| - 1]);
    }
  }

  lemma MergeDropsIff(world: World, v: View)
    ensures v.events <= PassMix(world, v).view.events
    ensures DropLogged(v, PassMix(world, v).view) <==> PassMix(world, v).outcome == Broken
  {
    hide DropLogged, DropsAll, Published;
    var kept := (m: Mix) => v.events <= m.view.events && (DropLogged(v, m.view) <==> m.outcome == Broken);
    forall m: Mix | kept(m) && m.slots > 0 && m.outcome == Merging
      ensures kept(Step(world, m))
    {
      StepPublishes(world, m);
      StepErrors(world, m);
      LoggedMore(v, m.view, Step(world, m).view, Published(world, m));
    }
    NotLogged(v);
    Kept(world, kept, Begun(v));
  }

  lemma NotLogged(v: View)
    ensures !DropLogged(v, Overridden(v))
  {
  }

  /** In a pass commands are dropped exactly when an error other than that of a `say` without a
      channel is published; then nothing plays or waits. */
  lemma PassDropsIff(world: World, v: View)
    ensures var w, broken := Pass(world, v), PassMix(world, v).outcome == Broken;
      && (DropLogged(v, w) <==> broken) && ViewConsumes(v, w, broken)
      && (broken ==> w.part.None? && w.waiting == [])
  {
    hide ViewConsumes, DropLogged, DropsAll, MergeAll;
    PassConsumes(world, v);
    AfterFailure(world, v);
    MergeDropsIff(world, v);
    var m := PassMix(world, v).view;
    FinishedDropsNone();
    LoggedMore(v, m, m.(events := m.events + [Finished]), [Finished]);
  }

  lemma FinishedDropsNone()
    ensures !DropsAll(Finished)
  {
  }

  lemma LoggedMore(v: View, m: View, s: View, more: seq<Event>)
    requires v.events <= m.events && s.events == m.events + more
    ensures v.events <= s.events
    ensures DropLogged(v, s) <==> DropLogged(v, m) || exists i :: 0 <= i < |more| && DropsAll(more[i])
  {
    hide DropsAll;
    if i :| |v.events| <= i < |m.events| && DropsAll(m.events[i]) {
      assert s.events[i] == m.events[i];
    }
    if i :| 0 <= i < |more| && DropsAll(more[i]) {
      assert s.events[|m.events| + i] == more[i];
    }
    if i :| |v.events| <= i < |s.events| && DropsAll(s.events[i]) {
      assert s.events[i] == if i < |m.events| then m.events[i] else more[i - |m.events|];
    }
  }

  /** After a failure nothing plays or waits, and the error is the last event. */
  lemma AfterFailure(world: World, v: View)
    ensures var m := PassMix(world, v);
      m.outcome == Broken ==>
        && m.view.part.None? && m.view.waiting == []
        && m.view.events != [] && m.view.events[|m.view.events| - 1].Error?
  {
    var kept := (m: Mix) => m.outcome == Broken ==>
      && m.view.part.None? && m.view.waiting == []
      && m.view.events != [] && m.view.events[|m.view.events| - 1].Error?;
    forall m: Mix | kept(m) && m.slots > 0 && m.outcome == Merging
      ensures kept(Step(world, m))
    {
      FailedStep(world, m);
    }
    Kept(world, kept, Begun(v));
  }

  lemma FailedStep(world: World, m: Mix)
    requires m.outcome == Merging && m.slots > 0
    ensures var s := Step(world, m);
      && (s.outcome == Broken ==>
            && s.view.part.None? && s.view.waiting == []
            && s.view.events != [] && s.view.events[|s.view.events| - 1].Error?)
      && (s.outcome == Idle ==> s.view.part.None? && s.view.waiting == [])
  {
    hide MergeSpeech, StartOf, StartEvents;
    if m.view.part.Some? && m.view.part.value.SpeechPart? {
      ArrivalsShrink(m.view.part.value.speech.(announced := true), m.slots);
    }
  }

  predicate Flowing(part: Option<Part>) {
    part.Some? && part.value.SpeechPart? && part.value.speech.reached
  }

  /** A synthesis that has not begun to play waits without using up slots. */
  lemma WaitsInPlace(s: Speech, slots: nat)
    ensures var m := MergeSpeech(s, slots);
      m.result.Waiting? ==> m.slots == (if s.reached then 0 else slots) && m.speech.reached == s.reached
  {
    hide Run, ToSamples;
  }

  ghost predicate NoneLeft(m: Mix) {
    && (m.slots > 0 && m.outcome == Merging ==> !Flowing(m.view.part))
    && (Again(m.view) ==> m.slots > 0 && m.outcome == Merging)
  }

  lemma StepNoneLeft(world: World, m: Mix)
    requires NoneLeft(m) && m.slots > 0 && m.outcome == Merging
    ensures NoneLeft(Step(world, m))
  {
    hide MergeSpeech, StartEvents, Parse, SleepSamples;
    FailedStep(world, m);
    if m.view.part.Some? && m.view.part.value.SpeechPart? {
      ArrivalsShrink(m.view.part.value.speech.(announced := true), m.slots);
      WaitsInPlace(m.view.part.value.speech.(announced := true), m.slots);
    }
  }

  lemma NotFlowing(world: World, m: Mix)
    requires NoneLeft(m)
    ensures !Again(MergeAll(world, m).view)
  {
    var kept := (m: Mix) => NoneLeft(m);
    forall m: Mix | kept(m) && m.slots > 0 && m.outcome == Merging
      ensures kept(Step(world, m))
    {
      StepNoneLeft(world, m);
    }
    Kept(world, kept, m);
    AllDone(world, m);
  }

  lemma {:induction false} AllDone(world: World, m: Mix)
    ensures MergeAll(world, m).slots == 0 || MergeAll(world, m).outcome != Merging
    decreases if m.slots == 0 || m.outcome != Merging then 0 else 1, |m.view.waiting|,
              if m.view.part.Some? then 1 else 0, Polls(m.view.part), m.slots
  {
    hide Step;
    if m.slots > 0 && m.outcome == Merging {
      StepDecreases(world, m);
      AllDone(world, Step(world, m));
    }
  }

  /** Commands are left over only when a synthesis that was already playing ended in the pass
      without mixing anything; then nothing else happened in it, and the next pass is the last. */
  lemma SecondPassIsLast(world: World, v: View)
    ensures Again(Pass(world, v)) ==>
      && Flowing(v.part) && !v.override
      && PassMix(world, v) == Step(world, Begun(v))
      && PassMix(world, v).laid == [] && Pass(world, v).waiting == v.waiting
      && !Again(Pass(world, Pass(world, v)))
  {
    hide Step, MergeAll;
    var m := Begun(v);
    if Flowing(m.view.part) {
      FlowingStep(world, m);
      MergeOn(world, m);
      MergeDone(world, Step(world, m));
    } else {
      NotFlowing(world, m);
    }
    if Again(Pass(world, v)) {
      NotFlowing(world, Begun(Pass(world, v)));
    }
  }

  lemma MergeDone(world: World, m: Mix)
    requires m.slots == 0 || m.outcome != Merging
    ensures MergeAll(world, m) == m
  {
  }

  lemma FlowingStep(world: World, m: Mix)
    requires Flowing(m.view.part) && m.slots > 0 && m.outcome == Merging
    ensures var s := Step(world, m);
      && (s.slots == 0 || s.outcome == Broken)
      && (Again(s.view) ==> s.laid == m.laid && s.view.waiting == m.view.waiting)
  {
    hide MergeSpeech;
    ArrivalsShrink(m.view.part.value.speech.(announced := true), m.slots);
    WaitsInPlace(m.view.part.value.speech.(announced := true), m.slots);
    assert m.laid + [] == m.laid;
  }

  // ---------------------------------------------------------------- a file in several merges

  lemma PlayedTwice(turns: seq<Turn>, a: seq<short>, b: seq<short>, end: End)
    ensures Played(Played(turns, a, 0, Going), b, 0, end) == Played(turns, a + b, 0, end)
  {
    if turns != [] {
      Join(turns[|turns| - 1].mixed, a, b);
    }
  }

  lemma SlotsJoin(due: seq<int>, from: int, a: nat, b: nat)
    ensures due + SlotsFrom(from, a) + SlotsFrom(from + a, b) == due + SlotsFrom(from, a + b)
  {
  }

  /** Mixing part of a file's samples and then going on comes to the same. */
  lemma FileInParts(world: World, m: Mix, added: seq<short>, rest: seq<short>)
    requires m.view.part == Some(FilePart(added + rest)) && |added| <= m.slots
    requires m.slots > 0 && m.outcome == Merging
    ensures MergeAll(world, m)
         == MergeAll(world, Lay(m, Continued(m.view, added, 0, FilePart(rest)), added, m.slots - |added|))
  {
    hide MergeAll, Played;
    var n := Lay(m, Continued(m.view, added, 0, FilePart(rest)), added, m.slots - |added|);
    var left, k := added + rest, m.slots - |added|;
    MergeOn(world, m);
    if k == 0 {
      assert left[..m.slots] == added && left[m.slots..] == rest;
      assert Step(world, m) == n;
    } else {
      MergeOn(world, n);
      var b := if |rest| < k then rest else rest[..k];
      PlayedTwice(m.view.turns, added, b, if |rest| < k then PlayedOut else Going);
      Join(m.laid, added, b);
      SlotsJoin(m.due, FRAME_SAMPLES - m.slots, |added|, |b|);
      if |rest| >= k {
        assert left[..m.slots] == added + b && left[m.slots..] == rest[k..];
      }
    }
  }

  lemma LaidContinues(world: World, m: Mix)
    ensures m.laid <= MergeAll(world, m).laid
  {
    var kept := (x: Mix) => m.laid <= x.laid;
    forall x: Mix | kept(x) && x.slots > 0 && x.outcome == Merging
      ensures kept(Step(world, x))
    {
      if x.view.part.Some? {
        var added, slept, end := MergeShape(world, x);
      } else {
        StepTakes(world, x);
      }
    }
    Kept(world, kept, m);
  }
}
