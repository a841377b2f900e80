/** A playback layer (stream_layers.c): its job list, its one audio source, and the mixing of
    one 160-sample frame per tick. Every method is proved against its counterpart in Playback. */
module Layers {
  import opened Audio
  import opened Fifo
  import opened Sources
  import opened Synthesis
  import opened JobLists
  import opened Commands
  import opened Time
  import opened Playback

  datatype Source =
    | NoSource
    | Playing(file: FileSource)
    | Sleeping(sampleCount: int)
    | Speaking(synthesis: SynthesisSource)

  class StreamLayer {
    const world: World
    const jobs: JobList
    var override: bool
    var source: Source
    var taken: nat  // how many commands were taken
    var events: seq<Event>
    ghost var turns: seq<Turn>
    ghost var Repr: set<object>

    ghost function SourceRepr(): set<object>
      reads this`source, if source.Speaking? then {source.synthesis.queue} else {}
    {
      match source
      case NoSource => {}
      case Playing(file) => {file}
      case Sleeping(_) => {}
      case Speaking(synthesis) => synthesis.Repr()
    }

    ghost function Footprint(): set<object>
      reads this`source, jobs`chain, if source.Speaking? then {source.synthesis.queue} else {}
    {
      {this, jobs} + jobs.Nodes() + SourceRepr()
    }

    ghost predicate SourceValid()
      reads this`source, SourceRepr()
    {
      match source
      case NoSource => true
      case Playing(file) => file.Valid()
      case Sleeping(_) => true
      case Speaking(synthesis) => synthesis.Valid()
    }

    ghost function Part(): Option<Part>
      reads this`source, SourceRepr()
    {
      match source
      case NoSource => None
      case Playing(file) => Some(FilePart(if file.Valid() then file.Rest() else []))
      case Sleeping(sampleCount) => Some(SleepPart(sampleCount))
      case Speaking(synthesis) => Some(SpeechPart(synthesis.View()))
    }

    /** The layer on values. */
    ghost function View(): View
      reads this`override, this`source, this`turns, this`events, jobs`chain, SourceRepr()
    {
      Playback.View(override, Part(), jobs.Waiting(), turns, events)
    }

    ghost predicate Valid()
      reads this, jobs, jobs.Nodes(), SourceRepr()
    {
      Consistent() && Footprint() <= Repr
    }

    ghost predicate Consistent()
      reads this`source, this`taken, this`turns, jobs, jobs.Nodes(), SourceRepr()
    {
      Apart() && jobs.Valid() && SourceValid() && taken == |turns|
    }

    ghost predicate Apart()
      reads this`source, jobs`chain, if source.Speaking? then {source.synthesis.queue} else {}
    {
      this !in SourceRepr() && jobs !in SourceRepr() && jobs.Nodes() !! SourceRepr()
    }

    /** Reads and polls the present source has left. */
    ghost function Work(): nat
      reads this`source, SourceRepr()
    {
      match source
      case NoSource => 0
      case Playing(file) => file.Work()
      case Sleeping(_) => 0
      case Speaking(synthesis) => |synthesis.arrivals|
    }

    constructor (world: World)
      ensures Valid() && fresh(Repr) && this.world == world
      ensures View() == NOTHING
    {
      var list := new JobList();
      this.world, jobs, Repr := world, list, {this, list};
      override, source, taken, events, turns := false, NoSource, 0, [], [];
    }

    method AddJob(command: string)
      requires Valid()
      modifies Repr
      ensures Valid() && fresh(Repr - old(Repr))
      ensures View() == old(View()).(waiting := old(jobs.Waiting()) + [command])
    {
      hide JobList.Valid, FileSource.Valid, SynthesisSource.Valid, SynthesisSource.View;
      jobs.Add(command);
      Repr := Repr + jobs.Nodes();
    }

    /** stream_layer_override. */
    method Override()
      requires Valid()
      modifies Repr
      ensures Valid() && Repr == old(Repr)
      ensures View() == old(View()).(override := true, waiting := [])
    {
      hide JobList.Valid, FileSource.Valid, SynthesisSource.Valid, SynthesisSource.View;
      jobs.Clear();
      override := true;
    }

    method Publish(event: Event)
      requires Consistent()
      modifies this`events
      ensures Consistent() && View() == old(View()).(events := old(events) + [event])
    {
      hide JobList.Valid, FileSource.Valid, SynthesisSource.Valid, SynthesisSource.View;
      events := events + [event];
    }

    /** stream_source_stop. */
    method StopSource(ghost added: seq<short>, ghost slept: int, ghost end: End)
      requires Consistent()
      modifies this`source, this`turns
      ensures Consistent() && source == NoSource && Footprint() <= old(Footprint())
      ensures View() == Ended(old(View()), added, slept, end)
    {
      hide JobList.Valid, FileSource.Valid, SynthesisSource.Valid, SynthesisSource.View;
      turns := Played(turns, added, slept, end);
      source := NoSource;
    }

    method StartFile(filename: string) returns (started: bool)
      requires Consistent() && source == NoSource
      modifies this`source, this`events
      ensures Consistent() && fresh(Footprint() - old(Footprint()))
      ensures var file := world.file(taken, filename);
        && started == file.Some?
        && View() == old(View()).(
             part := if started then Some(FilePart(world.codec.DecodeAll(file.value))) else None,
             events := old(events) + if started then [SourceStarted, Duration, StreamingStarted] else [Duration])
    {
      hide JobList.Valid, FileSource.Rest, Codec.DecodeAll;
      var frames := world.file(taken, filename);
      started := frames.Some?;
      if started {
        var file := new FileSource(world.codec, frames.value);
        source, events := Playing(file), events + [SourceStarted, Duration, StreamingStarted];
      } else {
        events := events + [Duration];
      }
    }

    method StartSynthesis(job: JobScript)
      requires Consistent() && source == NoSource
      modifies this`source, this`events
      ensures Consistent() && fresh(Footprint() - old(Footprint()))
      ensures View() == old(View()).(
        part := if world.hasSynthesis(taken) then Some(SpeechPart(NewSpeech(job.arrivals, job.estimate))) else None,
        events := old(events) + if world.hasSynthesis(taken) then [SourceStarted] else [Error(NoChannel)])
    {
      hide JobList.Valid, AllSends, PolledAll, Ready, Run, SynthesisSource.Wired, SynthesisSource.View;
      if !world.hasSynthesis(taken) {
        events := events + [Error(NoChannel)];
        return;
      }
      OnlySenderOps(job.arrivals);
      var synthesis := new SynthesisSource(job.arrivals, job.estimate);
      source, events := Speaking(synthesis), events + [SourceStarted];
    }

    /** The part of stream_layer_check_jobs that carries out the command taken. */
    method StartJob(command: string) returns (failure: Option<Failure>)
      requires Consistent() && source == NoSource
      modifies this`source, this`events
      ensures Consistent() && fresh(Footprint() - old(Footprint()))
      ensures var start := StartOf(world, taken, command);
        && failure == (if start.Fails? then Some(start.failure) else None)
        && View() == old(View()).(
             part := if start.Begins? then Some(start.part) else None,
             events := old(events) + StartEvents(world, taken, command))
    {
      hide JobList.Valid, SourceValid, Parse, SleepSamples, Codec.DecodeAll, Apart;
      match Parse(world, command)
      case Play(filename) =>
        var started := StartFile(filename);
        return if started then None else Some(CannotOpen);
      case Sleep(timeout) =>
        StartSleep(SleepSamples(timeout));
        return None;
      case Speak(say) =>
        StartSynthesis(world.job(taken, say));
        return None;
      case Custom(body) =>
        Publish(UserEvent(body));
        return None;
      case Bad(failure, duration) =>
        if duration {
          Publish(Duration);
        } else {
          assert events + [] == events;
        }
        return Some(failure);
    }

    method StartSleep(samples: int)
      requires Consistent() && source == NoSource
      modifies this`source, this`events
      ensures Consistent() && Footprint() == old(Footprint())
      ensures View() == old(View()).(
        part := Some(SleepPart(samples)), events := old(events) + [SourceStarted, Duration, StreamingStarted])
    {
      hide JobList.Valid;
      source, events := Sleeping(samples), events + [SourceStarted, Duration, StreamingStarted];
    }

    method TakeJob() returns (command: Option<string>)
      requires Valid() && source == NoSource
      modifies jobs, jobs.Nodes()
      ensures Valid()
      ensures if old(jobs.Waiting()) == [] then command == None && View() == old(View())
        else
          && command == Some(old(jobs.Waiting())[0])
          && View() == old(View()).(waiting := old(jobs.Waiting())[1..])
    {
      hide JobList.Valid;
      command := jobs.Take();
    }

    /** StartJob, with what it allocates added to Repr. */
    method Launch(command: string, ghost waiting: seq<string>) returns (failure: Option<Failure>)
      requires Valid() && source == NoSource && waiting != [] && command == waiting[0]
      requires jobs.Waiting() == waiting[1..]
      modifies this`source, this`events, this`turns, this`taken, this`Repr
      ensures Valid() && fresh(Repr - old(Repr))
      ensures var start := StartOf(world, old(taken), command);
        failure == if start.Fails? then Some(start.failure) else None
      ensures View() == Taken(world, old(View()).(waiting := waiting))
    {
      hide Consistent, StartOf, StartEvents, View, Part;
      CountsTurns();
      SourceView();
      ghost var start := StartOf(world, taken, command);
      failure := StartJob(command);
      SourceView();
      CountTurn(Turn(command, [], 0, if start.Begins? then Going else NeverBegan));
      Repr := Repr + Footprint();
    }

    method CountTurn(ghost turn: Turn)
      requires Consistent()
      modifies this`taken, this`turns
      ensures Consistent() && Footprint() == old(Footprint())
      ensures View() == old(View()).(turns := old(turns) + [turn])
    {
      hide JobList.Valid, SourceValid, SynthesisSource.View;
      taken := taken + 1;
      turns := turns + [turn];
    }

    /** stream_layer_check_jobs: with a pending override the source stops; without a source the
        next command is taken. */
    method CheckJobs() returns (failure: Option<Failure>, busy: bool)
      requires Valid()
      modifies Repr
      ensures Valid() && fresh(Repr - old(Repr)) && !override
      ensures Checked(world, old(View()), View(), failure, busy)
      ensures !old(override) && old(source) != NoSource ==> source == old(source) && Work() == old(Work())
    {
      hide Consistent, Taken, StartOf, StartEvents, Work, Part;
      TakeOverride();
      if source != NoSource {
        SourceHasPart();
        return None, true;
      }
      ghost var waiting := jobs.Waiting();
      SourceHasPart();
      var command := TakeJob();
      if command.None? {
        return None, false;
      }
      CountsTurns();
      failure := Launch(command.value, waiting);
      busy := failure.None?;
    }

    lemma SourceHasPart()
      ensures View().part.Some? == (source != NoSource)
    {
    }

    lemma CountsTurns()
      requires Valid()
      ensures taken == |turns| == |View().turns|
    {
    }

    method TakeOverride()
      requires Valid()
      modifies this`override, this`source, this`turns
      ensures Valid() && !override
      ensures View() == Overridden(old(View()))
      ensures !old(override) ==> source == old(source) && Work() == old(Work())
    {
      hide Consistent, Played;
      if override {
        if source != NoSource {
          StopSource([], 0, CutOff);
        }
        ClearOverride();
      }
    }

    method ClearOverride()
      requires Valid()
      modifies this`override
      ensures Valid() && View() == old(View()).(override := false) && source == old(source)
    {
      hide JobList.Valid, SourceValid, SynthesisSource.View;
      override := false;
    }

    method MergeFile(target: array<short>, at: nat, slots: nat, ghost m: Mix)
      returns (at': nat, slots': nat, ghost m': Mix)
      requires Valid() && source.Playing? && slots > 0
      requires Reflects(m, View(), target, at, slots) && m.outcome == Merging && Completes(world, m)
      modifies this`source, this`turns, SourceRepr(), target
      ensures Valid() && Reflects(m', View(), target, at', slots') && m'.outcome == Merging
      ensures MergeAll(world, m) == MergeAll(world, m')
      ensures source != NoSource ==> Work() <= old(Work()) && (slots' < slots || Work() < old(Work()))
    {
      hide JobList.Valid, FileSource.Work, FileSource.Rest, SynthesisSource.Valid, SynthesisSource.View,
        Laid, MergeAll, StartOf;
      StepCompletes(world, m);
      var ended;
      ghost var added;
      ended, at', slots', added := source.file.Merge(target, at, slots, m.laid);
      ghost var rest := source.file.Rest();
      if ended {
        NothingAdded(m.laid);
        assert [] + rest == [];
        StopSource([], 0, PlayedOut);
        m' := EndFile(world, m);
      } else {
        turns := Played(turns, added, 0, Going);
        FileInParts(world, m, added, rest);
        m' := Lay(m, Continued(m.view, added, 0, FilePart(rest)), added, slots');
      }
    }

    method MergeSleep(slots: nat, ghost m: Mix) returns (slots': nat, ghost m': Mix)
      requires Valid() && source.Sleeping?
      requires slots == m.slots > 0 && m.view == View() && m.outcome == Merging
      modifies this`source, this`turns
      ensures Valid() && m'.view == View() && m'.slots == slots' && m'.laid == m.laid && m'.outcome == Merging
      ensures MergeAll(world, m) == MergeAll(world, m')
      ensures source != NoSource ==> Work() <= old(Work()) && slots' < slots
    {
      hide JobList.Valid, MergeAll;
      MergeOn(world, m);
      m' := Step(world, m);
      if source.sampleCount >= slots {
        source, turns := Sleeping(source.sampleCount - slots), Played(turns, [], slots, Going);
        slots' := 0;
      } else {
        slots' := slots - source.sampleCount;
        StopSource([], source.sampleCount, PlayedOut);
      }
    }

    method AnnounceDuration()
      requires Consistent() && source.Speaking?
      modifies this`events, source.synthesis
      ensures Consistent() && Footprint() == old(Footprint()) && source == old(source)
      ensures source.synthesis.durationAnnounced && Work() == old(Work())
      ensures View() == Announced(old(View()), old(source.synthesis.View()))
      ensures source.synthesis.View() == old(source.synthesis.View()).(announced := true)
    {
      hide JobList.Valid, SynthesisSource.Wired, Run, Speech.Lively;
      var announced := source.synthesis.Announce();
      if announced {
        events := events + [Duration];
      } else {
        assert events + [] == events;
      }
    }

    /** Merges from the synthesis source and marks its start. */
    method PlaySynthesis(target: array<short>, at: nat, slots: nat, ghost laid: seq<short>)
      returns (result: MergeResult, stopped: bool, at': nat, slots': nat, ghost added: seq<short>)
      requires Consistent() && source.Speaking? && source.synthesis.durationAnnounced && slots > 0
      requires Laid(target, laid) && at == |laid|
      requires |laid + MergeSpeech(source.synthesis.View(), slots).added| <= target.Length
      modifies this`events, SourceRepr(), target
      ensures Consistent() && fresh(Footprint() - old(Footprint())) && source == old(source)
      ensures Laid(target, laid + added) && at' == at + |added| && |added| <= slots
      ensures var before, s := old(source.synthesis.View()), source.synthesis.View();
        && SpeechMerge(s, result, stopped, added, slots') == MergeSpeech(before, slots)
        && View() == Spoke(old(View()), before, s)
    {
      hide JobList.Valid, SynthesisSource.Valid, Laid, MergeSpeech;
      var started;
      result, stopped, started, at', slots', added := source.synthesis.Merge(target, at, slots, laid);
      if started {
        events := events + [StreamingStarted];
      } else {
        assert events + [] == events;
      }
    }

    method MergeSynthesis(target: array<short>, at: nat, slots: nat, ghost laid: seq<short>)
      returns (result: MergeResult, at': nat, slots': nat, ghost s: SpeechMerge)
      requires Consistent() && source.Speaking? && slots > 0
      requires Laid(target, laid) && at == |laid|
      requires |laid + MergeSpeech(source.synthesis.View().(announced := true), slots).added| <= target.Length
      modifies this`source, this`turns, this`events, SourceRepr(), target
      ensures Consistent() && fresh(Footprint() - old(Footprint())) && (source == old(source) || source == NoSource)
      ensures s == MergeSpeech(old(source.synthesis.View()).(announced := true), slots)
      ensures result == s.result && slots' == s.slots
      ensures Laid(target, laid + s.added) && at' == at + |s.added| && |s.added| <= slots
      ensures View() == SpeechTurn(old(View()), old(source.synthesis.View()), s)
    {
      hide Consistent, SynthesisSource.View, View, Part, Laid, MergeSpeech, SpeechTurn, Continued, Ended;
      ghost var before, v := source.synthesis.View(), View();
      AnnounceDuration();
      ghost var announced := View();
      var stopped;
      ghost var added;
      result, stopped, at', slots', added := PlaySynthesis(target, at, slots, laid);
      s := SpeechMerge(source.synthesis.View(), result, stopped, added, slots');
      TurnParts(v, announced, View(), before, s);
      EndTurn(stopped, added, if result.Failed? then Broke else PlayedOut);
    }

    /** The present turn goes on with `added`, or ends. */
    method EndTurn(stopped: bool, ghost added: seq<short>, ghost end: End)
      requires Consistent() && source.Speaking?
      modifies this`source, this`turns
      ensures Consistent() && Footprint() <= old(Footprint())
      ensures source == if stopped then NoSource else old(source)
      ensures View() == if stopped then Ended(old(View()), added, 0, end)
        else Continued(old(View()), added, 0, SpeechPart(source.synthesis.View()))
    {
      hide JobList.Valid, SourceValid, SynthesisSource.View;
      if stopped {
        StopSource(added, 0, end);
      } else {
        turns := Played(turns, added, 0, Going);
      }
    }

    /** MergeSynthesis, with what the sender allocated added to Repr. */
    method MergeKept(target: array<short>, at: nat, slots: nat, ghost laid: seq<short>)
      returns (result: MergeResult, at': nat, slots': nat, ghost s: SpeechMerge)
      requires Valid() && source.Speaking? && slots > 0 && target !in Repr
      requires Laid(target, laid) && at == |laid|
      requires |laid + MergeSpeech(source.synthesis.View().(announced := true), slots).added| <= target.Length
      modifies Repr, target
      ensures Valid() && fresh(Repr - old(Repr)) && override == old(override)
      ensures source == old(source) || source == NoSource
      ensures s == MergeSpeech(old(source.synthesis.View()).(announced := true), slots)
      ensures result == s.result && slots' == s.slots
      ensures Laid(target, laid + s.added) && at' == at + |s.added| && |s.added| <= slots
      ensures View() == SpeechTurn(old(View()), old(source.synthesis.View()), s)
    {
      hide Consistent, SynthesisSource.View, View, Laid, MergeSpeech, SpeechTurn;
      result, at', slots', s := MergeSynthesis(target, at, slots, laid);
      Repr := Repr + Footprint();
    }

    /** The merge of a synthesis source; a failure drops the jobs. */
    method MergeSpeaking(target: array<short>, at: nat, slots: nat, ghost m: Mix)
      returns (failed: bool, at': nat, slots': nat, ghost m': Mix)
      requires Valid() && Completes(world, m) && source.Speaking? && slots > 0 && target !in Repr
      requires Reflects(m, View(), target, at, slots) && m.outcome == Merging
      modifies Repr, target
      ensures Valid() && fresh(Repr - old(Repr)) && override == old(override)
      ensures Reflects(m', View(), target, at', slots') && m'.outcome == if failed then Broken else Merging
      ensures MergeAll(world, m) == MergeAll(world, m')
      ensures jobs.Waiting() == if failed then [] else old(jobs.Waiting())
      ensures failed ==> source == NoSource
      ensures source != NoSource ==> Work() <= old(Work()) && (slots' < slots || Work() < old(Work()))
    {
      hide Valid, SynthesisSource.View, Part, View, Work, Laid, MergeSpeech, MergeAll, Step, SpeechTurn, Dropped;
      SourceView();
      StepCompletes(world, m);
      ghost var speech := source.synthesis.View();
      var result;
      ghost var s;
      MergeOn(world, m);
      SpeechStepParts(world, m, speech);
      result, at', slots', s := MergeKept(target, at, slots, m.laid);
      m' := Step(world, m);
      SourceView();
      failed := result.Failed?;
      if failed {
        Fail(SynthesisFailed);
        SourceView();
        DroppedNone(SpeechTurn(m.view, speech, s), SynthesisFailed);
      }
    }

    lemma SourceView()
      ensures View().part.Some? == (source != NoSource)
      ensures View().override == override && View().waiting == jobs.Waiting()
      ensures View().turns == turns && View().events == events
      ensures source.Speaking? ==>
        View().part == Some(SpeechPart(source.synthesis.View())) && Work() == |source.synthesis.View().arrivals|
    {
    }

    /** stream_layer_drop_jobs and the error event, after a command or a synthesis failed. */
    method Fail(failure: Failure)
      requires Valid() && source == NoSource
      modifies Repr
      ensures Valid() && Repr == old(Repr) && source == NoSource
      ensures View() == Dropped(old(View()), failure)
    {
      hide JobList.Valid, SourceValid;
      jobs.Clear();
      events := events + [Error(failure)];
    }

    /** The switch of stream_layer_merge_frame: mixes from the present source. */
    method MergeSource(target: array<short>, at: nat, slots: nat, ghost m: Mix)
      returns (failed: bool, at': nat, slots': nat, ghost m': Mix)
      requires Valid() && Completes(world, m) && source != NoSource && slots > 0 && target !in Repr
      requires Reflects(m, View(), target, at, slots) && m.outcome == Merging
      modifies Repr, target
      ensures Valid() && fresh(Repr - old(Repr)) && override == old(override)
      ensures Reflects(m', View(), target, at', slots') && m'.outcome == if failed then Broken else Merging
      ensures MergeAll(world, m) == MergeAll(world, m')
      ensures jobs.Waiting() == if failed then [] else old(jobs.Waiting())
      ensures failed ==> source == NoSource
      ensures source != NoSource ==> Work() <= old(Work()) && (slots' < slots || Work() < old(Work()))
    {
      hide Consistent, Laid, MergeAll, Completes;
      failed, at' := false, at;
      match source
      case Playing(_) =>
        at', slots', m' := MergeFile(target, at, slots, m);
      case Sleeping(_) =>
        slots', m' := MergeSleep(slots, m);
      case Speaking(_) =>
        failed, at', slots', m' := MergeSpeaking(target, at, slots, m);
    }

    /** Carries the outcome of checking the jobs over to the mixing. */
    lemma AfterCheck(m: Mix, before: View, failure: Option<Failure>, busy: bool) returns (m': Mix)
      requires Checked(world, before, View(), failure, busy)
      requires m.view == Overridden(before) && m.slots > 0 && m.outcome == Merging
      ensures MergeAll(world, m) == MergeAll(world, m') && m'.laid == m.laid && m'.slots == m.slots
      ensures m'.view == if failure.Some? then Dropped(View(), failure.value) else View()
      ensures m'.outcome == if failure.Some? then Broken else if !busy then Idle else Merging
      ensures m.view.part.Some? || |View().waiting| < |before.waiting| || !busy
      ensures |View().waiting| <= |before.waiting| && (failure.Some? || !busy ==> View().part.None?)
      ensures failure.None? && !busy ==> View().waiting == []
    {
      hide MergeAll, View, StartOf, StartEvents, Played;
      m' := m;
      if m.view.part.None? {
        MergeOn(world, m);
        StepTakes(world, m);
        m' := Step(world, m);
      }
    }

    /** One pass of the merge loop: jobs are checked, then the source is mixed. */
    method MergeStep(target: array<short>, at: nat, slots: nat, ghost m: Mix)
      returns (going: bool, at': nat, slots': nat, ghost m': Mix)
      requires Valid() && Completes(world, m) && slots > 0 && target !in Repr
      requires Reflects(m, Overridden(View()), target, at, slots) && m.outcome == Merging
      modifies Repr, target
      ensures Valid() && fresh(Repr - old(Repr)) && !override
      ensures Reflects(m', View(), target, at', slots') && going == (m'.outcome == Merging)
      ensures MergeAll(world, m) == MergeAll(world, m')
      ensures !going ==> source == NoSource && jobs.Waiting() == []
      ensures going ==>
        || |jobs.Waiting()| < |old(jobs.Waiting())|
        || (|jobs.Waiting()| == |old(jobs.Waiting())| && old(source) != NoSource &&
            (source != NoSource ==> Work() <= old(Work()) && (slots' < slots || Work() < old(Work()))))
    {
      hide Valid, Laid, Work, Part, View, MergeAll, Checked, Dropped;
      at', slots' := at, slots;
      SourceView();
      ghost var before := View();
      var failure, busy := CheckJobs();
      SourceView();
      m' := AfterCheck(m, before, failure, busy);
      going := failure.None? && busy;
      if failure.Some? {
        DroppedNone(View(), failure.value);
        Fail(failure.value);
        SourceView();
      } else if busy && source != NoSource {
        var failed;
        failed, at', slots', m' := MergeSource(target, at, slots, m');
        going := !failed;
        SourceView();
      }
    }

    /** stream_layer_merge_frame. */
    method MergeFrame(target: array<short>) returns (ghost m: Mix)
      requires Valid() && Completes(world, Begun(View())) && target !in Repr
      requires target.Length == FRAME_SAMPLES && Laid(target, [])
      modifies Repr, target
      ensures Valid() && fresh(Repr - old(Repr))
      ensures m == PassMix(world, old(View())) && View() == m.view && Laid(target, m.laid)
      ensures |m.laid| + m.slept + m.underrun + m.slots == target.Length
      ensures m.slots > 0 ==> source == NoSource && jobs.Waiting() == []
    {
      hide Valid, Laid, Work, View, MergeAll;
      m := Begun(View());
      ghost var start := m;
      OverriddenTwice(View());
      SlotsAccounted(world, View());
      var at: nat, slots: nat, going := 0, target.Length, true;
      while slots > 0 && going
        invariant Valid() && fresh(Repr - old(Repr)) && target !in Repr
        invariant Reflects(m, Overridden(View()), target, at, slots) && going == (m.outcome == Merging)
        invariant MergeAll(world, m) == MergeAll(world, start)
        invariant !going || slots == 0 ==> m.view == View()
        invariant !going ==> source == NoSource && jobs.Waiting() == []
        decreases going, |jobs.Waiting()|, if source == NoSource then 0 else 1, Work(), slots
      {
        going, at, slots, m := MergeStep(target, at, slots, m);
        NotOverridden();
      }
      MergeDone(world, m);
    }

    lemma NotOverridden()
      requires !override
      ensures Overridden(View()) == View()
    {
    }

    /** One pass of the tick's merge loop: a merge, then the Finished event and the check for
        commands left over. */
    method Pass(target: array<short>) returns (again: bool, busy: bool, ghost laid: seq<short>)
      requires Valid() && Completes(world, Begun(View())) && target !in Repr
      requires target.Length == FRAME_SAMPLES && Laid(target, [])
      modifies Repr, target
      ensures Valid() && fresh(Repr - old(Repr)) && target !in Repr
      ensures View() == Playback.Pass(world, old(View())) && laid == PassMix(world, old(View())).laid
      ensures Laid(target, laid) && busy == (source != NoSource) && again == Again(View())
    {
      hide Valid, Laid, View, PassMix;
      SourceView();
      var wasBusy := source != NoSource;
      ghost var m := MergeFrame(target);
      SourceView();
      laid := m.laid;
      busy := source != NoSource;
      if wasBusy && !busy {
        Finish();
      }
      SourceView();
      var empty := NoJobs();
      again := !busy && !empty;
    }

    method Finish()
      requires Valid()
      modifies this`events
      ensures Valid() && View() == old(View()).(events := old(View()).events + [Finished])
    {
      hide Consistent;
      Publish(Finished);
    }

    method NoJobs() returns (empty: bool)
      requires Valid()
      ensures empty == (jobs.Waiting() == []) && Valid() && View() == old(View())
    {
      empty := jobs.IsEmpty();
    }

    /** Steps 1 and 2 of stream_layer_stream_merged_frame: a silent frame, then merge passes
        while commands are left over; there are never more than two. */
    method MixTick() returns (frame: array<short>, busyBefore: bool, busyAfter: bool, passes: nat)
      requires Valid() && TickCompletes(world, View())
      modifies Repr
      ensures Valid() && fresh(Repr - old(Repr)) && fresh(frame) && frame.Length == FRAME_SAMPLES
      ensures var t := TickOf(world, old(View()));
        View() == t.view && |t.laid| <= FRAME_SAMPLES && frame[..] == t.laid + Silence(FRAME_SAMPLES - |t.laid|)
      ensures busyBefore == (old(source) != NoSource) && busyAfter == (source != NoSource)
      ensures 1 <= passes <= 2 && (passes == 2 ==> Flowing(old(View()).part))
      ensures source == NoSource ==> jobs.Waiting() == []
    {
      hide Consistent, View, Playback.Pass, PassMix, Completes;
      ghost var start, laid := View(), [];
      SourceView();
      SecondPassIsLast(world, start);
      busyBefore := source != NoSource;
      busyAfter, passes := false, 0;
      frame := new short[FRAME_SAMPLES](_ => 0);
      assert frame[..] == [] + Silence(FRAME_SAMPLES);
      var again := true;
      while again
        invariant Valid() && fresh(Repr - old(Repr)) && frame !in Repr && passes <= 2
        invariant Laid(frame, laid) && again == (passes == 0 || Again(View()))
        invariant passes == 0 ==> View() == start && laid == []
        invariant passes == 1 ==> View() == Playback.Pass(world, start) && laid == PassMix(world, start).laid
        invariant passes == 2 ==>
          && Again(Playback.Pass(world, start)) && View() == Playback.Pass(world, Playback.Pass(world, start))
          && laid == PassMix(world, Playback.Pass(world, start)).laid
        invariant (again ==> !busyAfter) && (passes > 0 ==> busyAfter == (source != NoSource))
        decreases 2 - passes
      {
        var busy;
        again, busy, laid := Pass(frame);
        SourceView();
        busyAfter := busyAfter || busy;
        passes := passes + 1;
      }
      SourceView();
    }
  }

  /** What checking the jobs makes of a layer. */
  ghost predicate Checked(world: World, before: View, after: View, failure: Option<Failure>, busy: bool) {
    var v := Overridden(before);
    if v.part.Some? then busy && failure == None && after == v
    else if v.waiting == [] then !busy && failure == None && after == v
    else
      var start := StartOf(world, |v.turns|, v.waiting[0]);
      && after == Taken(world, v) && busy == !start.Fails?
      && failure == if start.Fails? then Some(start.failure) else None
  }

  /** `m` is how far the mixing of `target` has come, and the layer is at `v`. */
  ghost predicate Reflects(m: Mix, v: View, target: array<short>, at: nat, slots: nat)
    reads target
  {
    && m.view == v && Laid(target, m.laid) && at == |m.laid| && slots == m.slots
    && target.Length == FRAME_SAMPLES
  }

  /** A file with nothing left ends. */
  lemma EndFile(world: World, m: Mix) returns (m': Mix)
    requires m.view.part == Some(FilePart([])) && m.slots > 0 && m.outcome == Merging
    ensures m' == m.(view := Ended(m.view, [], 0, PlayedOut)) && MergeAll(world, m) == MergeAll(world, m')
  {
    hide MergeAll, Played;
    m' := m.(view := Ended(m.view, [], 0, PlayedOut));
    MergeOn(world, m);
    assert m.laid + [] == m.laid && m.due + SlotsFrom(FRAME_SAMPLES - m.slots, 0) == m.due;
  }

  ghost function Announced(v: View, speech: Speech): View {
    v.(part := Some(SpeechPart(speech.(announced := true))),
       events := v.events + if speech.announced then [] else [Duration])
  }

  ghost function Spoke(v: View, before: Speech, after: Speech): View {
    v.(part := Some(SpeechPart(after)),
       events := v.events + if !before.reached && after.reached then [StreamingStarted] else [])
  }

  lemma TurnParts(v: View, announced: View, spoke: View, before: Speech, s: SpeechMerge)
    requires announced == Announced(v, before) && spoke == Spoke(announced, before.(announced := true), s.speech)
    ensures SpeechTurn(v, before, s) ==
      if s.stopped then Ended(spoke, s.added, 0, if s.result.Failed? then Broke else PlayedOut)
      else Continued(spoke, s.added, 0, SpeechPart(s.speech))
  {
    Join(v.events, if before.announced then [] else [Duration],
      if !before.reached && s.speech.reached then [StreamingStarted] else []);
  }

  /** The step of a layer whose source is a synthesis, as long as it does not hang. */
  lemma SpeechStepParts(world: World, m: Mix, speech: Speech)
    requires m.view.part == Some(SpeechPart(speech)) && m.slots > 0 && m.outcome == Merging
    requires Step(world, m).outcome != Stuck
    ensures var s, m' := MergeSpeech(speech.(announced := true), m.slots), Step(world, m);
      && m'.laid == m.laid + s.added && m'.slots == s.slots && |s.added| + s.slots <= m.slots
      && m'.outcome == (if s.result.Failed? then Broken else Merging)
      && (s.result.Failed? ==> s.stopped) && |s.speech.arrivals| <= |speech.arrivals|
      && (!s.stopped && s.slots > 0 ==> |s.speech.arrivals| < |speech.arrivals|)
    ensures var s := MergeSpeech(speech.(announced := true), m.slots);
      var v := SpeechTurn(m.view, speech, s);
      && Step(world, m).view == (if s.result.Failed? then Dropped(v, SynthesisFailed) else v)
      && v.waiting == m.view.waiting && v.override == m.view.override
      && v.part == (if s.stopped then None else Some(SpeechPart(s.speech)))
  {
    hide MergeSpeech, Played;
    ArrivalsShrink(speech.(announced := true), m.slots);
  }

  lemma DroppedNone(v: View, failure: Failure)
    ensures Dropped(v, failure).waiting == [] && Dropped(v, failure).override == v.override
    ensures Dropped(v, failure).part == v.part
  {
  }

  lemma OverriddenTwice(v: View)
    ensures Overridden(Overridden(v)) == Overridden(v)
  {
  }
}
