/** The writer thread of the speech recogniser (grpc_stt.cpp:334-343, 397-489): voice frames are
    sent as they come, and gaps are filled with silence so that what was sent keeps step with
    the clock. */
module AsrWriter {
  import opened Audio
  import opened Sources
  import opened Time

  const MAX_FRAME_SAMPLES := 800
  const ALIGNMENT_SAMPLES := 80

  datatype AstFrame = Voice(frame: VoiceFrame) | NotVoice

  datatype Sent = SilenceSent(samples: nat) | VoiceSent(data: seq<short>)
  {
    function Size(): nat { if SilenceSent? then samples else |data| }
  }

  /** aligned_samples, with C's division. */
  function AlignedSamples(samples: int): int {
    Quotient(samples + ALIGNMENT_SAMPLES / 2, ALIGNMENT_SAMPLES) * ALIGNMENT_SAMPLES
  }

  /** A positive result is the nearest multiple of 80, upwards when two are equally near; there
      is none exactly when fewer than 40 samples are asked for. */
  lemma AlignedNearest(samples: int)
    ensures AlignedSamples(samples) % ALIGNMENT_SAMPLES == 0
    ensures AlignedSamples(samples) > 0 <==> samples >= 40
    ensures AlignedSamples(samples) > 0 ==> -40 <= samples - AlignedSamples(samples) <= 39
  {
  }

  /** What filling a gap of `lag` less `size` samples does to the lag: it comes down to `size`
      within an alignment exactly if it fitted an int. */
  lemma GapFilled(lag: int, size: nat)
    ensures var aligned := AlignedSamples(ToInt(lag) - size);
      var silence := if aligned > 0 then aligned else 0;
      && (size + 39 < INT_BOUND ==> (lag - silence <= size + 39 <==> lag < INT_BOUND))
      && (silence > 0 && lag >= -INT_BOUND ==> lag - silence >= size - 40)
  {
    hide AlignedSamples;
    AlignedNearest(ToInt(lag) - size);
  }

  function Count(sent: seq<Sent>): nat {
    if sent == [] then 0 else Count(sent[..|sent| - 1]) + sent[|sent| - 1].Size()
  }

  /** The voice data sent, message by message. */
  function VoiceData(sent: seq<Sent>): seq<seq<short>> {
    if sent == [] then []
    else
      var last := sent[|sent| - 1];
      VoiceData(sent[..|sent| - 1]) + if last.VoiceSent? then [last.data] else []
  }

  /** What frames have to say to the recogniser: the decoded voice of the supported formats. */
  function Speech(codec: Codec, frames: seq<AstFrame>): seq<seq<short>> {
    if frames == [] then []
    else
      var last := frames[|frames| - 1];
      Speech(codec, frames[..|frames| - 1]) + if Supported(last) then [codec.Decode(last.frame)] else []
  }

  predicate Supported(frame: AstFrame) {
    frame.Voice? && !frame.frame.OtherFrame?
  }

  lemma SentOne(sent: seq<Sent>, message: Sent)
    ensures Count(sent + [message]) == Count(sent) + message.Size()
    ensures VoiceData(sent + [message]) == VoiceData(sent) + if message.VoiceSent? then [message.data] else []
  {
    assert (sent + [message])[..|sent|] == sent;
  }

  lemma SpeechOne(codec: Codec, frames: seq<AstFrame>, frame: AstFrame)
    ensures Speech(codec, frames + [frame])
         == Speech(codec, frames) + if Supported(frame) then [codec.Decode(frame.frame)] else []
  {
    assert (frames + [frame])[..|frames|] == frames;
  }

  lemma {:induction false} SpeechPrefix(codec: Codec, frames: seq<AstFrame>, more: seq<AstFrame>)
    ensures Speech(codec, frames) <= Speech(codec, frames + more)
  {
    if more == [] {
      assert frames + more == frames;
    } else {
      assert (frames + more)[..|frames + more| - 1] == frames + more[..|more| - 1];
      SpeechPrefix(codec, frames, more[..|more| - 1]);
    }
  }

  /** `data` is the voice of the frame: each byte through the table of its format, or the samples
      themselves. */
  ghost predicate Carries(codec: Codec, frame: VoiceFrame, data: seq<short>) {
    match frame
    case AlawFrame(coded) => |data| == |coded| && forall i :: 0 <= i < |coded| ==> data[i] == codec.alaw(coded[i])
    case MulawFrame(coded) => |data| == |coded| && forall i :: 0 <= i < |coded| ==> data[i] == codec.mulaw(coded[i])
    case SlinFrame(samples) => data == samples
    case OtherFrame(_) => false
  }

  /** The messages are those of the voice frames, one each and in order; frames that are not voice,
      or of another format, have none. */
  ghost predicate Spoken(codec: Codec, frames: seq<AstFrame>, messages: seq<seq<short>>)
    decreases |frames|
  {
    if frames == [] then messages == []
    else
      var before, last := frames[..|frames| - 1], frames[|frames| - 1];
      if last.Voice? && !last.frame.OtherFrame? then
        && messages != [] && Carries(codec, last.frame, messages[|messages| - 1])
        && Spoken(codec, before, messages[..|messages| - 1])
      else Spoken(codec, before, messages)
  }

  lemma {:induction false} SpeechSpoken(codec: Codec, frames: seq<AstFrame>)
    ensures Spoken(codec, frames, Speech(codec, frames))
    decreases |frames|
  {
    if frames != [] {
      var before, last := frames[..|frames| - 1], frames[|frames| - 1];
      SpeechSpoken(codec, before);
      if last.Voice? && !last.frame.OtherFrame? {
        var speech := Speech(codec, frames);
        assert speech[..|speech| - 1] == Speech(codec, before);
      } else {
        assert Speech(codec, frames) == Speech(codec, before);
      }
    }
  }

  /** What the outside does while the writer drains the frame list: which frames arrive before
      each look at the list (none from look `quiet` on), the clock, and which writes succeed. */
  datatype Drain = Drain(
    arrivals: nat -> seq<AstFrame>,
    quiet: nat,
    clock: nat -> Timespec,
    silenceOk: nat -> bool,
    voiceOk: nat -> bool)
  {
    /** What arrives before the first `looks` looks. */
    function Arrived(looks: nat): seq<AstFrame> {
      if looks == 0 then [] else Arrived(looks - 1) + arrivals(looks - 1)
    }

    ghost predicate Sound() {
      && (forall i :: clock(i).Normal())
      && (forall i :: i >= quiet ==> arrivals(i) == [])
    }
  }

  /** Why poll returned, and what arrived before. */
  datatype Wake =
    | HangupOrTerminate
    | TimedOut(now: Timespec, writeOk: bool)
    | FramesReady(drain: Drain)
  {
    ghost predicate Sound() {
      && (TimedOut? ==> now.Normal())
      && (FramesReady? ==> drain.Sound())
    }

    /** What arrives while this wake is served, if the list is looked at `looks` times. */
    function Arrived(looks: nat): seq<AstFrame> {
      if FramesReady? then drain.Arrived(looks) else []
    }
  }

  function AllArrived(wakes: seq<Wake>, looks: seq<nat>): seq<AstFrame>
    requires |looks| <= |wakes|
  {
    if looks == [] then []
    else
      var last := |looks| - 1;
      AllArrived(wakes, looks[..last]) + wakes[last].Arrived(looks[last])
  }

  lemma OneMoreWake(wakes: seq<Wake>, looks: seq<nat>, more: nat)
    requires |looks| < |wakes|
    ensures AllArrived(wakes, looks + [more]) == AllArrived(wakes, looks) + wakes[|looks|].Arrived(more)
  {
    assert (looks + [more])[..|looks|] == looks;
  }

  // ---------------------------------------------------------------- the writer on values

  /** The frames listed, what was sent, and whether the stream still takes writes. */
  datatype Stream = Stream(frames: seq<AstFrame>, sent: seq<Sent>, valid: bool)

  /** How many whole samples what was sent since `start` lags behind `now`. */
  function LagOf(start: int, sent: seq<Sent>, now: Timespec): int {
    (now.Nanos() - start) / SAMPLE_NANOS - Count(sent)
  }

  function Filled(w: Stream, gap: int, ok: bool): Stream {
    var silence := AlignedSamples(gap);
    if silence > 0 then w.(sent := w.sent + [SilenceSent(silence)], valid := w.valid && ok) else w
  }

  function AfterTimeout(start: int, w: Stream, now: Timespec, ok: bool): Stream {
    Filled(w, ToInt(LagOf(start, w.sent, now)) - MAX_FRAME_SAMPLES, ok)
  }

  /** The first frame is taken off the list: if it is the first voice frame of a drain the gap up
      to it is filled, and it is sent if its format is supported. */
  function AfterFirst(
      codec: Codec, start: int, w: Stream, gapHandled: bool, now: Timespec, silenceOk: bool, voiceOk: bool): Stream
    requires w.frames != []
  {
    var frame := w.frames[0];
    var f :=
      if frame.Voice? && !gapHandled then
        Filled(w, ToInt(LagOf(start, w.sent, now)) - frame.frame.Size(), silenceOk)
      else w;
    var rest := f.(frames := w.frames[1..]);
    if Supported(frame) then
      rest.(sent := rest.sent + [VoiceSent(codec.Decode(frame.frame))], valid := rest.valid && voiceOk)
    else rest
  }

  ghost function AfterDrain(codec: Codec, start: int, w: Stream, drain: Drain, look: nat, gapHandled: bool): Stream
    requires drain.Sound()
    decreases if look < drain.quiet then drain.quiet - look else 0, |w.frames|
  {
    var a := w.(frames := w.frames + drain.arrivals(look));
    if !w.valid then w
    else if a.frames == [] then a
    else
      var b := AfterFirst(codec, start, a, gapHandled, drain.clock(look), drain.silenceOk(look), drain.voiceOk(look));
      AfterDrain(codec, start, b, drain, look + 1, gapHandled || a.frames[0].Voice?)
  }

  ghost function AfterWake(codec: Codec, start: int, w: Stream, wake: Wake): Stream
    requires wake.Sound()
  {
    match wake
    case HangupOrTerminate => w
    case TimedOut(now, writeOk) => AfterTimeout(start, w, now, writeOk)
    case FramesReady(drain) => AfterDrain(codec, start, w, drain, 0, false)
  }

  function Silences(sent: seq<Sent>): nat {
    if sent == [] then 0
    else Silences(sent[..|sent| - 1]) + if sent[|sent| - 1].SilenceSent? then 1 else 0
  }

  lemma SilenceSnoc(sent: seq<Sent>, message: Sent)
    ensures Silences(sent + [message]) == Silences(sent) + if message.SilenceSent? then 1 else 0
  {
    assert (sent + [message])[..|sent|] == sent;
  }

  lemma FirstSilence(
      codec: Codec, start: int, w: Stream, gapHandled: bool, now: Timespec, silenceOk: bool, voiceOk: bool)
    requires w.frames != []
    ensures var after := AfterFirst(codec, start, w, gapHandled, now, silenceOk, voiceOk);
      Silences(after.sent) <= Silences(w.sent) + if w.frames[0].Voice? && !gapHandled then 1 else 0
  {
    hide Silences, ToInt, LagOf, AlignedSamples, Codec.Decode;
    var frame := w.frames[0];
    var silence := AlignedSamples(ToInt(LagOf(start, w.sent, now)) - if frame.Voice? then frame.frame.Size() else 0);
    var filled := if silence > 0 && frame.Voice? && !gapHandled then w.sent + [SilenceSent(silence)] else w.sent;
    if silence > 0 {
      SilenceSnoc(w.sent, SilenceSent(silence));
    }
    if Supported(frame) {
      SilenceSnoc(filled, VoiceSent(codec.Decode(frame.frame)));
    }
  }

  /** A drain sends silence once at most, and only before its first voice frame. */
  lemma {:induction false} SilenceOncePerDrain(
      codec: Codec, start: int, w: Stream, drain: Drain, look: nat, gapHandled: bool)
    requires drain.Sound()
    ensures Silences(AfterDrain(codec, start, w, drain, look, gapHandled).sent)
         <= Silences(w.sent) + if gapHandled then 0 else 1
    decreases if look < drain.quiet then drain.quiet - look else 0, |w.frames|
  {
    hide Silences, AfterFirst;
    var a := w.(frames := w.frames + drain.arrivals(look));
    if w.valid && a.frames != [] {
      var now, silenceOk, voiceOk := drain.clock(look), drain.silenceOk(look), drain.voiceOk(look);
      FirstSilence(codec, start, a, gapHandled, now, silenceOk, voiceOk);
      FirstFrames(codec, start, a, gapHandled, now, silenceOk, voiceOk);
      var b := AfterFirst(codec, start, a, gapHandled, now, silenceOk, voiceOk);
      SilenceOncePerDrain(codec, start, b, drain, look + 1, gapHandled || a.frames[0].Voice?);
    }
  }

  lemma FirstFrames(
      codec: Codec, start: int, w: Stream, gapHandled: bool, now: Timespec, silenceOk: bool, voiceOk: bool)
    requires w.frames != []
    ensures AfterFirst(codec, start, w, gapHandled, now, silenceOk, voiceOk).frames == w.frames[1..]
  {
  }

  ghost function AfterAll(codec: Codec, start: int, w: Stream, wakes: seq<Wake>): Stream
    requires forall i :: 0 <= i < |wakes| ==> wakes[i].Sound()
    decreases |wakes|
  {
    if wakes == [] || !w.valid || wakes[0].HangupOrTerminate? then w
    else AfterAll(codec, start, AfterWake(codec, start, w, wakes[0]), wakes[1..])
  }

  lemma DrainOn(codec: Codec, start: int, w: Stream, drain: Drain, look: nat, gapHandled: bool)
    requires drain.Sound()
    ensures var a := w.(frames := w.frames + drain.arrivals(look));
      AfterDrain(codec, start, w, drain, look, gapHandled) ==
        if !w.valid then w
        else if a.frames == [] then a
        else
          var now, silenceOk, voiceOk := drain.clock(look), drain.silenceOk(look), drain.voiceOk(look);
          var b := AfterFirst(codec, start, a, gapHandled, now, silenceOk, voiceOk);
          AfterDrain(codec, start, b, drain, look + 1, gapHandled || a.frames[0].Voice?)
  {
  }

  /** After a failed write nothing more is sent or taken off the list, and a hangup or termination
      ends the writer. */
  lemma NothingAfterEnd(
      codec: Codec, start: int, w: Stream, drain: Drain, look: nat, gapHandled: bool, wakes: seq<Wake>)
    requires drain.Sound() && forall i :: 0 <= i < |wakes| ==> wakes[i].Sound()
    ensures !w.valid ==> AfterDrain(codec, start, w, drain, look, gapHandled) == w
    ensures !w.valid || (wakes != [] && wakes[0].HangupOrTerminate?) ==> AfterAll(codec, start, w, wakes) == w
  {
  }

  class Writer {
    const codec: Codec
    var audioFrames: seq<AstFrame>
    var lastFrameMoment: Timespec
    var streamValid: bool
    var sent: seq<Sent>
    ghost const start: int
    ghost var arrived: seq<AstFrame>
    ghost var removed: seq<AstFrame>

    /** The moment up to which audio was sent is the start plus exactly one sample time for each
        sample sent. */
    ghost predicate InStep()
      reads this
    {
      lastFrameMoment.Normal() && lastFrameMoment.Nanos() == start + SAMPLE_NANOS * Count(sent)
    }

    /** The voice sent is that of the frames removed, in arrival order, each once. */
    ghost predicate InOrder()
      reads this
    {
      removed + audioFrames == arrived && VoiceData(sent) == Speech(codec, removed)
    }

    /** Silence is sent in multiples of 80 samples, and never none. */
    ghost predicate InBlocks()
      reads this
    {
      forall i :: 0 <= i < |sent| && sent[i].SilenceSent? ==>
        sent[i].samples > 0 && sent[i].samples % ALIGNMENT_SAMPLES == 0
    }

    ghost predicate Valid()
      reads this
    {
      InStep() && InOrder() && InBlocks()
    }

    ghost function Now(): Stream
      reads this
    {
      Stream(audioFrames, sent, streamValid)
    }

    /** How many whole samples the stream lags behind `now`. */
    ghost function Lag(now: Timespec): int
      reads this
    {
      (now.Nanos() - lastFrameMoment.Nanos()) / SAMPLE_NANOS
    }

    constructor (codec: Codec, now: Timespec)
      requires now.Normal()
      ensures Valid() && start == now.Nanos() && sent == [] && arrived == [] && streamValid
    {
      this.codec := codec;
      audioFrames, lastFrameMoment, streamValid, sent := [], now, true, [];
      start, arrived, removed := now.Nanos(), [], [];
    }

    /** The lag is what the clock has moved on since the start less what was sent. */
    lemma LagIsElapsedLessSent(now: Timespec)
      requires InStep()
      ensures Lag(now) == (now.Nanos() - start) / SAMPLE_NANOS - Count(sent)
    {
    }

    /** Each voice frame taken off the list has its own message, in order. */
    lemma VoiceSpoken()
      requires InOrder()
      ensures Spoken(codec, removed, VoiceData(sent)) && removed + audioFrames == arrived
    {
      SpeechSpoken(codec, removed);
    }

    /** The voice sent is the beginning of what arrived, in order, each frame once. */
    lemma VoiceInArrivalOrder()
      requires InOrder()
      ensures VoiceData(sent) <= Speech(codec, arrived)
    {
      SpeechPrefix(codec, removed, audioFrames);
    }

    method ReapAudioFrame(frame: AstFrame)
      requires Valid()
      modifies this`audioFrames, this`arrived
      ensures Valid() && arrived == old(arrived) + [frame] && audioFrames == old(audioFrames) + [frame]
    {
      audioFrames := audioFrames + [frame];
      arrived := arrived + [frame];
    }

    /** Sends `samples` samples of silence or the given voice data and moves the clock on. */
    method Send(message: Sent, ok: bool)
      requires InStep()
      modifies this`lastFrameMoment, this`streamValid, this`sent
      ensures InStep() && sent == old(sent) + [message] && streamValid == (old(streamValid) && ok)
      ensures forall now: Timespec :: Lag(now) == old(Lag(now)) - message.Size()
    {
      SentOne(sent, message);
      sent := sent + [message];
      if !ok {
        streamValid := false;
      }
      ghost var before := lastFrameMoment;
      lastFrameMoment := AddSamples(lastFrameMoment, message.Size(), RATE, true);
    }

    /** Fills a gap of about `gap` samples with silence; returns what was sent. */
    method FillGap(gap: int, ok: bool) returns (silence: nat)
      requires Valid()
      modifies this`lastFrameMoment, this`streamValid, this`sent
      ensures Valid() && streamValid == (old(streamValid) && (ok || silence == 0))
      ensures silence == if AlignedSamples(gap) > 0 then AlignedSamples(gap) else 0
      ensures silence % ALIGNMENT_SAMPLES == 0
      ensures sent == if silence > 0 then old(sent) + [SilenceSent(silence)] else old(sent)
      ensures forall now: Timespec :: Lag(now) == old(Lag(now)) - silence
      ensures gap - silence <= 39 && (silence > 0 ==> gap - silence >= -40)
      ensures Now() == Filled(old(Now()), gap, ok)
    {
      hide Count, VoiceData, Speech;
      AlignedNearest(gap);
      silence := if AlignedSamples(gap) > 0 then AlignedSamples(gap) else 0;
      if silence > 0 {
        SentOne(sent, SilenceSent(silence));
        Send(SilenceSent(silence), ok);
      }
    }

    /** The branch for a poll that timed out: afterwards the stream lags the sampled clock by at
        most 839 samples, unless it lagged by more than an int holds, and silence never brings
        the lag below 760, unless the stream was that much ahead. */
    method OnTimeout(now: Timespec, ok: bool) returns (silence: nat)
      requires Valid() && now.Normal()
      modifies this`lastFrameMoment, this`streamValid, this`sent
      ensures Valid() && streamValid == (old(streamValid) && (ok || silence == 0))
      ensures silence % ALIGNMENT_SAMPLES == 0
      ensures sent == if silence > 0 then old(sent) + [SilenceSent(silence)] else old(sent)
      ensures Lag(now) == old(Lag(now)) - silence
      ensures Lag(now) <= 839 <==> old(Lag(now)) < INT_BOUND
      ensures silence > 0 && old(Lag(now)) >= -INT_BOUND ==> Lag(now) >= 760
      ensures Now() == AfterTimeout(start, old(Now()), now, ok)
    {
      hide Count, VoiceData, Speech, AlignedSamples, ToInt;
      LagIsElapsedLessSent(now);
      GapFilled(Lag(now), MAX_FRAME_SAMPLES);
      var delta := DeltaSamples(now, lastFrameMoment, RATE);
      silence := FillGap(delta - MAX_FRAME_SAMPLES, ok);
    }

    /** The gap before the first voice frame of a drain. */
    method HandleGap(size: nat, now: Timespec, ok: bool) returns (silence: nat)
      requires Valid() && now.Normal()
      modifies this`lastFrameMoment, this`streamValid, this`sent
      ensures Valid() && silence % ALIGNMENT_SAMPLES == 0
      ensures sent == if silence > 0 then old(sent) + [SilenceSent(silence)] else old(sent)
      ensures Lag(now) == old(Lag(now)) - silence
      ensures size + 39 < INT_BOUND ==> (Lag(now) <= size + 39 <==> old(Lag(now)) < INT_BOUND)
      ensures silence > 0 && old(Lag(now)) >= -INT_BOUND ==> Lag(now) >= size - 40
      ensures streamValid == (old(streamValid) && (ok || silence == 0))
      ensures Now() == Filled(old(Now()), ToInt(LagOf(start, old(sent), now)) - size, ok)
    {
      hide Count, VoiceData, Speech, AlignedSamples, ToInt;
      LagIsElapsedLessSent(now);
      GapFilled(Lag(now), size);
      var delta := DeltaSamples(now, lastFrameMoment, RATE);
      silence := FillGap(delta - size, ok);
    }

    /** Takes the first frame off the list and sends it if it is supported voice; before the
        first voice frame of a drain the gap up to it is filled. Once that frame is sent the lag
        is at most 39 samples, exactly if it fitted an int before, and not below -40 if silence
        was needed; a frame of an unsupported format is not sent and leaves its own size besides. */
    method SendFirst(gapHandled: bool, now: Timespec, silenceOk: bool, voiceOk: bool)
      returns (gapHandled': bool, silence: nat)
      requires Valid() && audioFrames != [] && now.Normal()
      modifies this
      ensures Valid() && audioFrames == old(audioFrames)[1..] && arrived == old(arrived)
      ensures var frame := old(audioFrames)[0];
        && gapHandled' == (gapHandled || frame.Voice?)
        && (silence > 0 ==> frame.Voice? && !gapHandled) && silence % ALIGNMENT_SAMPLES == 0
        && sent == old(sent) + (if silence > 0 then [SilenceSent(silence)] else [])
                             + (if Supported(frame) then [VoiceSent(codec.Decode(frame.frame))] else [])
        && (frame.Voice? && !gapHandled ==>
              var missing := if Supported(frame) then 0 else frame.frame.Size();
              && (frame.frame.Size() + 39 < INT_BOUND ==>
                    (Lag(now) <= missing + 39 <==> old(Lag(now)) < INT_BOUND))
              && (silence > 0 && old(Lag(now)) >= -INT_BOUND ==> Lag(now) >= missing - 40))
        && streamValid == (old(streamValid) && (silenceOk || silence == 0) && (voiceOk || !Supported(frame)))
      ensures Now() == AfterFirst(codec, start, old(Now()), gapHandled, now, silenceOk, voiceOk)
    {
      hide Count, VoiceData, Speech, Codec.Decode, InStep, InOrder, InBlocks, ToInt, LagOf, Filled;
      var frame := audioFrames[0];
      gapHandled', silence := gapHandled, 0;
      assert sent + [] == sent;
      if frame.Voice? {
        if !gapHandled {
          silence := HandleGap(frame.frame.Size(), now, silenceOk);
          gapHandled' := true;
        }
      }
      RemoveFirst(voiceOk);
    }

    /** The part of a pass that sends the frame itself. */
    method RemoveFirst(voiceOk: bool)
      requires Valid() && audioFrames != []
      modifies this
      ensures Valid() && audioFrames == old(audioFrames)[1..] && arrived == old(arrived)
      ensures var frame := old(audioFrames)[0];
        if Supported(frame) then
          && sent == old(sent) + [VoiceSent(codec.Decode(frame.frame))]
          && streamValid == (old(streamValid) && voiceOk)
          && forall now: Timespec :: Lag(now) == old(Lag(now)) - frame.frame.Size()
        else
          sent == old(sent) && streamValid == old(streamValid) && forall now: Timespec :: Lag(now) == old(Lag(now))
    {
      hide Count, VoiceData, Speech, Codec.Decode;
      var frame := audioFrames[0];
      SpeechOne(codec, removed, frame);
      assert removed + audioFrames == removed + [frame] + audioFrames[1..];
      if Supported(frame) {
        SentOne(sent, VoiceSent(codec.Decode(frame.frame)));
        Send(VoiceSent(codec.Decode(frame.frame)), voiceOk);
      }
      audioFrames := audioFrames[1..];
      removed := removed + [frame];
    }

    /** The frames that arrive before one look at the list. */
    method Arrive(frames: seq<AstFrame>)
      requires Valid()
      modifies this`audioFrames, this`arrived
      ensures Valid() && arrived == old(arrived) + frames && audioFrames == old(audioFrames) + frames
    {
      hide Count, VoiceData, Speech;
      assert frames[..0] == [] && audioFrames + [] == audioFrames && arrived + [] == arrived;
      for i := 0 to |frames|
        invariant Valid() && arrived == old(arrived) + frames[..i] && audioFrames == old(audioFrames) + frames[..i]
      {
        ReapAudioFrame(frames[i]);
        assert frames[..i + 1] == frames[..i] + [frames[i]];
      }
      assert frames[..|frames|] == frames;
    }

    /** The inner loop: frames are sent until the list is found empty or a write fails. */
    method DrainFrames(drain: Drain) returns (looks: nat)
      requires Valid() && drain.Sound()
      modifies this
      ensures Valid() && (streamValid ==> audioFrames == []) && old(sent) <= sent
      ensures arrived == old(arrived) + drain.Arrived(looks) && (old(streamValid) ==> looks > 0)
      ensures Now() == AfterDrain(codec, start, old(Now()), drain, 0, false)
    {
      hide Valid, Codec.Decode, Supported, AfterFirst, AfterDrain;
      looks := 0;
      var gapHandled := false;
      while streamValid
        invariant Valid() && old(sent) <= sent && (looks == 0 ==> streamValid == old(streamValid))
        invariant arrived == old(arrived) + drain.Arrived(looks)
        invariant AfterDrain(codec, start, old(Now()), drain, 0, false)
               == AfterDrain(codec, start, Now(), drain, looks, gapHandled)
        decreases streamValid, if looks < drain.quiet then drain.quiet - looks else 0, |audioFrames|
      {
        DrainOn(codec, start, Now(), drain, looks, gapHandled);
        Arrive(drain.arrivals(looks));
        looks := looks + 1;
        if audioFrames == [] {
          return;
        }
        var silence;
        gapHandled, silence :=
          SendFirst(gapHandled, drain.clock(looks - 1), drain.silenceOk(looks - 1), drain.voiceOk(looks - 1));
      }
      DrainOn(codec, start, Now(), drain, looks, gapHandled);
    }

    /** The writer's outer loop, however often and why ever poll returns: what arrived is what
        came while each wake was served, in order, and all of it is sent or still listed. */
    method Run(wakes: seq<Wake>) returns (looks: seq<nat>)
      requires Valid() && forall i :: 0 <= i < |wakes| ==> wakes[i].Sound()
      modifies this
      ensures Valid() && old(sent) <= sent && |looks| <= |wakes|
      ensures arrived == old(arrived) + AllArrived(wakes, looks)
      ensures |looks| < |wakes| ==> !streamValid || wakes[|looks|].HangupOrTerminate?
      ensures forall i :: 0 <= i < |looks| ==> !wakes[i].HangupOrTerminate?
      ensures Now() == AfterAll(codec, start, old(Now()), wakes)
      ensures removed + audioFrames == arrived && Spoken(codec, removed, VoiceData(sent))
    {
      hide Valid, Wake.Arrived, AllArrived, AfterTimeout, AfterDrain, Spoken, VoiceData;
      ValidSpoken();
      looks := [];
      NoWakes(wakes);
      for i := 0 to |wakes|
        invariant Valid() && old(sent) <= sent && |looks| == i
        invariant arrived == old(arrived) + AllArrived(wakes, looks)
        invariant forall j :: 0 <= j < i ==> !wakes[j].HangupOrTerminate?
        invariant AfterAll(codec, start, old(Now()), wakes) == AfterAll(codec, start, Now(), wakes[i..])
        invariant Spoken(codec, removed, VoiceData(sent)) && removed + audioFrames == arrived
      {
        assert wakes[i..] == [wakes[i]] + wakes[i + 1..];
        if !streamValid || wakes[i].HangupOrTerminate? {
          return;
        }
        var look := 0;
        match wakes[i] {
          case TimedOut(now, writeOk) =>
            var silence := OnTimeout(now, writeOk);
          case FramesReady(drain) =>
            look := DrainFrames(drain);
        }
        ArrivedBy(wakes[i], look);
        OneMoreWake(wakes, looks, look);
        looks := looks + [look];
        ValidSpoken();
      }
    }

    lemma ValidSpoken()
      requires Valid()
      ensures Spoken(codec, removed, VoiceData(sent)) && removed + audioFrames == arrived
    {
      hide Spoken, VoiceData;
      VoiceSpoken();
    }
  }

  lemma NoWakes(wakes: seq<Wake>)
    ensures AllArrived(wakes, []) == []
  {
  }

  lemma ArrivedBy(wake: Wake, looks: nat)
    ensures wake.Arrived(looks) == if wake.FramesReady? then wake.drain.Arrived(looks) else []
  {
  }
}
