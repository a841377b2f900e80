/** The synthesis source (stream_layers.c:463-493, 856-916): it polls a ByteQueue that another
    thread fills, and mixes what it takes as 16-bit samples. */
module Synthesis {
  import opened Audio
  import opened Fifo
  import opened ByteQueues
  import opened Sources

  /** What one poll sees: the sender's operations since the last one, then the Collect.
      By Fifo.InterleavingsAlike every interleaving looks like this to the receiver. */
  function Polled(q: Queue, batch: seq<Op>): Queue {
    Run(q, batch).After(Collect)
  }

  function PolledAll(q: Queue, batches: seq<seq<Op>>): Queue
    decreases batches
  {
    if batches == [] then q.After(Collect) else PolledAll(Polled(q, batches[0]), batches[1..])
  }

  /** Enough is buffered to start playing, or the stream has ended. */
  predicate Ready(q: Queue, threshold: nat) {
    q.terminationCalled || |q.received| / 2 >= (if threshold > 0 then threshold else 1)
  }

  /** All the sender does, however it is spread over the polls. */
  function Flat(batches: seq<seq<Op>>): seq<Op> {
    if batches == [] then [] else batches[0] + Flat(batches[1..])
  }

  predicate AllSends(batches: seq<seq<Op>>) {
    forall i, j :: 0 <= i < |batches| && 0 <= j < |batches[i]| ==> batches[i][j].Sender()
  }

  lemma {:induction false} FlatSends(batches: seq<seq<Op>>)
    requires AllSends(batches)
    ensures OnlySends(Flat(batches))
  {
    if batches != [] {
      assert forall i, j :: 0 <= i < |batches[1..]| && 0 <= j < |batches[1..][i]| ==> batches[1..][i][j].Sender();
      FlatSends(batches[1..]);
    }
  }

  lemma {:induction false} SendsKeep(q: Queue, sends: seq<Op>)
    requires OnlySends(sends)
    ensures var r := Run(q, sends);
      && r.received == q.received && r.taken == q.taken
      && r.terminationCalled == q.terminationCalled && r.completionSuccess == q.completionSuccess
  {
    if sends != [] {
      SendsKeep(q, sends[..|sends| - 1]);
    }
  }

  /** A poll never takes readiness away. */
  lemma ReadyStays(q: Queue, sends: seq<Op>, threshold: nat)
    requires OnlySends(sends)
    requires Ready(q, threshold)
    ensures Ready(Polled(q, sends), threshold)
  {
    SendsKeep(q, sends);
  }

  lemma {:induction false} ReadyStaysAll(q: Queue, batches: seq<seq<Op>>, threshold: nat)
    requires AllSends(batches) && Ready(q, threshold)
    ensures Ready(PolledAll(q, batches), threshold)
    decreases batches
  {
    if batches == [] {
      ReadyStays(q, [], threshold);
    } else {
      ReadyStays(q, batches[0], threshold);
      ReadyStaysAll(Polled(q, batches[0]), batches[1..], threshold);
    }
  }

  /** The state after the first `k` polls. */
  function PolledFirst(q: Queue, batches: seq<seq<Op>>, k: nat): Queue
    decreases k
  {
    if k == 0 then q
    else if batches == [] then PolledFirst(q.After(Collect), [], k - 1)
    else PolledFirst(Polled(q, batches[0]), batches[1..], k - 1)
  }

  lemma {:induction false} CollectTwice(q: Queue, k: nat)
    requires q.inFlight == []
    ensures q.After(Collect) == q
    ensures PolledFirst(q, [], k) == q
  {
    assert q.received + Data([]) == q.received;
    if k > 0 {
      CollectTwice(q, k - 1);
    }
  }

  lemma {:induction false} PolledFirstAll(q: Queue, batches: seq<seq<Op>>, extra: nat)
    ensures PolledFirst(q, batches, |batches| + 1 + extra) == PolledAll(q, batches)
    decreases batches
  {
    if batches == [] {
      assert PolledFirst(q, [], 1 + extra) == PolledFirst(q.After(Collect), [], extra);
      CollectTwice(q.After(Collect), extra);
    } else {
      PolledFirstAll(Polled(q, batches[0]), batches[1..], extra);
    }
  }

  lemma CollectedOnce(q: Queue, k: nat)
    ensures PolledFirst(q.After(Collect), [], k) == PolledAll(q, [])
  {
    CollectTwice(q.After(Collect), k);
  }

  lemma PolledAllStep(q: Queue, batches: seq<seq<Op>>)
    requires batches != []
    ensures PolledAll(q, batches) == PolledAll(Polled(q, batches[0]), batches[1..])
  {
  }

  lemma {:induction false} PolledFirstReady(q: Queue, batches: seq<seq<Op>>, k: nat, threshold: nat)
    requires AllSends(batches) && Ready(PolledFirst(q, batches, k), threshold)
    ensures Ready(PolledAll(q, batches), threshold)
    decreases k
  {
    hide Queue.After, Run, Ready, PolledAll;
    if k == 0 {
      ReadyStaysAll(q, batches, threshold);
    } else if batches == [] {
      CollectedOnce(q, k - 1);
    } else {
      assert PolledAll(q, batches) == PolledAll(Polled(q, batches[0]), batches[1..]) by { PolledAllStep(q, batches); }
      PolledFirstReady(Polled(q, batches[0]), batches[1..], k - 1, threshold);
    }
  }

  /** The player waits for its first synthesis data inside one tick. Some poll lets it go on
      exactly when all the sender ever does makes the queue ready; a sender that stops short,
      such as the synthesis thread's early returns (job.cpp:46-57), keeps it there for ever. */
  lemma WaitEndsIff(q: Queue, batches: seq<seq<Op>>, threshold: nat)
    requires AllSends(batches)
    ensures (exists k: nat :: Ready(PolledFirst(q, batches, k), threshold))
       <==> Ready(PolledAll(q, batches), threshold)
  {
    if Ready(PolledAll(q, batches), threshold) {
      PolledFirstAll(q, batches, 0);
    }
    if k: nat :| Ready(PolledFirst(q, batches, k), threshold) {
      PolledFirstReady(q, batches, k, threshold);
    }
  }

  // ---------------------------------------------------------------- batches do not matter in the end

  lemma {:induction false} LastStopConcat(a: seq<Entry>, b: seq<Entry>)
    ensures LastStop(a + b) == if LastStop(b).Some? then LastStop(b) else LastStop(a)
  {
    if b == [] {
      assert a + b == a;
    } else {
      assert (a + b)[..|a + b| - 1] == a + b[..|b| - 1];
      LastStopConcat(a, b[..|b| - 1]);
    }
  }

  /** Sends after a Collect put the same entries in flight as they would have without it. */
  lemma {:induction false} SendsAfterCollect(q: Queue, sends: seq<Op>)
    requires OnlySends(sends)
    ensures var r, s := Run(q, sends), Run(q.After(Collect), sends);
      && r.inFlight == q.inFlight + s.inFlight
      && r.terminationPushed == s.terminationPushed && r.pushed == s.pushed
  {
    if sends != [] {
      SendsAfterCollect(q, sends[..|sends| - 1]);
    }
  }

  /** A Collect right before some sends makes no difference once the next Collect is made. */
  lemma CollectAbsorbed(q: Queue, sends: seq<Op>)
    requires OnlySends(sends)
    ensures Run(q.After(Collect), sends).After(Collect) == Run(q, sends).After(Collect)
  {
    hide Run, LastStop, Data;
    SendsAfterCollect(q, sends);
    SendsKeep(q, sends);
    SendsKeep(q.After(Collect), sends);
    var added := Run(q.After(Collect), sends).inFlight;
    LastStopConcat(q.inFlight, added);
    DataConcat(q.inFlight, added);
    assert q.received + Data(q.inFlight) + Data(added) == q.received + (Data(q.inFlight) + Data(added));
  }

  lemma RunNothing(q: Queue)
    ensures Run(q, []) == q
  {
  }

  /** However the sender's operations are spread over the polls, the queue ends up the same. */
  lemma {:induction false} BatchingIrrelevant(q: Queue, batches: seq<seq<Op>>)
    requires AllSends(batches)
    ensures PolledAll(q, batches) == Polled(q, Flat(batches))
    decreases batches
  {
    hide Queue.After, Run;
    if batches == [] {
      RunNothing(q);
    } else {
      var rest := batches[1..];
      BatchingIrrelevant(Polled(q, batches[0]), rest);
      FlatSends(rest);
      CollectAbsorbed(Run(q, batches[0]), Flat(rest));
      RunConcat(q, batches[0], Flat(rest));
    }
  }

  // ---------------------------------------------------------------- the source on values

  /** `history` is all that was done with the queue, `buffered` the unplayed rest of the buffered
      frame. */
  datatype Speech = Speech(
    history: seq<Op>,
    arrivals: seq<seq<Op>>,
    buffered: Option<seq<short>>,
    reached: bool,
    announced: bool,
    estimate: nat)
  {
    function Now(): Queue { Run(EMPTY, history) }

    function Batch(): seq<Op> { if arrivals == [] then [] else arrivals[0] }

    function Unplayed(): seq<short> { if buffered.Some? then buffered.value else [] }

    /** The sender does what it does before this poll, and all of it is collected. */
    function Poll(): Speech {
      this.(history := history + Batch() + [Collect], arrivals := if arrivals == [] then [] else arrivals[1..])
    }

    /** Whole samples at hand. */
    function Available(): nat { |Now().received| / 2 }

    /** All whole samples become the buffered frame. */
    function Take(): Speech {
      var count := 2 * Available();
      this.(history := history + [TakeBlock(count)],
            buffered := Some(ToSamples(Now().received[..count])),
            reached := true)
    }

    /** Enough whole samples to buffer a frame. */
    predicate Enough() {
      Available() > 0 && (Available() >= estimate || Now().terminationCalled)
    }

    /** The stream has ended and all its whole samples are taken. */
    predicate Ended() { Now().terminationCalled && Available() == 0 }

    /** Polls, and buffers a frame if there is enough for one. */
    function Refill(): Speech {
      if Poll().Enough() then Poll().Take() else Poll()
    }

    /** All that was sent and will be is `script`, and what was taken is `mixed` and then the
        unplayed rest. */
    ghost predicate Sound(script: seq<Op>, mixed: seq<short>) {
      && AllSends(arrivals) && Sent(history) + Flat(arrivals) == script
      && Now().taken == ToBytes(mixed + Unplayed())
    }

    /** Until playing starts, the sender is bound to make the queue ready. */
    ghost predicate Lively() {
      AllSends(arrivals) && (reached || Ready(PolledAll(Now(), arrivals), estimate))
    }
  }

  function NewSpeech(arrivals: seq<seq<Op>>, estimate: nat): Speech {
    Speech([], arrivals, None, false, false, estimate)
  }

  datatype MergeResult = Failed | Waiting | Merged

  /** What a merge comes to: `stopped` tells that the source is gone, `slots` how many are left. */
  datatype SpeechMerge = SpeechMerge(
    speech: Speech, result: MergeResult, stopped: bool, added: seq<short>, slots: nat)

  /** The slots behind a used-up frame are filled from one more frame, or stay silent. */
  function MergeRest(speech: Speech, slots: nat, added: seq<short>): SpeechMerge {
    var s := speech.(buffered := None).Refill();
    if s.buffered.Some? then
      var k := if slots < |s.buffered.value| then slots else |s.buffered.value|;
      SpeechMerge(s.(buffered := Some(s.buffered.value[k..])), Merged, false, added + s.buffered.value[..k], 0)
    else if s.Ended() && !s.Now().completionSuccess then SpeechMerge(s, Failed, true, added, slots)
    else SpeechMerge(s, Merged, false, added, 0)
  }

  /** Mixes from a buffered frame. */
  function MergeFrom(s: Speech, slots: nat): SpeechMerge
    requires s.buffered.Some?
  {
    var frame := s.buffered.value;
    if |frame| > slots then
      SpeechMerge(s.(buffered := Some(frame[slots..])), Merged, false, frame[..slots], 0)
    else if |frame| == slots then SpeechMerge(s.(buffered := None), Merged, false, frame, 0)
    else MergeRest(s, slots - |frame|, frame)
  }

  /** One merge: without a buffered frame it asks for one first. */
  function MergeSpeech(speech: Speech, slots: nat): SpeechMerge {
    var s := if speech.buffered.None? then speech.Refill() else speech;
    if s.buffered.Some? then MergeFrom(s, slots)
    else if s.Ended() && !s.Now().completionSuccess then SpeechMerge(s, Failed, true, [], slots)
    else SpeechMerge(s, Waiting, s.Ended(), [], if s.reached then 0 else slots)
  }

  // ---------------------------------------------------------------- nothing is lost

  lemma {:induction false} SentConcat(a: seq<Op>, b: seq<Op>)
    ensures Sent(a + b) == Sent(a) + Sent(b)
  {
    if b == [] {
      assert a + b == a;
    } else {
      assert (a + b)[..|a + b| - 1] == a + b[..|b| - 1];
      SentConcat(a, b[..|b| - 1]);
    }
  }

  lemma RunSnoc(ops: seq<Op>, op: Op)
    ensures Run(EMPTY, ops + [op]) == Run(EMPTY, ops).After(op)
    ensures Sent(ops + [op]) == Sent(ops) + if op.Sender() then [op] else []
  {
    assert (ops + [op])[..|ops|] == ops;
  }

  lemma BatchSends(s: Speech)
    requires AllSends(s.arrivals)
    ensures OnlySends(s.Batch()) && AllSends(s.Poll().arrivals)
    ensures Flat(s.arrivals) == s.Batch() + Flat(s.Poll().arrivals)
  {
  }

  lemma PollIs(s: Speech)
    requires AllSends(s.arrivals)
    ensures s.Poll().Now() == Polled(s.Now(), s.Batch())
    ensures Sent(s.Poll().history) == Sent(s.history) + s.Batch()
    ensures s.Poll().Now().taken == s.Now().taken && s.Poll().Now().inFlight == []
  {
    hide Run, Queue.After, Sent;
    BatchSends(s);
    RunConcat(EMPTY, s.history, s.Batch());
    RunSnoc(s.history + s.Batch(), Collect);
    SentConcat(s.history, s.Batch());
    SentAll(s.Batch());
    PolledKeeps(s.Now(), s.Batch());
    assert Sent(s.history) + s.Batch() + [] == Sent(s.history) + s.Batch();
  }

  lemma PolledKeeps(q: Queue, sends: seq<Op>)
    requires OnlySends(sends)
    ensures Polled(q, sends).taken == q.taken && Polled(q, sends).inFlight == []
  {
    SendsKeep(q, sends);
  }

  lemma PollSound(s: Speech, script: seq<Op>, mixed: seq<short>)
    requires s.Sound(script, mixed)
    ensures s.Poll().Sound(script, mixed)
  {
    hide Run, Queue.After, Sent, Flat, ToBytes;
    BatchSends(s);
    PollIs(s);
    Join(Sent(s.history), s.Batch(), Flat(s.Poll().arrivals));
  }

  lemma TakeIs(s: Speech)
    ensures s.Take().Now() == s.Now().After(TakeBlock(2 * s.Available())) == s.Now().Take(2 * s.Available())
    ensures Sent(s.Take().history) == Sent(s.history)
  {
    RunSnoc(s.history, TakeBlock(2 * s.Available()));
  }

  lemma TakeSound(s: Speech, script: seq<Op>, mixed: seq<short>)
    requires s.Sound(script, mixed) && s.buffered.None?
    ensures s.Take().Sound(script, mixed)
  {
    hide Run, Queue.After, Sent, Flat, ToBytes, ToSamples;
    TakeIs(s);
    NothingAdded(mixed);
    var bytes := s.Now().received[..2 * s.Available()];
    BytesRoundTrip(bytes);
    ToBytesConcat(mixed, ToSamples(bytes));
  }

  lemma RefillSound(s: Speech, script: seq<Op>, mixed: seq<short>)
    requires s.Sound(script, mixed) && s.buffered.None?
    ensures s.Refill().Sound(script, mixed)
  {
    hide Run, Speech.Sound, Speech.Enough;
    PollSound(s, script, mixed);
    if s.Poll().Enough() {
      TakeSound(s.Poll(), script, mixed);
    }
  }

  /** Mixing the front of the buffered frame moves it from the unplayed to the mixed samples. */
  lemma LaySound(s: Speech, script: seq<Op>, mixed: seq<short>, k: nat, rest: Option<seq<short>>)
    requires s.Sound(script, mixed) && k <= |s.Unplayed()|
    requires (if rest.Some? then rest.value else []) == s.Unplayed()[k..]
    ensures s.(buffered := rest).Sound(script, mixed + s.Unplayed()[..k])
  {
    hide Run, Sent, Flat, ToBytes;
    assert mixed + s.Unplayed() == mixed + s.Unplayed()[..k] + s.Unplayed()[k..];
  }

  lemma MergeRestSound(s: Speech, slots: nat, script: seq<Op>, mixed: seq<short>, added: seq<short>)
    requires s.(buffered := None).Sound(script, mixed + added)
    ensures var m := MergeRest(s, slots, added); m.speech.Sound(script, mixed + m.added)
  {
    hide Run, Speech.Sound, Speech.Refill, Speech.Ended;
    var r := s.(buffered := None).Refill();
    RefillSound(s.(buffered := None), script, mixed + added);
    if r.buffered.Some? {
      var k := if slots < |r.buffered.value| then slots else |r.buffered.value|;
      LaySound(r, script, mixed + added, k, Some(r.buffered.value[k..]));
      Join(mixed, added, r.buffered.value[..k]);
    }
  }

  lemma MergeFromSound(s: Speech, slots: nat, script: seq<Op>, mixed: seq<short>)
    requires s.Sound(script, mixed) && s.buffered.Some?
    ensures var m := MergeFrom(s, slots); m.speech.Sound(script, mixed + m.added)
  {
    hide Run, Speech.Sound, MergeRest;
    var frame := s.buffered.value;
    if |frame| > slots {
      LaySound(s, script, mixed, slots, Some(frame[slots..]));
    } else {
      assert frame[..|frame|] == frame && frame[|frame|..] == [];
      LaySound(s, script, mixed, |frame|, None);
      if |frame| < slots {
        MergeRestSound(s, slots - |frame|, script, mixed, frame);
      }
    }
  }

  /** A merge loses nothing: what it adds is the next of what was sent. */
  lemma MergeSound(s: Speech, slots: nat, script: seq<Op>, mixed: seq<short>)
    requires s.Sound(script, mixed)
    ensures var m := MergeSpeech(s, slots); m.speech.Sound(script, mixed + m.added)
  {
    hide Run, Speech.Sound, Speech.Refill, Speech.Ended, MergeFrom;
    NothingAdded(mixed);
    var t := s;
    if s.buffered.None? {
      RefillSound(s, script, mixed);
      t := s.Refill();
    }
    if t.buffered.Some? {
      MergeFromSound(t, slots, script, mixed);
    }
  }

  /** In every reachable state the bytes pushed are the samples mixed, the unplayed rest of the
      buffered frame, the bytes received and those in flight, in that order. */
  lemma EndToEnd(s: Speech, script: seq<Op>, mixed: seq<short>)
    requires s.Sound(script, mixed)
    ensures s.Now().pushed == ToBytes(mixed) + ToBytes(s.Unplayed()) + s.Now().received + Data(s.Now().inFlight)
  {
    hide Run, ToBytes;
    RunConserves(EMPTY, s.history);
    ToBytesConcat(mixed, s.Unplayed());
  }

  lemma SentSoFar(s: Speech, script: seq<Op>, mixed: seq<short>)
    requires s.Sound(script, mixed)
    ensures Sent(s.history) <= script
  {
  }

  /** What was mixed is always the beginning of what the sender's whole script offers. */
  lemma MixedIsOffered(s: Speech, script: seq<Op>, mixed: seq<short>)
    requires s.Sound(script, mixed)
    ensures mixed <= ToSamples(Offered(script))
  {
    hide Run, Sent, Flat, ToBytes, ToSamples;
    SentSoFar(s, script, mixed);
    TakenIsOffered(s.history, script);
    SamplesPrefix(mixed + s.Unplayed(), Offered(script));
  }

  /** A source that stopped has played all that its sender's whole script offers, but for an odd
      byte, if the pushes carry data; and it failed exactly if the script says so. */
  lemma StoppedHasPlayedAll(s: Speech, slots: nat, script: seq<Op>, mixed: seq<short>)
    requires s.Sound(script, mixed) && PushesCarryData(script)
    ensures var m := MergeSpeech(s, slots);
      m.stopped ==>
        && mixed + m.added == ToSamples(Offered(script))
        && FirstTerminate(script) == Some(m.result != Failed)
  {
    hide Run, Speech.Sound, Speech.Refill, ToBytes, ToSamples, PushesCarryData;
    var m := MergeSpeech(s, slots);
    MergeSound(s, slots, script, mixed);
    if m.stopped {
      StoppedEmpty(s, slots);
      EndedHasPlayedAll(m.speech, script, mixed + m.added);
    }
  }

  lemma StoppedEmpty(s: Speech, slots: nat)
    ensures var m := MergeSpeech(s, slots);
      m.stopped ==>
        && m.speech.buffered.None? && m.speech.Ended()
        && m.speech.Now().completionSuccess == (m.result != Failed)
  {
    hide Run;
  }

  lemma EndedHasPlayedAll(s: Speech, script: seq<Op>, mixed: seq<short>)
    requires s.Sound(script, mixed) && PushesCarryData(script) && s.buffered.None? && s.Ended()
    ensures mixed == ToSamples(Offered(script))
    ensures FirstTerminate(script) == Some(s.Now().completionSuccess)
  {
    hide Run, ToBytes, ToSamples, PushesCarryData, Sent, Flat;
    SentSoFar(s, script, mixed);
    AllOffered(s.history, script);
    NothingAdded(mixed);
    SamplesRoundTrip(mixed, s.Now().received);
  }

  // ---------------------------------------------------------------- when a frame is buffered

  /** A refill buffers a frame exactly when the poll leaves a whole sample and the stream has ended
      or as many as the estimate are there, whether playing has begun or not. The frame is all
      whole samples, and the queue loses them; otherwise it keeps what it has. */
  lemma RefillIff(s: Speech)
    requires s.buffered.None? && AllSends(s.arrivals)
    ensures var q, r := Polled(s.Now(), s.Batch()), s.Refill();
      var count := |q.received| / 2;
      && (r.buffered.Some? <==> count > 0 && (count >= s.estimate || q.terminationCalled))
      && (if r.buffered.Some? then
            && r.buffered.value == ToSamples(q.received[..2 * count]) && r.reached
            && r.Now().received == q.received[2 * count..]
          else r.Now() == q && r.reached == s.reached)
  {
    hide Run, Queue.After, Polled, ToSamples, AllSends;
    PollIs(s);
    TakeIs(s.Poll());
  }

  /** While less than the estimate is there and the stream has not ended, a merge adds nothing and
      takes nothing: a source that plays leaves its slots silent, one that has not begun keeps
      them. */
  lemma HeldBack(s: Speech, slots: nat)
    requires s.buffered.None? && AllSends(s.arrivals)
    requires var q := Polled(s.Now(), s.Batch()); |q.received| / 2 < s.estimate && !q.terminationCalled
    ensures var q, m := Polled(s.Now(), s.Batch()), MergeSpeech(s, slots);
      && m.added == [] && !m.stopped && m.slots == (if s.reached then 0 else slots)
      && m.speech.Now() == q && m.speech.buffered.None? && m.speech.reached == s.reached
  {
    hide Run, Queue.After, Polled, Speech.Refill;
    RefillIff(s);
  }

  /** A buffered frame is mixed from its front, as far as the slots go. */
  lemma FrontFirst(s: Speech, slots: nat)
    requires s.buffered.Some?
    ensures var frame, m := s.buffered.value, MergeSpeech(s, slots);
      if |frame| >= slots then
        && m.added == frame[..slots] && m.slots == 0 && !m.stopped
        && m.speech.Unplayed() == frame[slots..] && m.speech.history == s.history
      else frame <= m.added
  {
    hide Run, Speech.Refill, Speech.Ended;
    if |s.buffered.value| == slots {
      assert s.buffered.value[..slots] == s.buffered.value;
    }
  }

  // ---------------------------------------------------------------- the wait ends

  lemma PollLively(s: Speech)
    requires s.Lively()
    ensures s.Poll().Lively()
    ensures s.arrivals == [] && !s.reached ==> Ready(s.Poll().Now(), s.estimate)
  {
    hide Run, Queue.After;
    PollIs(s);
    BatchSends(s);
    if s.arrivals == [] {
      RunNothing(s.Now());
      CollectTwice(s.Poll().Now(), 0);
    }
  }

  lemma RefillLively(s: Speech)
    requires s.Lively()
    ensures var r := s.(buffered := None).Refill();
      && r.Lively() && |r.arrivals| <= |s.arrivals|
      && (r.buffered.None? && !r.Ended() && !r.reached ==> |r.arrivals| < |s.arrivals|)
  {
    hide Run, PolledAll, AllSends;
    var t := s.(buffered := None);
    assert t.Lively() && t.Poll().arrivals == s.Poll().arrivals;
    PollLively(t);
    LivelySends(t);
  }

  lemma LivelyKept(s: Speech, buffered: Option<seq<short>>)
    requires s.Lively()
    ensures s.(buffered := buffered).Lively()
  {
    hide Run, PolledAll;
  }

  /** A merge that waits without using up slots has used up one of the sender's batches. */
  lemma MergeLively(s: Speech, slots: nat)
    requires s.Lively()
    ensures var m := MergeSpeech(s, slots);
      && m.speech.Lively() && |m.speech.arrivals| <= |s.arrivals|
      && (m.result.Waiting? && !m.stopped && m.slots > 0 ==> |m.speech.arrivals| < |s.arrivals|)
  {
    hide Run, Speech.Lively, Speech.Refill, Speech.Ended;
    RefillLively(s);
    var m, r := MergeSpeech(s, slots), s.(buffered := None).Refill();
    assert s.buffered.None? ==> s.(buffered := None) == s;
    LivelyKept(s, m.speech.buffered);
    LivelyKept(r, m.speech.buffered);
    if s.buffered.None? {
      RefillLively(r);
      var t := r.(buffered := None).Refill();
      LivelyKept(t, m.speech.buffered);
    }
  }

  lemma LivelySends(s: Speech)
    requires s.Lively()
    ensures AllSends(s.arrivals) && AllSends(s.Poll().arrivals)
  {
  }

  // ---------------------------------------------------------------- the source in place

  class SynthesisSource {
    const queue: ByteQueue
    const estimate: nat  // initial_buffer_samples once announced: computed from a duration never set
    var arrivals: seq<seq<Op>>  // what the sender does before each coming poll
    var buffered: Option<seq<short>>
    var off: nat
    var dropoutFrames: nat
    var initialBufferSamples: nat
    var initialBufferReached: bool
    var durationAnnounced: bool
    ghost var history: seq<Op>  // what was done with the queue

    ghost function Repr(): set<object>
      reads queue`records
    {
      {this} + queue.Repr()
    }

    ghost predicate Settings()
      reads this`buffered, this`off, this`dropoutFrames, this`initialBufferReached
      reads this`durationAnnounced, this`initialBufferSamples
    {
      && (buffered.Some? ==> off <= |buffered.value| && initialBufferReached)
      && dropoutFrames == 0  // nothing ever raises it
      && (durationAnnounced ==> initialBufferSamples == estimate)
    }

    /** The queue is the one that its history makes of an empty one. */
    ghost predicate Wired()
      reads this, queue, queue.records
    {
      queue.Valid() && queue.Abs() == View().Now() && Settings()
    }

    ghost function View(): Speech
      reads this
    {
      Speech(history, arrivals,
             if buffered.Some? && off <= |buffered.value| then Some(buffered.value[off..]) else None,
             initialBufferReached, durationAnnounced, estimate)
    }

    ghost predicate Valid()
      reads this, queue, queue.records
    {
      Wired() && AllSends(arrivals)
    }

    constructor (arrivals: seq<seq<Op>>, estimate: nat)
      ensures Wired() && fresh(Repr()) && View() == NewSpeech(arrivals, estimate) && this.arrivals == arrivals
    {
      hide ByteQueue.Valid, ByteQueue.Abs;
      var q := new ByteQueue();
      queue, this.estimate, this.arrivals := q, estimate, arrivals;
      buffered, off, dropoutFrames := None, 0, 0;
      initialBufferSamples, initialBufferReached, durationAnnounced := 0, false, false;
      history := [];
    }

    method Announce() returns (announced: bool)
      requires Wired()
      modifies this`initialBufferSamples, this`durationAnnounced
      ensures Wired() && View() == old(View()).(announced := true) && announced == !old(durationAnnounced)
    {
      hide ByteQueue.Valid, ByteQueue.Abs;
      announced := !durationAnnounced;
      if announced {
        initialBufferSamples, durationAnnounced := estimate, true;
      }
    }

    /** The sender's side of one poll. */
    method SenderMoves(batch: seq<Op>)
      requires queue.Valid() && OnlySends(batch)
      modifies queue.Repr()
      ensures queue.Valid() && fresh(queue.Repr() - old(queue.Repr()))
      ensures queue.Abs() == Run(old(queue.Abs()), batch)
    {
      hide ByteQueue.Valid, ByteQueue.Abs, Queue.After;
      assert batch[..0] == [];
      for i := 0 to |batch|
        invariant queue.Valid() && fresh(queue.Repr() - old(queue.Repr()))
        invariant queue.Abs() == Run(old(queue.Abs()), batch[..i])
      {
        assert batch[..i + 1][..i] == batch[..i];
        match batch[i]
        case Push(data) => queue.Push(data);
        case Terminate(success) => queue.Terminate(success);
      }
      assert batch[..|batch|] == batch;
    }

    method PollQueue(batch: seq<Op>)
      requires queue.Valid() && OnlySends(batch)
      modifies queue.Repr()
      ensures queue.Valid() && fresh(queue.Repr() - old(queue.Repr()))
      ensures queue.Abs() == Polled(old(queue.Abs()), batch)
    {
      hide ByteQueue.Valid, ByteQueue.Abs, Queue.After, Run;
      SenderMoves(batch);
      var _ := queue.Collect();
    }

    method NextBatch() returns (batch: seq<Op>)
      requires Wired() && AllSends(arrivals)
      modifies this`arrivals
      ensures Wired() && AllSends(arrivals) && batch == old(View()).Batch() && OnlySends(batch)
      ensures View() == old(View()).(arrivals := old(View()).Poll().arrivals)
    {
      hide ByteQueue.Valid, ByteQueue.Abs, Run, AllSends, OnlySends, Flat;
      BatchSends(View());
      batch := [];
      if arrivals != [] {
        batch, arrivals := arrivals[0], arrivals[1..];
      }
    }

    /** grpctts_job_collect, with what the sender did before it. */
    method Poll()
      requires Wired() && AllSends(arrivals)
      modifies this`arrivals, this`history, queue.Repr()
      ensures Wired() && fresh(Repr() - old(Repr())) && AllSends(arrivals)
      ensures View() == old(View()).Poll()
    {
      hide ByteQueue.Valid, ByteQueue.Abs, Run, AllSends, OnlySends, Polled;
      PollIs(View());
      var batch := NextBatch();
      PollQueue(batch);
      history := history + batch + [Op.Collect];
    }

    /** Takes `count` samples off the queue. */
    method TakeBytes(count: nat) returns (samples: seq<short>)
      requires queue.Valid() && 2 * count <= |queue.Abs().received|
      modifies queue
      ensures queue.Valid() && queue.records == old(queue.records)
      ensures queue.Abs() == old(queue.Abs()).After(Op.TakeBlock(2 * count))
      ensures samples == ToSamples(old(queue.Abs()).received[..2 * count])
    {
      hide ByteQueue.Valid, ByteQueue.Abs, Queue.After, ToSamples, CopiedTo;
      var bytes := new byte[2 * count];
      ghost var start, before := bytes[..], queue.Abs().received;
      var ok := queue.TakeBlock(2 * count, bytes);
      CopiedAll(bytes[..], start, before);
      samples := ToSamples(bytes[..]);
    }

    /** They become the new buffered frame. */
    method TakeSamples(count: nat)
      requires Wired() && count == View().Available()
      modifies this`buffered, this`off, this`history, this`initialBufferReached, queue
      ensures Wired() && Repr() == old(Repr()) && View() == old(View()).Take() && off == 0 && buffered.Some?
    {
      hide ByteQueue.Valid, ByteQueue.Abs, Speech.Now, Queue.After, Queue.Take, ToSamples, Sent;
      TakeIs(View());
      var samples := TakeBytes(count);
      initialBufferReached, buffered, off := true, Some(samples), 0;
      history := history + [Op.TakeBlock(2 * count)];
      assert buffered.value[0..] == buffered.value;
    }

    /** stream_source_synthesis_buffer_frame; `started` is when it announces the start of playing. */
    method BufferFrame() returns (failed: bool, started: bool)
      requires Wired() && AllSends(arrivals) && buffered.None? && durationAnnounced
      modifies this`arrivals, this`history, this`buffered, this`off, this`initialBufferReached, queue.Repr()
      ensures Wired() && fresh(Repr() - old(Repr())) && AllSends(arrivals)
      ensures View() == old(View()).Refill() && (buffered.Some? ==> off == 0)
      ensures durationAnnounced && initialBufferReached == (old(initialBufferReached) || buffered.Some?)
      ensures started == (!old(initialBufferReached) && initialBufferReached)
      ensures buffered.None? ==> View().Ended() == queue.Abs().terminationCalled
      ensures failed == (buffered.None? && View().Ended() && !View().Now().completionSuccess)
    {
      hide ByteQueue.Valid, ByteQueue.Abs, Run, Queue.After, ToSamples;
      Poll();
      failed, started := false, false;
      var size := queue.BufferSize();
      var ended := queue.TerminationCalled();
      var sampleCount := size / 2;
      if sampleCount != 0 {
        if sampleCount < initialBufferSamples && !ended {
          return;
        }
        started := !initialBufferReached;
        TakeSamples(sampleCount);
      } else if ended {
        var success := queue.CompletionSuccess();
        failed := !success;
      }
    }

    /** merge_fill_source_synthesis: skips dropped-out samples, then mixes the buffered frame. */
    method MergeFill(target: array<short>, at: nat, slots: nat, ghost laid: seq<short>)
      returns (full: bool, at': nat, slots': nat, ghost added: seq<short>)
      requires buffered.Some? && off <= |buffered.value|
      requires Laid(target, laid) && at == |laid| && at + Min(slots, |buffered.value| - off) <= target.Length
      modifies this`off, this`dropoutFrames, target
      ensures var rest := |buffered.value| - old(off);
        var skipped := if old(dropoutFrames) < rest then old(dropoutFrames) else rest;
        && dropoutFrames == old(dropoutFrames) - skipped
        && off == old(off) + skipped + (if slots < rest - skipped then slots else rest - skipped)
        && added == buffered.value[old(off) + skipped..off]
      ensures full == (off < |buffered.value|)
      ensures Laid(target, laid + added) && at' == at + |added| && slots' == slots - |added|
    {
      hide Laid;
      var sampleCount := |buffered.value|;
      if dropoutFrames > 0 && off < sampleCount {
        var skipped := if dropoutFrames < sampleCount - off then dropoutFrames else sampleCount - off;
        off := off + skipped;
        dropoutFrames := dropoutFrames - skipped;
      }
      var off';
      off', at', slots' := MixSamples(buffered.value, off, target, at, slots, laid);
      added := buffered.value[off..off'];
      off := off';
      full := off < sampleCount;
    }

    /** Mixes the front of the buffered frame. */
    method MergeBuffered(target: array<short>, at: nat, slots: nat, ghost laid: seq<short>)
      returns (full: bool, at': nat, slots': nat, ghost added: seq<short>)
      requires Wired() && buffered.Some?
      requires Laid(target, laid) && at == |laid| && at + Min(slots, |buffered.value| - off) <= target.Length
      modifies this`off, this`dropoutFrames, target
      ensures Wired() && old(View()).buffered.Some?
      ensures var frame := old(View()).buffered.value;
        var k := if slots < |frame| then slots else |frame|;
        && added == frame[..k] && View() == old(View()).(buffered := Some(frame[k..]))
        && full == (k < |frame|) && (!full ==> off == |buffered.value|)
      ensures Laid(target, laid + added) && at' == at + |added| && slots' == slots - |added|
    {
      hide Laid, ByteQueue.Valid, ByteQueue.Abs;
      Slices(buffered.value, off, slots);
      full, at', slots', added := MergeFill(target, at, slots, laid);
    }

    method DropBuffered()
      requires Wired() && buffered.Some? && off == |buffered.value|
      modifies this`buffered
      ensures Wired() && buffered.None? && View() == old(View()).(buffered := None)
    {
      hide ByteQueue.Valid, ByteQueue.Abs;
      buffered := None;
    }

    /** One more frame for the slots behind a used-up one. */
    method PlayRest(target: array<short>, at: nat, slots: nat, ghost laid: seq<short>, ghost added: seq<short>)
      returns (failed: bool, at': nat, slots': nat, ghost added': seq<short>)
      requires Wired() && AllSends(arrivals) && durationAnnounced && buffered.None? && initialBufferReached
      requires Laid(target, laid + added) && at == |laid + added|
      requires |laid + MergeRest(View(), slots, added).added| <= target.Length
      modifies Repr(), target
      ensures Wired() && AllSends(arrivals) && fresh(Repr() - old(Repr()))
      ensures durationAnnounced && initialBufferReached
      ensures SpeechMerge(View(), if failed then Failed else Merged, failed, added', slots')
           == MergeRest(old(View()), slots, added)
      ensures Laid(target, laid + added') && at' == |laid + added'| && |added'| <= |added| + slots
    {
      hide Laid, ByteQueue.Valid, ByteQueue.Abs, Run, Speech.Refill, Speech.Ended;
      at', slots', added' := at, slots, added;
      var started;
      failed, started := BufferFrame();
      if failed {
        return;
      }
      if buffered.Some? {
        ghost var more;
        var full, rest;
        full, at', rest, more := MergeBuffered(target, at, slots, laid + added);
        Join(laid, added, more);
        added' := added + more;
      }
      slots' := 0;
    }

    /** The part of a merge that has a buffered frame. */
    method Play(target: array<short>, at: nat, slots: nat, ghost laid: seq<short>)
      returns (failed: bool, at': nat, slots': nat, ghost added: seq<short>)
      requires Wired() && AllSends(arrivals) && durationAnnounced && buffered.Some? && initialBufferReached
      requires Laid(target, laid) && at == |laid| && View().buffered.Some?
      requires |laid + MergeFrom(View(), slots).added| <= target.Length
      modifies Repr(), target
      ensures Wired() && AllSends(arrivals) && fresh(Repr() - old(Repr()))
      ensures durationAnnounced && initialBufferReached
      ensures old(View()).buffered.Some?
      ensures SpeechMerge(View(), if failed then Failed else Merged, failed, added, slots')
           == MergeFrom(old(View()), slots)
      ensures Laid(target, laid + added) && at' == at + |added| && |added| <= slots
    {
      hide Laid, ByteQueue.Valid, ByteQueue.Abs, Run, MergeRest;
      var full;
      failed := false;
      if |View().buffered.value| < slots {
        RestAdds(View(), slots - |View().buffered.value|, View().buffered.value);
      }
      full, at', slots', added := MergeBuffered(target, at, slots, laid);
      if full {
        return;
      }
      assert added == old(View()).buffered.value;
      DropBuffered();
      assert slots' > 0 ==> MergeRest(View(), slots', added) == MergeRest(old(View()), slots', added) by {
        RestIgnoresFrame(old(View()), View(), slots', added);
      }
      if slots' > 0 {
        failed, at', slots', added := PlayRest(target, at', slots', laid, added);
      }
    }

    /** merge_source_synthesis: what it mixes and how it leaves the source is MergeSpeech. */
    method Merge(target: array<short>, at: nat, slots: nat, ghost laid: seq<short>)
      returns (result: MergeResult, stopped: bool, started: bool, at': nat, slots': nat, ghost added: seq<short>)
      requires Valid() && durationAnnounced && slots > 0
      requires Laid(target, laid) && at == |laid| && |laid + MergeSpeech(View(), slots).added| <= target.Length
      modifies Repr(), target
      ensures Valid() && fresh(Repr() - old(Repr())) && durationAnnounced
      ensures SpeechMerge(View(), result, stopped, added, slots') == MergeSpeech(old(View()), slots)
      ensures started == (!old(initialBufferReached) && initialBufferReached)
      ensures Laid(target, laid + added) && at' == at + |added| && |added| <= slots
    {
      hide Laid, ByteQueue.Valid, ByteQueue.Abs, Run, Speech.Refill, MergeFrom;
      at', slots', added, started := at, slots, [], false;
      NothingAdded(laid);
      var failed := false;
      if buffered.None? {
        failed, started := BufferFrame();
        if failed {
          return Failed, true, started, at', slots', added;
        }
      }
      if buffered.None? {
        if initialBufferReached {
          slots' := 0;
        }
        stopped := queue.TerminationCalled();
        return Waiting, stopped, started, at', slots', added;
      }
      failed, at', slots', added := Play(target, at, slots, laid);
      return if failed then Failed else Merged, failed, started, at', slots', added;
    }
  }

  lemma Slices(frame: seq<short>, off: nat, slots: nat)
    requires off <= |frame|
    ensures var rest := frame[off..];
      var k := if slots < |rest| then slots else |rest|;
      rest[..k] == frame[off..off + k] && rest[k..] == frame[off + k..]
  {
  }

  lemma RestAdds(s: Speech, slots: nat, added: seq<short>)
    ensures |MergeRest(s, slots, added).added| >= |added|
  {
    hide Run, Speech.Refill, Speech.Ended;
  }

  lemma RestIgnoresFrame(s: Speech, t: Speech, slots: nat, added: seq<short>)
    requires t == s.(buffered := None)
    ensures MergeRest(s, slots, added) == MergeRest(t, slots, added)
  {
    hide Run, Speech.Refill;
  }
}
