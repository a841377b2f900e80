/** What a command text asks for (stream_layers.c:610-634, 702-777) and what the outside world
    answers: files, numbers, synthesis jobs. */
module Commands {
  import opened Audio
  import opened Fifo
  import opened Sources
  import opened Synthesis
  import opened SayArgs
  import opened Time

  datatype Failure = BadPlay | CannotOpen | BadSleep | BadSay | BadEvent | Unsupported | NoChannel | SynthesisFailed

  datatype Command =
    | Play(filename: string)
    | Sleep(timeout: Timespec)
    | Speak(say: Say)
    | Custom(body: string)
    | Bad(failure: Failure, duration: bool)  // `duration`: a zero duration is announced first

  /** A synthesis job: what its thread does before each poll, and the number that ends up in
      initial_buffer_samples. */
  datatype JobScript = JobScript(arrivals: seq<seq<SenderOp>>, estimate: nat)
  {
    /** The thread does enough to let the player stop waiting. */
    ghost predicate Settles() {
      Ready(PolledAll(EMPTY, arrivals), estimate)
    }
  }

  lemma OnlySenderOps(batches: seq<seq<SenderOp>>)
    ensures AllSends(batches)
  {
  }

  /** The outside. Files, the TTS channel and jobs may answer differently each time: they are told
      how many commands were taken before. A timeout text is given as the double strtod reads,
      and `rounded` is how a product becomes a double. */
  datatype World = World(
    codec: Codec,
    file: (nat, string) -> Option<seq<VoiceFrame>>,
    timeout: string -> Option<real>,
    rounded: real -> real,
    numbers: Numbers,
    hasSynthesis: nat -> bool,
    job: (nat, Say) -> JobScript)

  /** strchr(command, ','). */
  function Comma(text: string): (r: nat)
    ensures r <= |text| && ',' !in text[..r] && (r < |text| ==> text[r] == ',')
  {
    if text == "" || text[0] == ',' then 0
    else
      var r := 1 + Comma(text[1..]);
      assert text[..r] == [text[0]] + text[1..][..r - 1];
      r
  }

  function Parse(world: World, command: string): Command {
    var sep := Comma(command);
    if sep == |command| then Bad(Unsupported, false)
    else
      var name, arg := command[..sep], command[sep + 1..];
      var tail := if arg != "" && arg[0] == ',' then Some(arg[1..]) else None;
      if name == "play" then
        if tail.None? then Bad(BadPlay, true) else Play(tail.value)
      else if name == "sleep" then
        if tail.None? || world.timeout(tail.value).None? then Bad(BadSleep, true)
        else Sleep(ParsedTimeout(world.timeout(tail.value).value, world.rounded))
      else if name == "say" then
        var say := ParseSay(world.numbers, arg);
        if say.None? then Bad(BadSay, true) else Speak(say.value)
      else if name == "event" then
        if tail.None? then Bad(BadEvent, false) else Custom(tail.value)
      else Bad(Unsupported, true)
  }

  lemma CommaOf(name: string, rest: string)
    requires ',' !in name
    ensures Comma(name + "," + rest) == |name|
  {
    var text := name + "," + rest;
    assert text[|name|] == ',';
    assert forall i :: 0 <= i < |name| ==> text[i] == name[i];
    var r := Comma(text);
    assert forall i :: 0 <= i < r ==> text[i] == text[..r][i];
  }

  /** The command name and what stands behind its comma. */
  lemma NamedCommand(world: World, name: string, arg: string)
    requires ',' !in name
    ensures var command := name + "," + arg;
      Comma(command) == |name| && command[..|name|] == name && command[|name| + 1..] == arg
  {
    CommaOf(name, arg);
    var command := name + "," + arg;
    assert command[..|name|] == name && command[|name| + 1..] == arg;
  }

  /** A printed `play` asks for exactly that file. */
  lemma PlayParsed(world: World, filename: string)
    ensures Parse(world, "play,," + filename) == Play(filename)
  {
    NamedCommand(world, "play", "," + filename);
    assert "play" + "," + ("," + filename) == "play,," + filename && ("," + filename)[1..] == filename;
  }

  /** A printed `event` asks for exactly that event. */
  lemma EventParsed(world: World, body: string)
    ensures Parse(world, "event,," + body) == Custom(body)
  {
    NamedCommand(world, "event", "," + body);
    assert "event" + "," + ("," + body) == "event,," + body && ("," + body)[1..] == body;
  }

  /** A printed `sleep` asks for exactly that time, if its text is a number. */
  lemma SleepParsed(world: World, text: string)
    ensures Parse(world, "sleep,," + text) ==
      if world.timeout(text).None? then Bad(BadSleep, true)
      else Sleep(ParsedTimeout(world.timeout(text).value, world.rounded))
  {
    hide ParsedTimeout;
    NamedCommand(world, "sleep", "," + text);
    assert "sleep" + "," + ("," + text) == "sleep,," + text && ("," + text)[1..] == text;
  }

  /** A printed `say` asks for exactly its options and input. */
  lemma SayParsed(world: World, settings: seq<Setting>, input: string)
    requires forall i :: 0 <= i < |settings| ==> Printable(world.numbers, settings[i])
    ensures Parse(world, "say," + PrintAll(settings) + "," + input) == Speak(Say(settings, input))
  {
    hide Parse, ParseSay, PrintAll, Printable;
    var arg := PrintAll(settings) + "," + input;
    SayRoundTrip(world.numbers, settings, input);
    SayArgument(world, arg);
    var options := PrintAll(settings);
    assert "say," + options + "," + input == "say," + (options + "," + input);
  }

  lemma SayArgument(world: World, arg: string)
    ensures Parse(world, "say," + arg) ==
      if ParseSay(world.numbers, arg).None? then Bad(BadSay, true) else Speak(ParseSay(world.numbers, arg).value)
  {
    hide ParseSay;
    NamedCommand(world, "say", arg);
    assert "say" + "," + arg == "say," + arg;
  }

  /** Whether a text is a command: it has one of the four names, and what stands behind the name
      is an empty option list and, for `sleep`, a number; for `say`, options that are all known
      and well formed, up to a comma. */
  ghost predicate WellFormed(world: World, command: string) {
    || "play,," <= command
    || "event,," <= command
    || ("sleep,," <= command && world.timeout(command[7..]).Some?)
    || ("say," <= command && ParseSay(world.numbers, command[4..]).Some?)
  }

  lemma {:induction false} NameOf(name: string, command: string)
    requires ',' !in name
    ensures name + "," <= command <==> Comma(command) == |name| < |command| && command[..|name|] == name
  {
    var sep := Comma(command);
    if name + "," <= command {
      var rest := command[|name| + 1..];
      assert command == name + "," + rest;
      CommaOf(name, rest);
      assert command[..|name|] == name;
    }
    if sep == |name| < |command| && command[..|name|] == name {
      assert command[..|name| + 1] == name + ",";
    }
  }

  lemma TailOf(name: string, command: string)
    requires name + "," <= command
    ensures var arg := command[|name| + 1..];
      name + ",," <= command <==> arg != "" && arg[0] == ','
  {
    var arg := command[|name| + 1..];
    assert command == name + "," + arg;
    if arg != "" && arg[0] == ',' {
      assert command[..|name| + 2] == name + ",,";
    }
    if name + ",," <= command {
      assert command[|name| + 1] == (name + ",,")[|name| + 1] == ',';
    }
  }

  /** A text is refused exactly when it is not well formed; the failure tells why, and all but
      a text without a comma or a bad `event` announce a duration first. */
  lemma BadIff(world: World, command: string)
    ensures Parse(world, command).Bad? <==> !WellFormed(world, command)
    ensures Parse(world, command).Bad? ==>
      var failure, duration := Parse(world, command).failure, Parse(world, command).duration;
      && failure == (if "play," <= command then BadPlay else if "sleep," <= command then BadSleep
                     else if "say," <= command then BadSay else if "event," <= command then BadEvent else Unsupported)
      && duration == (',' in command && !("event," <= command))
  {
    hide ParseSay, ParsedTimeout;
    NameOf("play", command);
    NameOf("sleep", command);
    NameOf("say", command);
    NameOf("event", command);
    CommaIn(command);
    if "play" + "," <= command { TailOf("play", command); }
    if "sleep" + "," <= command { TailOf("sleep", command); }
    if "event" + "," <= command { TailOf("event", command); }
    assert "play" + "," == "play," && "sleep" + "," == "sleep," && "say" + "," == "say," && "event" + "," == "event,";
    assert "play" + ",," == "play,," && "sleep" + ",," == "sleep,," && "event" + ",," == "event,,";
  }

  lemma CommaIn(command: string)
    ensures Comma(command) < |command| <==> ',' in command
  {
    var r := Comma(command);
    if r == |command| {
      assert command[..r] == command;
    }
  }

  /** A sleep command of so many seconds starts a sleep of non-negative length exactly when its
      samples, modulo 2^32, are below 2^31: while they fit an int, when the number is not negative
      and not between half a second and a sample short of one. */
  lemma SleepCommandIff(world: World, text: string, x: real)
    requires world.timeout(text) == Some(x) && RoundsToDouble(world.rounded)
    ensures var c := Parse(world, "sleep,," + text);
      c.Sleep? &&
      var length := SleepLength(c.timeout);
      && (SleepSamples(c.timeout) >= 0 <==> length % (2 * INT_BOUND) < INT_BOUND)
      && (FitsInt(length) ==>
            (SleepSamples(c.timeout) >= 0 <==>
               x >= 0.0 && !(0.5 < x < 1.0 && world.rounded((x - 1.0) * 1_000_000_000.0) <= -124_999.5)))
  {
    hide SleepSamples, SleepLength, ParsedTimeout;
    SleepParsed(world, text);
    SleepNonNegativeIff(x, world.rounded);
  }

  /** What the synthesis thread sends (job.cpp:39-108): nothing without a channel, the reply's
      audio and a successful end otherwise, and a successful end alone after a failed call. */
  function JobThread(hasChannel: bool, reply: Option<seq<byte>>): seq<Op> {
    if !hasChannel then []
    else if reply.None? then [Op.Terminate(true)]
    else [Op.Push(reply.value), Op.Terminate(true)]
  }

  lemma TerminatedIsReady(sends: seq<Op>)
    requires forall i :: 0 <= i < |sends| ==> sends[i].Push?
    ensures Polled(EMPTY, sends + [Op.Terminate(true)]).terminationCalled
  {
    var all := sends + [Op.Terminate(true)];
    assert all[..|all| - 1] == sends;
    NotTerminated(sends);
  }

  /** The player can stop waiting for a job's first data exactly when its thread got a channel,
      however its operations fall between the polls. */
  lemma JobThreadSettlesIff(hasChannel: bool, reply: Option<seq<byte>>, arrivals: seq<seq<SenderOp>>, estimate: nat)
    requires Flat(arrivals) == JobThread(hasChannel, reply)
    ensures JobScript(arrivals, estimate).Settles() <==> hasChannel
  {
    hide Queue.After, Run, PolledAll;
    OnlySenderOps(arrivals);
    BatchingIrrelevant(EMPTY, arrivals);
    if hasChannel {
      var sends := if reply.None? then [] else [Op.Push(reply.value)];
      assert Flat(arrivals) == sends + [Op.Terminate(true)];
      TerminatedIsReady(sends);
    } else {
      assert Polled(EMPTY, []) == EMPTY.After(Op.Collect) by { RunNothing(EMPTY); }
      CollectTwice(EMPTY, 0);
    }
  }
}
