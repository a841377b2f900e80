/** What holds of every session of the player thread, whatever is asked for and whenever. */
module Sessions {
  import opened Commands
  import opened Pacing
  import opened Playback
  import opened Layers
  import opened Endings
  import opened Ticks
  import opened Player
  import opened PlayerRuns
  import opened Handoff
  import opened PlaybackControl

  // ---------------------------------------------------------------- what is played

  /** What was mixed is what the turns of the commands taken say; what was written are the frames
      of the ticks that were busy and timed out; no more Finished events than ends of sources. */
  ghost predicate Told(world: World, p: Player) {
    && Healthy(world, p.view) && AllHealthy(world, p.ticks)
    && AllMixed(p.view.turns) == Mixed(world, p.ticks) && p.written == Frames(world, p.ticks)
    && FinishCame(world, NOTHING, p)
  }

  lemma TickTold(world: World, p: Player, o: Outside)
    requires Told(world, p)
    ensures Told(world, PlayTick(world, p, o))
  {
    hide Healthy, TickOf, PlayTick, Deadline, LaidBy, TickLog.Written, Mixed, Frames, FinishCame, AllMixed;
    AdvancesMixes(world, p.view);
    TickFinishCame(world, NOTHING, p, o);
    var log := TickParts(world, p, o);
    TickAdded(world, p.ticks, log);
    assert p.written + [] == p.written;
  }

  lemma AdvancesMixes(world: World, v: View)
    requires Healthy(world, v)
    ensures var t := TickOf(world, v); Healthy(world, t.view) && AllMixed(t.view.turns) == AllMixed(v.turns) + t.laid
  {
    hide Healthy, TickOf;
    TickHealthy(world, v);
  }

  lemma AllTold(world: World, p: Player, outside: seq<Outside>)
    requires Told(world, p)
    ensures Told(world, PlayAll(world, p, outside))
  {
    hide PlayTick, Told;
    var kept := (q: Player) => Told(world, q);
    forall q: Player, o: Outside {:trigger PlayTick(world, q, o)} | kept(q)
      ensures kept(PlayTick(world, q, o))
    {
      TickTold(world, q, o);
    }
    KeptByTicks(world, kept, p, outside);
  }

  /** What is told does not depend on what waits. */
  lemma ToldOf(world: World, p: Player, q: Player)
    requires Told(world, p)
    requires q.view.part == p.view.part && q.view.turns == p.view.turns && q.view.events == p.view.events
    requires q.ticks == p.ticks && q.written == p.written
    ensures Told(world, q)
  {
    hide Mixed, Frames, AllMixed, Finishes, Ends, Separated, Open, Starts, TurnsSound, PartSound, OwnFinishedInTick;
    assert Sound(world, q.view) by { SoundOf(world, p.view, q.view); }
  }

  lemma RoundTold(world: World, s: Session, round: Round)
    requires Told(world, s.player)
    ensures Told(world, PlayRound(world, s, round).player)
  {
    hide Told, PlayAll;
    var start := s.player.(over := false, ret := 0);
    ToldOf(world, s.player, start);
    AllTold(world, start, round.outside);
    ToldOf(world, PlayAll(world, start, round.outside), PlayRound(world, s, round).player);
  }

  lemma {:induction false} RoundsTold(world: World, s: Session, rounds: seq<Round>)
    requires Told(world, s.player)
    ensures Told(world, PlayRounds(world, s, rounds).player)
    decreases |rounds|
  {
    hide Told, PlayRound;
    if rounds != [] && !s.ended {
      RoundTold(world, s, rounds[0]);
      RoundsTold(world, PlayRound(world, s, rounds[0]), rounds[1..]);
    }
  }

  lemma FreshTold(world: World)
    ensures Told(world, FRESH.player)
  {
    NothingHealthy(world);
  }

  /** In every session: what was mixed is, turn by turn in the order the commands were taken, the
      beginning of what each command's source offers, and all of it unless the source is the
      present one or was cut off. */
  lemma PlayedInTurn(world: World, rounds: seq<Round>)
    ensures var p := PlayRounds(world, FRESH, rounds).player;
      && Mixed(world, p.ticks) == AllMixed(p.view.turns) && p.written == Frames(world, p.ticks)
      && (forall i :: 0 <= i < |p.view.turns| ==>
            Faithful(StartOf(world, i, p.view.turns[i].command), p.view.turns[i]))
      && (forall i :: 0 <= i < |p.view.turns| - 1 ==> !p.view.turns[i].end.Going?)
      && Separated(p.view.events)
  {
    hide Faithful, AllMixed, Mixed, Frames, FinishCame, Separated, PlayRounds;
    FreshTold(world);
    RoundsTold(world, FRESH, rounds);
  }

  /** All that a session mixed is heard exactly when every tick found the layer busy and timed
      out, or found nothing that has a sample to mix. */
  lemma AllHeardIff(world: World, rounds: seq<Round>)
    ensures var p := PlayRounds(world, FRESH, rounds).player;
      Heard(world, p.ticks) == AllMixed(p.view.turns) <==>
        forall i :: 0 <= i < |p.ticks| ==>
          || (p.ticks[i].view.part.Some? && WaitResult(p.ticks[i].deadline, p.ticks[i].outside) == 0)
          || QuietTick(world, p.ticks[i].view)
  {
    hide Healthy, AllMixed, Mixed, Frames, FinishCame, PlayRounds, QuietTick, Heard;
    FreshTold(world);
    RoundsTold(world, FRESH, rounds);
    HeardIff(world, PlayRounds(world, FRESH, rounds).player.ticks);
  }

  /** In a session every source that ended had its own Finished event exactly when every tick met
      OwnFinishedInTick. */
  lemma AllFinishedIff(world: World, rounds: seq<Round>)
    ensures var p := PlayRounds(world, FRESH, rounds).player;
      && Finishes(p.view.events) <= Ends(p.view.turns)
      && (Finishes(p.view.events) == Ends(p.view.turns) <==>
            forall i :: 0 <= i < |p.ticks| ==> OwnFinishedInTick(world, p.ticks[i].view))
  {
    hide Healthy, AllMixed, Mixed, Frames, PlayRounds, OwnFinishedInTick;
    FreshTold(world);
    RoundsTold(world, FRESH, rounds);
  }

  // ---------------------------------------------------------------- only requests cut off

  ghost predicate NoneCutOff(turns: seq<Turn>) {
    forall i :: 0 <= i < |turns| ==> !turns[i].end.CutOff?
  }

  lemma FollowsUncut(turns: seq<Turn>, turns': seq<Turn>)
    requires NoneCutOff(turns) && Follows(turns, turns', false)
    ensures NoneCutOff(turns')
  {
    forall i | 0 <= i < |turns'|
      ensures !turns'[i].end.CutOff?
    {
      if i < |turns| && !turns[i].end.Going? {
        assert turns'[i].end == turns[i].end;
      }
    }
  }

  ghost predicate Uncut(world: World, p: Player) {
    Healthy(world, p.view) && !p.view.override && NoneCutOff(p.view.turns)
  }

  lemma TicksUncut(world: World, p: Player, outside: seq<Outside>)
    requires Uncut(world, p)
    ensures Uncut(world, PlayAll(world, p, outside))
  {
    hide Healthy, TickOf, Follows;
    var kept := (q: Player) => Uncut(world, q);
    forall q: Player, o: Outside {:trigger PlayTick(world, q, o)} | kept(q)
      ensures kept(PlayTick(world, q, o))
    {
      TickHealthy(world, q.view);
      FollowsUncut(q.view.turns, TickOf(world, q.view).view.turns);
    }
    KeptByTicks(world, kept, p, outside);
  }

  /** The text begins with an ampersand, behind the prefix of layer 0 or not. */
  predicate Appends(text: string) {
    "&" <= text || "0@&" <= text
  }

  lemma AppendsParsed(text: string)
    requires Appends(text)
    ensures ParseRequest(text).Append?
  {
    if "&" <= text {
      assert text == "&" + text[1..];
      RequestTexts(text[1..]);
    } else {
      assert text == "0@&" + text[3..];
      RequestTexts(text[3..]);
    }
  }

  lemma {:induction false} AppendsKeep(q: Queues<string>, requests: seq<string>)
    requires forall i :: 0 <= i < |requests| ==> Appends(requests[i])
    ensures AskedAll(q, requests).override == q.override
    decreases |requests|
  {
    hide ParseRequest, Appends;
    if requests != [] {
      AppendsParsed(requests[0]);
      AppendsKeep(q.Asked(ParseRequest(requests[0])), requests[1..]);
    }
  }

  lemma HealthyOf(world: World, v: View, w: View)
    requires Healthy(world, v) && w.part == v.part && w.turns == v.turns && w.events == v.events
    ensures Healthy(world, w)
  {
    hide Separated, Open, Starts, Ends, TurnsSound, PartSound;
    assert Sound(world, w) by { SoundOf(world, v, w); }
  }

  /** As long as all requests only append, no source is ever cut off: every turn but the last is
      played to its end. */
  lemma {:induction false} AppendsCutNothing(world: World, s: Session, rounds: seq<Round>)
    requires Uncut(world, s.player) && !s.override
    requires forall i, j :: 0 <= i < |rounds| && 0 <= j < |rounds[i].requests| ==> Appends(rounds[i].requests[j])
    ensures NoneCutOff(PlayRounds(world, s, rounds).player.view.turns)
    decreases |rounds|
  {
    hide ParseRequest, Appends, PlayAll, Healthy;
    if rounds != [] && !s.ended {
      var round, start := rounds[0], s.player.(over := false, ret := 0);
      AppendsKeep(s.Queues(), round.requests);
      TicksUncut(world, start, round.outside);
      var t := PlayRound(world, s, round);
      HealthyOf(world, PlayAll(world, start, round.outside).view, t.player.view);
      AppendsCutNothing(world, t, rounds[1..]);
    }
  }

  // ---------------------------------------------------------------- pacing

  /** The clock is sound throughout a session. */
  ghost predicate AllTimely(world: World, s: Session, rounds: seq<Round>, last: int)
    decreases |rounds|
  {
    rounds == [] || s.ended ||
    var p := s.player.(over := false, ret := 0);
    && Timely(world, p, rounds[0].outside, last)
    && AllTimely(world, PlayRound(world, s, rounds[0]), rounds[1..], LastReading(world, p, rounds[0].outside, last))
  }

  lemma {:induction false} SessionWaits(world: World, s: Session, rounds: seq<Round>, last: int)
    requires AllTimely(world, s, rounds, last) && Waits(s.player.nows)
    requires s.player.nows != [] ==> s.player.nows[|s.player.nows| - 1] <= last
    ensures Waits(PlayRounds(world, s, rounds).player.nows)
    decreases |rounds|
  {
    hide Waits, Timely, PlayAll;
    if rounds != [] && !s.ended {
      var p := s.player.(over := false, ret := 0);
      RunWaits(world, p, rounds[0].outside, last);
      SessionWaits(world, PlayRound(world, s, rounds[0]), rounds[1..], LastReading(world, p, rounds[0].outside, last));
    }
  }

  /** In every session with such a clock the deadlines are as they should be. */
  lemma SessionPaced(world: World, rounds: seq<Round>, last: int)
    requires AllTimely(world, FRESH, rounds, last)
    ensures Paced(PlayRounds(world, FRESH, rounds).player.nows)
  {
    hide PlayRounds, Paced, Waits;
    NoWaits();
    SessionWaits(world, FRESH, rounds, last);
    WaitsPaced(PlayRounds(world, FRESH, rounds).player.nows);
  }

  // ---------------------------------------------------------------- how a round ends

  /** Requests take effect one after the other. */
  lemma {:induction false} LastAsked(q: Queues<string>, requests: seq<string>, text: string)
    ensures AskedAll(q, requests + [text]) == AskedAll(q, requests).Asked(ParseRequest(text))
    decreases |requests|
  {
    hide ParseRequest;
    var all := requests + [text];
    if requests == [] {
      assert all[1..] == [];
    } else {
      assert all[1..] == requests[1..] + [text];
      LastAsked(q.Asked(ParseRequest(requests[0])), requests[1..], text);
    }
  }

  /** A round whose last tick read the event fd, and that did not see a hangup, ends in a dispatch:
      nothing is pending, the override is passed on to the layer, and what waits there is the queue
      after the round's requests. Otherwise the layer is as the last tick left it and the requests
      stay pending. The thread ends exactly on a failed wait or a hangup. */
  lemma RoundIs(world: World, s: Session, round: Round) returns (k: nat)
    ensures var t, q := PlayRound(world, s, round), AskedAll(s.Queues(), round.requests);
      && Ran(world, s.player.(over := false, ret := 0), round.outside, BeforeDispatch(world, s, round).player, k)
      && t.player.ticks == BeforeDispatch(world, s, round).player.ticks && |t.player.ticks| == |s.player.ticks| + k
      && (round.outside != [] ==> k > 0)
      && if k == 0 then
           && t.ended == round.hangup && t.override == q.override && t.entries == q.entries
           && t.player.view == s.player.view
         else
           var last := t.player.ticks[|t.player.ticks| - 1];
           var after := TickOf(world, last.view).view;
           && t.ended == (WaitFailed(last) || round.hangup)
           && if EventRead(last) && !round.hangup then
                && !t.ended && !t.override && t.entries == []
                && t.player.view == after.(
                     override := after.override || q.override,
                     waiting := if q.override then q.entries else after.waiting + q.entries)
              else t.override == q.override && t.entries == q.entries && t.player.view == after
  {
    hide PlayAll, TickOf, AskedAll, EventRead, WaitFailed, TimedOut;
    k := RunIs(world, s.player.(over := false, ret := 0), round.outside);
    AskedJobs(s.Queues(), round.requests);
    if k > 0 {
      var p := PlayAll(world, s.player.(over := false, ret := 0), round.outside);
      NotBoth(p.ticks[|p.ticks| - 1]);
    }
  }

  lemma {:induction false} AskedJobs(q: Queues<string>, requests: seq<string>)
    ensures AskedAll(q, requests).jobs == q.jobs
    decreases |requests|
  {
    hide ParseRequest;
    if requests != [] {
      AskedJobs(q.Asked(ParseRequest(requests[0])), requests[1..]);
    }
  }

  lemma NotBoth(log: TickLog)
    ensures !(EventRead(log) && WaitFailed(log))
  {
  }

  /** A session in which the thread has ended stays as it is, whatever rounds were to follow. */
  lemma {:induction false} EndedIsFinal(world: World, s: Session, rounds: seq<Round>, more: seq<Round>)
    requires PlayRounds(world, s, rounds).ended
    ensures PlayRounds(world, s, rounds + more) == PlayRounds(world, s, rounds)
    decreases |rounds|
  {
    if rounds == [] || s.ended {
      assert rounds == [] ==> rounds + more == more;
    } else {
      assert (rounds + more)[1..] == rounds[1..] + more;
      EndedIsFinal(world, PlayRound(world, s, rounds[0]), rounds[1..], more);
    }
  }

  /** Between rounds: a layer that is idle, or whose source is to be cut off, takes the next command
      waiting in the first tick of the next round. */
  lemma NextIsTaken(world: World, s: Session, round: Round)
    requires (s.player.view.override || s.player.view.part.None?) && s.player.view.waiting != []
    requires round.outside != []
    ensures var turns := PlayRound(world, s, round).player.view.turns;
      CommandsOf(s.player.view.turns) + [s.player.view.waiting[0]] <= CommandsOf(turns)
  {
    hide PlayTick, TickOf, CommandsOf;
    var p := s.player.(over := false, ret := 0);
    var q := PlayTick(world, p, round.outside[0]);
    TickTakesNext(world, p.view);
    TickIs(world, p, round.outside[0]);
    RunTakesOn(world, q, round.outside[1..]);
  }

  /** A command asked for at once, in a round that ends with the event fd readable, is the one that
      the next tick that runs takes, whatever played, waited or was asked for before. */
  lemma AskedIsTaken(
      world: World, s: Session, before: seq<string>, command: string, outside: seq<Outside>, next: Round)
    requires command != "" && command[0] != '&' && !NamesLayer(command)
    requires var t := PlayRound(world, s, Round(before + [command], outside, false));
      outside != [] && |t.player.ticks| > 0 && EventRead(t.player.ticks[|t.player.ticks| - 1])
    requires next.outside != []
    ensures var t := PlayRound(world, s, Round(before + [command], outside, false));
      var u := PlayRound(world, t, next);
      && !t.ended && t.player.view.waiting == [command] && t.player.view.override
      && |u.player.view.turns| > |t.player.view.turns|
      && u.player.view.turns[|t.player.view.turns|].command == command
  {
    hide PlayRound, BeforeDispatch, AskedAll, TickOf, EventRead, WaitFailed, Ran, ParseRequest;
    var round := Round(before + [command], outside, false);
    var k := RoundIs(world, s, round);
    LastAsked(s.Queues(), before, command);
    RequestTexts(command);
    var t := PlayRound(world, s, round);
    NextIsTaken(world, t, next);
    var turns := PlayRound(world, t, next).player.view.turns;
    assert CommandsOf(turns)[|t.player.view.turns|] == command;
  }

  // ---------------------------------------------------------------- the hand-over

  function Asks(requests: seq<string>): seq<Step>
    decreases |requests|
  {
    if requests == [] then [] else [Ask(ParseRequest(requests[0]))] + Asks(requests[1..])
  }

  /** The ticks between two views of a layer as one step of the hand-over. */
  function TickStep(v: View, w: View): Step {
    var count := |w.turns| - |v.turns|;
    if 0 <= count <= |v.waiting| then Tick(count, w.waiting != v.waiting[count..]) else Tick(0, false)
  }

  /** A round as steps of the hand-over: what is asked for, the ticks, and perhaps a dispatch. */
  function RoundSteps(world: World, s: Session, round: Round): seq<Step> {
    var t := BeforeDispatch(world, s, round);
    Asks(round.requests) + [TickStep(s.player.view, t.player.view)] +
    if t.player.ret == 1 && !round.hangup then [Dispatch] else []
  }

  function AllSteps(world: World, s: Session, rounds: seq<Round>): seq<Step>
    decreases |rounds|
  {
    if rounds == [] || s.ended then []
    else RoundSteps(world, s, rounds[0]) + AllSteps(world, PlayRound(world, s, rounds[0]), rounds[1..])
  }

  /** The run `r` of the hand-over explains the session. */
  ghost predicate Explains(r: Run, s: Session) {
    Shows(r, s.Queues(), CommandsOf(s.player.view.turns))
  }

  lemma {:induction false} AsksShow(r: Run, q: Queues<string>, taken: seq<string>, requests: seq<string>)
    returns (to: Run)
    requires Shows(r, q, taken)
    ensures Runs(r, Asks(requests), to) && Shows(to, AskedAll(q, requests), taken)
    ensures AskedAll(q, requests).jobs == q.jobs
    decreases |requests|
  {
    hide Shows, ParseRequest;
    to := r;
    if requests != [] {
      var request := ParseRequest(requests[0]);
      AskShows(r, q, taken, request);
      to := AsksShow(r.After(Ask(request)), q.Asked(request), taken, requests[1..]);
      assert Asks(requests)[1..] == Asks(requests[1..]);
    }
  }

  /** The ticks of a round are one step that takes commands off the front of the list. */
  lemma TicksShow(r: Run, q: Queues<string>, v: View, w: View)
    requires Shows(r, q, CommandsOf(v.turns)) && q.jobs == v.waiting && exists dropped :: ViewConsumes(v, w, dropped)
    ensures r.Enabled(TickStep(v, w))
    ensures Shows(r.After(TickStep(v, w)), q.(jobs := w.waiting), CommandsOf(w.turns))
  {
    hide Shows;
    var dropped :| ViewConsumes(v, w, dropped);
    var step := TickStep(v, w);
    TickShows(r, q, CommandsOf(v.turns), step.count, step.dropped);
  }

  lemma TicksConsume(world: World, p: Player, outside: seq<Outside>)
    requires Healthy(world, p.view)
    ensures exists dropped :: ViewConsumes(p.view, PlayAll(world, p, outside).view, dropped)
  {
    hide Healthy, PlayAll, PlayTick;
    var q := p.(ticks := []);
    RunAdvances(world, q, outside);
    TicksIgnored(world, p, outside);
    var r := PlayAll(world, q, outside);
    if r.ticks == [] {
      assert ViewConsumes(p.view, r.view, false);
    }
  }

  /** The loop does not look at its history. */
  lemma {:induction false} TicksIgnored(world: World, p: Player, outside: seq<Outside>)
    ensures PlayAll(world, p, outside).view == PlayAll(world, p.(ticks := []), outside).view
    decreases |outside|
  {
    hide TickOf, Deadline;
    if outside != [] && !p.over {
      var q, r := PlayTick(world, p, outside[0]), PlayTick(world, p.(ticks := []), outside[0]);
      TicksIgnored(world, q, outside[1..]);
      TicksIgnored(world, r, outside[1..]);
      assert q.(ticks := []) == r.(ticks := []);
    }
  }

  lemma RoundShows(world: World, s: Session, round: Round, r: Run) returns (to: Run)
    requires Explains(r, s) && Healthy(world, s.player.view)
    ensures Runs(r, RoundSteps(world, s, round), to) && Explains(to, PlayRound(world, s, round))
  {
    hide Healthy, PlayAll, Shows, TickStep;
    var v, t := s.player.view, BeforeDispatch(world, s, round);
    var asks, taken := Asks(round.requests), CommandsOf(v.turns);
    var asked := AsksShow(r, s.Queues(), taken, round.requests);
    TicksConsume(world, s.player.(over := false, ret := 0), round.outside);
    var tick := TickStep(v, t.player.view);
    TicksShow(asked, AskedAll(s.Queues(), round.requests), v, t.player.view);
    RunsOneMore(r, asks, asked, tick);
    to := asked.After(tick);
    assert t.Queues() == AskedAll(s.Queues(), round.requests).(jobs := t.player.view.waiting);
    if t.player.ret == 1 && !round.hangup {
      DispatchShows(to, t.Queues(), CommandsOf(t.player.view.turns));
      RunsOneMore(r, asks + [tick], to, Dispatch);
      to := to.After(Dispatch);
    } else {
      assert asks + [tick] + [] == asks + [tick];
    }
  }

  /** Every session is explained by the run of the hand-over that its rounds make up: what the
      layer took and what is still queued are the texts of that run's commands. */
  lemma {:induction false} SessionExplained(world: World, s: Session, rounds: seq<Round>, r: Run) returns (to: Run)
    requires Explains(r, s) && Told(world, s.player)
    ensures Runs(r, AllSteps(world, s, rounds), to) && Explains(to, PlayRounds(world, s, rounds))
    decreases |rounds|
  {
    hide Explains, PlayRound, RoundSteps, Healthy, FinishCame;
    to := r;
    if rounds != [] && !s.ended {
      var middle := RoundShows(world, s, rounds[0], r);
      RoundTold(world, s, rounds[0]);
      var t := PlayRound(world, s, rounds[0]);
      to := SessionExplained(world, t, rounds[1..], middle);
      RunsConcat(r, RoundSteps(world, s, rounds[0]), middle, AllSteps(world, t, rounds[1..]), to);
    }
  }

  /** In every session the commands played are among those asked for, in that order, each at most
      once. */
  lemma PlayedInOrder(world: World, rounds: seq<Round>) returns (to: Run)
    ensures var taken := CommandsOf(PlayRounds(world, FRESH, rounds).player.view.turns);
      && Runs(START, AllSteps(world, FRESH, rounds), to) && |to.started| == |taken|
      && (forall i :: 0 <= i < |taken| ==> to.started[i] < |to.issued| && taken[i] == to.issued[to.started[i]])
      && (forall i, j :: 0 <= i < j < |taken| ==> to.started[i] < to.started[j])
  {
    hide PlayRounds, AllSteps, Told;
    FreshTold(world);
    assert Explains(START, FRESH) by { FreshShown(); }
    to := SessionExplained(world, FRESH, rounds, START);
    StartedInOrder(AllSteps(world, FRESH, rounds), to);
  }

  lemma FreshShown()
    ensures Explains(START, FRESH)
  {
  }

  /** thread_routine, from its initial layer and state on: the layer ends up where the session
      says, with what it says written, and all that holds of sessions. */
  method ThreadRoutine(control: LayerControl, channel: Channel, world: World, rounds: seq<Round>, ghost last: int)
    returns (layer: StreamLayer, ghost s: Session)
    requires (forall i :: 0 <= i < |rounds| ==> rounds[i].Sound()) && SessionCompletes(world, FRESH, rounds)
    requires !control.override && control.entries == [] && channel.written == []
    modifies control, channel
    ensures s == PlayRounds(world, FRESH, rounds)
    ensures layer.Valid() && layer.View() == s.player.view && channel.written == s.player.written
    ensures TurnsSound(world, layer.turns) && Separated(layer.events)
    ensures AllMixed(layer.turns) == Mixed(world, s.player.ticks) && channel.written == Frames(world, s.player.ticks)
    ensures AllTimely(world, FRESH, rounds, last) ==> Paced(s.player.nows)
  {
    hide StreamLayer.Valid, Round.Sound, PlayRounds, AllTimely, Paced, AllMixed, Mixed, Frames, Separated,
      TurnsSound, Told;
    var state := new StreamState();
    layer := new StreamLayer(world);
    FreshTold(world);
    s := RunRounds(control, layer, state, channel, rounds, FRESH);
    RoundsTold(world, FRESH, rounds);
    ToldSays(world, s.player);
    if AllTimely(world, FRESH, rounds, last) {
      SessionPaced(world, rounds, last);
    }
  }

  lemma ToldSays(world: World, p: Player)
    requires Told(world, p)
    ensures TurnsSound(world, p.view.turns) && Separated(p.view.events)
    ensures AllMixed(p.view.turns) == Mixed(world, p.ticks) && p.written == Frames(world, p.ticks)
  {
  }
}
