/** The control block shared by the dialplan and the player thread, and the player thread's
    loop (app_voxtts.c:104-119, 208-290, 363-418). */
module PlaybackControl {
  import opened Audio
  import opened Commands
  import opened Playback
  import opened Layers
  import opened Pacing
  import opened Player
  import opened Handoff

  /** One round of the player thread: what is asked for meanwhile (by Handoff.OrderInRoundIrrelevant
      it may as well come first), what the outside does tick by tick, and whether the channel has
      hung up by the end. */
  datatype Round = Round(requests: seq<string>, outside: seq<Outside>, hangup: bool)
  {
    ghost predicate Sound() {
      && (forall i :: 0 <= i < |requests| ==> LayerIndex(requests[i]) < AUDIO_LAYER_COUNT)
      && (forall i :: 0 <= i < |outside| ==> outside[i].Sound())
    }
  }

  // ---------------------------------------------------------------- the loop on values

  /** The control block and the player between two rounds. */
  datatype Session = Session(override: bool, entries: seq<string>, player: Player, ended: bool)
  {
    function Queues(): Queues<string> {
      Handoff.Queues(override, entries, player.view.waiting)
    }
  }

  ghost predicate SafeRequest(world: World, request: Request<string>) {
    request.Stop? || Safe(world, request.command)
  }

  function AskedAll(q: Queues<string>, requests: seq<string>): Queues<string>
    decreases |requests|
  {
    if requests == [] then q else AskedAll(q.Asked(ParseRequest(requests[0])), requests[1..])
  }

  function Dispatched(s: Session): Session {
    var v := s.player.view;
    s.(override := false, entries := [],
       player := s.player.(view := v.(override := v.override || s.override, waiting := s.Queues().Effective())))
  }

  /** The ticks of a round, with what was asked for. */
  function BeforeDispatch(world: World, s: Session, round: Round): Session {
    var q := AskedAll(s.Queues(), round.requests);
    var p := PlayAll(world, s.player.(over := false, ret := 0), round.outside);
    Session(q.override, q.entries, p, p.ret == -1 || round.hangup)
  }

  /** A dispatch follows when the event fd ended the ticks. */
  function PlayRound(world: World, s: Session, round: Round): Session {
    var t := BeforeDispatch(world, s, round);
    if t.player.ret == 1 && !round.hangup then Dispatched(t) else t
  }

  function PlayRounds(world: World, s: Session, rounds: seq<Round>): Session
    decreases |rounds|
  {
    if rounds == [] || s.ended then s else PlayRounds(world, PlayRound(world, s, rounds[0]), rounds[1..])
  }

  const FRESH := Session(false, [], Player(NOTHING, [], [], [], 0, false), false)

  /** Whatever plays, waits or is pending fits. */
  ghost predicate SessionFits(world: World, s: Session) {
    Fitting(world, s.player.view) && AllSafe(world, s.entries)
  }

  ghost predicate AllSafe(world: World, commands: seq<string>) {
    forall i :: 0 <= i < |commands| ==> Safe(world, commands[i])
  }

  lemma {:induction false} AskedSafe(world: World, q: Queues<string>, requests: seq<string>)
    requires AllSafe(world, q.entries)
    requires forall i :: 0 <= i < |requests| ==> SafeRequest(world, ParseRequest(requests[i]))
    ensures AllSafe(world, AskedAll(q, requests).entries) && AskedAll(q, requests).jobs == q.jobs
    decreases |requests|
  {
    hide ParseRequest, Safe;
    if requests != [] {
      AskedSafe(world, q.Asked(ParseRequest(requests[0])), requests[1..]);
    }
  }

  lemma DispatchedFits(world: World, v: View, w: View, entries: seq<string>)
    requires Fitting(world, v) && AllSafe(world, entries) && w.part == v.part && w.turns == v.turns
    requires w.waiting == entries || w.waiting == v.waiting + entries
    ensures Fitting(world, w)
  {
    hide StartFits, StartOf, PartFits;
  }

  /** A round of safe requests leaves everything fitting. */
  lemma RoundFits(world: World, s: Session, round: Round)
    requires SessionFits(world, s)
    requires forall i :: 0 <= i < |round.requests| ==> SafeRequest(world, ParseRequest(round.requests[i]))
    ensures SessionFits(world, PlayRound(world, s, round)) && RoundCompletes(world, s, round)
  {
    hide PlayAll, Fitting, Safe, ParseRequest;
    AskedSafe(world, s.Queues(), round.requests);
    FittingCompletes(world, s.player.(over := false, ret := 0), round.outside);
    var t := BeforeDispatch(world, s, round);
    DispatchedFits(world, t.player.view, Dispatched(t).player.view, t.entries);
  }

  /** Every tick of a round comes to an end and stays within its frame. */
  ghost predicate RoundCompletes(world: World, s: Session, round: Round) {
    AllComplete(world, s.player.(over := false, ret := 0), round.outside)
  }

  ghost predicate SessionCompletes(world: World, s: Session, rounds: seq<Round>)
    decreases |rounds|
  {
    rounds == [] || s.ended ||
    (RoundCompletes(world, s, rounds[0]) && SessionCompletes(world, PlayRound(world, s, rounds[0]), rounds[1..]))
  }

  /** All that is asked for in the rounds is safe. */
  ghost predicate AllSafeRequests(world: World, rounds: seq<Round>) {
    forall i, j :: 0 <= i < |rounds| && 0 <= j < |rounds[i].requests| ==>
      SafeRequest(world, ParseRequest(rounds[i].requests[j]))
  }

  /** A session in which only safe commands are asked for completes. */
  lemma {:induction false} SafeSessionCompletes(world: World, s: Session, rounds: seq<Round>)
    requires SessionFits(world, s) && AllSafeRequests(world, rounds)
    ensures SessionCompletes(world, s, rounds)
    decreases |rounds|
  {
    hide PlayRound, SafeRequest, ParseRequest, SessionFits, RoundCompletes;
    if rounds != [] && !s.ended {
      RoundFits(world, s, rounds[0]);
      SafeSessionCompletes(world, PlayRound(world, s, rounds[0]), rounds[1..]);
    }
  }

  lemma FreshFits(world: World)
    ensures SessionFits(world, FRESH)
  {
  }

  lemma SafeFromTheStart(world: World, rounds: seq<Round>)
    requires AllSafeRequests(world, rounds)
    ensures SessionCompletes(world, FRESH, rounds)
  {
    hide SessionFits, AllSafeRequests, SessionCompletes;
    FreshFits(world);
    SafeSessionCompletes(world, FRESH, rounds);
  }

  // ---------------------------------------------------------------- the loop in place

  /** ht_playback_layer_control, with the mutex that guards it held around each method. */
  class LayerControl {
    var override: bool
    var entries: seq<string>

    constructor ()
      ensures !override && entries == []
    {
      override, entries := false, [];
    }

    /** playbackground_exec, between locking and unlocking the mutex. The program indexes its
        array of one layer by LayerIndex(data) without a check: beyond it the access is out of
        bounds. */
    method PlaybackExec(data: string)
      requires LayerIndex(data) < AUDIO_LAYER_COUNT
      modifies this
      ensures forall jobs ::
        Handoff.Queues(override, entries, jobs)
          == Handoff.Queues(old(override), old(entries), jobs).Asked(ParseRequest(data))
      ensures var text := if data[..Min(2, |data|)] == "0@" then data[2..] else data;
        if text == "" then override && entries == old(entries)
        else if text[0] == '&' then override == old(override) && entries == old(entries) + [text[1..]]
        else override && entries == [text]
    {
      var text := data;
      if |data| >= 2 && data[0] == '0' && data[1] == '@' {
        text := data[2..];
      }
      var empty := false;
      if text == "" {
        empty := true;
        override := true;
      } else if text[0] == '&' {
        text := text[1..];
      } else {
        entries := [];
        override := true;
      }
      if !empty {
        entries := entries + [text];
      }
    }

    /** The loop of dispatch_jobs: all entries go to the end of the job list. */
    method MoveEntries(layer: StreamLayer)
      requires layer.Valid() && this !in layer.Repr
      modifies this`entries, layer.Repr
      ensures layer.Valid() && fresh(layer.Repr - old(layer.Repr)) && entries == []
      ensures layer.View() == old(layer.View()).(waiting := old(layer.jobs.Waiting()) + old(entries))
    {
      hide StreamLayer.Consistent, StreamLayer.View;
      layer.SourceView();
      ghost var start := layer.View();
      assert start.waiting + old(entries)[..0] == start.waiting && old(entries)[0..] == old(entries);
      ghost var k := 0;
      while entries != []
        invariant k <= |old(entries)| && entries == old(entries)[k..]
        invariant layer.Valid() && fresh(layer.Repr - old(layer.Repr)) && this !in layer.Repr
        invariant layer.View() == start.(waiting := start.waiting + old(entries)[..k])
        decreases |entries|
      {
        layer.SourceView();
        layer.AddJob(entries[0]);
        assert start.waiting + old(entries)[..k] + [old(entries)[k]] == start.waiting + old(entries)[..k + 1];
        entries := entries[1..];
        k := k + 1;
      }
    }

    /** dispatch_jobs: the layer gets exactly the queue of commands to be played. */
    method DispatchJobs(layer: StreamLayer)
      requires layer.Valid() && this !in layer.Repr
      modifies this, layer.Repr
      ensures layer.Valid() && fresh(layer.Repr - old(layer.Repr)) && !override && entries == []
      ensures var v := old(layer.View());
        layer.View() == v.(
          override := v.override || old(override),
          waiting := Handoff.Queues(old(override), old(entries), v.waiting).Effective())
    {
      hide StreamLayer.Consistent, StreamLayer.View;
      layer.SourceView();
      if override {
        layer.Override();
        layer.SourceView();
        assert [] + entries == entries;
        override := false;
      }
      MoveEntries(layer);
    }
  }

  /** The requests made while the player thread mixes. */
  method AskAll(control: LayerControl, requests: seq<string>)
    requires forall i :: 0 <= i < |requests| ==> LayerIndex(requests[i]) < AUDIO_LAYER_COUNT
    modifies control
    ensures forall jobs ::
      Handoff.Queues(control.override, control.entries, jobs)
        == AskedAll(Handoff.Queues(old(control.override), old(control.entries), jobs), requests)
  {
    for i := 0 to |requests|
      invariant forall jobs ::
        AskedAll(Handoff.Queues(control.override, control.entries, jobs), requests[i..])
          == AskedAll(Handoff.Queues(old(control.override), old(control.entries), jobs), requests)
    {
      assert requests[i..][1..] == requests[i + 1..];
      control.PlaybackExec(requests[i]);
    }
  }

  /** The objects are where `s` says. */
  ghost predicate Shown(s: Session, control: LayerControl, layer: StreamLayer, state: StreamState, channel: Channel)
    reads control, layer, layer.jobs`chain, layer.SourceRepr(), state, channel
  {
    s.override == control.override && s.entries == control.entries && Mirrors(s.player, layer, state, channel)
  }

  /** One round: the frame loop until it returns, then, if the event fd ended it, a dispatch. */
  method RunRound(control: LayerControl, layer: StreamLayer, state: StreamState, channel: Channel, round: Round,
      ghost s: Session)
    returns (ret: int, ghost s': Session)
    requires layer.Valid() && state.Valid() && round.Sound()
    requires control !in layer.Repr && state !in layer.Repr && channel !in layer.Repr
    requires Shown(s, control, layer, state, channel) && RoundCompletes(layer.world, s, round)
    modifies control, layer.Repr, state, channel
    ensures layer.Valid() && state.Valid() && fresh(layer.Repr - old(layer.Repr))
    ensures s' == PlayRound(layer.world, s, round) && Shown(s', control, layer, state, channel)
    ensures s'.ended == (ret == -1 || round.hangup)
  {
    hide StreamLayer.Consistent, StreamLayer.View, PlayAll, Deadline, DeadlineOf, AllComplete;
    AskAll(control, round.requests);
    ghost var p;
    ret, p := StreamLayers(layer, state, channel, round.outside, s.player.(over := false, ret := 0));
    s' := PlayRound(layer.world, s, round);
    if ret == 1 && !round.hangup {
      control.DispatchJobs(layer);
    }
  }

  /** The loop of thread_routine, until a failure or a hangup, or as far as `rounds` reaches. */
  method RunRounds(control: LayerControl, layer: StreamLayer, state: StreamState, channel: Channel,
      rounds: seq<Round>, ghost s: Session)
    returns (ghost s': Session)
    requires layer.Valid() && state.Valid() && forall i :: 0 <= i < |rounds| ==> rounds[i].Sound()
    requires control !in layer.Repr && state !in layer.Repr && channel !in layer.Repr
    requires Shown(s, control, layer, state, channel) && !s.ended && SessionCompletes(layer.world, s, rounds)
    modifies control, layer.Repr, state, channel
    ensures layer.Valid() && state.Valid() && fresh(layer.Repr - old(layer.Repr))
    ensures s' == PlayRounds(layer.world, s, rounds) && Shown(s', control, layer, state, channel)
  {
    hide StreamLayer.Valid, Shown, Round.Sound, PlayRound, RoundCompletes;
    s' := s;
    for i := 0 to |rounds|
      invariant layer.Valid() && state.Valid() && fresh(layer.Repr - old(layer.Repr))
      invariant control !in layer.Repr && state !in layer.Repr && channel !in layer.Repr
      invariant Shown(s', control, layer, state, channel) && !s'.ended
      invariant SessionCompletes(layer.world, s', rounds[i..])
      invariant PlayRounds(layer.world, s, rounds) == PlayRounds(layer.world, s', rounds[i..])
    {
      var ret;
      ret, s' := RunRound(control, layer, state, channel, rounds[i], s');
      assert rounds[i..][1..] == rounds[i + 1..];
      if ret == -1 || rounds[i].hangup {
        return;
      }
    }
  }
}
