/** The hand-over of commands from the dialplan thread to the player thread (app_voxtts.c):
    requests change an override flag and a list of entries under a mutex; the player dispatches
    them into the layer's job list and takes them from there. */
module Handoff {

  datatype Request<T> = Stop | Append(command: T) | Replace(command: T)

  const AUDIO_LAYER_COUNT := 1

  /** Whether the text names its layer, as in "0@". */
  predicate NamesLayer(data: string) {
    |data| >= 2 && data[0] in "0123" && data[1] == '@'
  }

  /** The element of the array of layers that the text selects; the program does not check it
      against AUDIO_LAYER_COUNT. */
  function LayerIndex(data: string): nat {
    if NamesLayer(data) then data[0] as int - '0' as int else 0
  }

  /** The index is out of bounds exactly when the text names one of the layers 1 to 3. */
  lemma LayerInBoundsIff(data: string)
    ensures LayerIndex(data) < AUDIO_LAYER_COUNT <==> !(|data| >= 2 && data[0] in "123" && data[1] == '@')
    ensures LayerIndex("1@play,,greeting") == 1
  {
  }

  /** What a VoxPlayBackground argument asks for. */
  function ParseRequest(data: string): Request<string> {
    var text := if NamesLayer(data) then data[2..] else data;
    if text == "" then Stop else if text[0] == '&' then Append(text[1..]) else Replace(text)
  }

  /** An empty text stops, one that begins with an ampersand appends what follows it, any other
      replaces; the prefix of layer 0 makes no difference. */
  lemma RequestTexts(text: string)
    ensures ParseRequest("") == ParseRequest("0@") == Stop
    ensures ParseRequest("&" + text) == ParseRequest("0@&" + text) == Append(text)
    ensures text != "" && text[0] != '&' && !NamesLayer(text) ==> ParseRequest(text) == Replace(text)
    ensures text != "" && text[0] != '&' ==> ParseRequest("0@" + text) == Replace(text)
  {
    assert ("&" + text)[1..] == text;
    assert ("0@" + text)[2..] == text && ("0@&" + text)[2..] == "&" + text;
  }

  /** The player's side of the queue and the dialplan's. */
  datatype Queues<T> = Queues(override: bool, entries: seq<T>, jobs: seq<T>)
  {
    /** The commands that would be played, next one first, if nothing else were asked for. */
    function Effective(): seq<T> {
      if override then entries else jobs + entries
    }

    function Asked(request: Request<T>): Queues<T> {
      match request
      case Stop => this.(override := true)
      case Append(command) => this.(entries := entries + [command])
      case Replace(command) => this.(override := true, entries := [command])
    }

    function Dispatched(): Queues<T> {
      Queues(false, [], Effective())
    }

    /** The player takes `count` commands and, after a failure, drops the others. */
    function Ticked(count: nat, dropped: bool): Queues<T>
      requires count <= |jobs|
    {
      this.(jobs := if dropped then [] else jobs[count..])
    }
  }

  /** What a request means for the queue of commands to be played: appending adds one at the
      end, replacing leaves one. */
  lemma AskedMeans<T>(q: Queues<T>, command: T)
    ensures q.Asked(Append(command)).Effective() == q.Effective() + [command]
    ensures q.Asked(Replace(command)).Effective() == [command]
    ensures q.Dispatched().Effective() == q.Effective() == q.Dispatched().jobs
    ensures !q.Dispatched().override && q.Dispatched().entries == []
  {
    assert q.jobs + (q.entries + [command]) == q.jobs + q.entries + [command];
  }

  // ---------------------------------------------------------------- runs

  datatype Step = Ask(request: Request<string>) | Dispatch | Tick(count: nat, dropped: bool)

  ghost predicate Increasing(s: seq<nat>, bound: nat) {
    && (forall i, j :: 0 <= i < j < |s| ==> s[i] < s[j])
    && (forall i :: 0 <= i < |s| ==> s[i] < bound)
  }

  lemma CutMiddle(a: seq<nat>, b: seq<nat>, c: seq<nat>, bound: nat)
    requires Increasing(a + b + c, bound)
    ensures Increasing(a + c, bound) && Increasing(a + b, bound)
  {
    var all := a + b + c;
    assert forall i :: 0 <= i < |a + c| ==> (a + c)[i] == all[if i < |a| then i else i + |b|];
    assert forall i :: 0 <= i < |a + b| ==> (a + b)[i] == all[i];
  }

  lemma AddLast(s: seq<nat>, bound: nat)
    requires Increasing(s, bound)
    ensures Increasing(s + [bound], bound + 1)
  {
  }

  /** A run's state: commands are named by their place among all commands issued. */
  datatype Run = Run(issued: seq<string>, queues: Queues<nat>, started: seq<nat>)
  {
    predicate Enabled(step: Step) {
      step.Tick? ==> step.count <= |queues.jobs|
    }

    function After(step: Step): Run
      requires Enabled(step)
    {
      match step
      case Ask(request) =>
        var next := |issued|;
        match request {
          case Stop => this.(queues := queues.Asked(Stop))
          case Append(command) => this.(issued := issued + [command], queues := queues.Asked(Append(next)))
          case Replace(command) => this.(issued := issued + [command], queues := queues.Asked(Replace(next)))
        }
      case Dispatch => this.(queues := queues.Dispatched())
      case Tick(count, dropped) =>
        this.(queues := queues.Ticked(count, dropped), started := started + queues.jobs[..count])
    }

    ghost predicate Ordered() {
      Increasing(started + queues.jobs + queues.entries, |issued|)
    }

    /** Every command still waiting comes from `first` on, but for jobs an override will drop. */
    ghost predicate Fenced(first: nat) {
      && first <= |issued|
      && (forall i :: 0 <= i < |queues.entries| ==> queues.entries[i] >= first)
      && (queues.override || forall i :: 0 <= i < |queues.jobs| ==> queues.jobs[i] >= first)
    }

    ghost predicate AllFrom(first: nat) {
      && first <= |issued|
      && (forall i :: 0 <= i < |queues.entries| ==> queues.entries[i] >= first)
      && (forall i :: 0 <= i < |queues.jobs| ==> queues.jobs[i] >= first)
    }
  }

  const START := Run([], Queues(false, [], []), [])

  ghost predicate Runs(from: Run, steps: seq<Step>, to: Run)
    decreases steps
  {
    if steps == [] then to == from
    else from.Enabled(steps[0]) && Runs(from.After(steps[0]), steps[1..], to)
  }

  lemma {:induction false} RunsConcat(from: Run, a: seq<Step>, middle: Run, b: seq<Step>, to: Run)
    requires Runs(from, a, middle) && Runs(middle, b, to)
    ensures Runs(from, a + b, to)
    decreases a
  {
    if a == [] {
      assert a + b == b;
    } else {
      assert (a + b)[1..] == a[1..] + b;
      RunsConcat(from.After(a[0]), a[1..], middle, b, to);
    }
  }

  /** Requests and ticks touch different halves of the state. */
  lemma AskCommutesWithTick(r: Run, request: Request<string>, count: nat, dropped: bool)
    requires count <= |r.queues.jobs|
    ensures r.After(Ask(request)).Enabled(Tick(count, dropped))
    ensures r.After(Ask(request)).After(Tick(count, dropped)) == r.After(Tick(count, dropped)).After(Ask(request))
  {
  }

  /** The same run with each tick put off behind the requests up to the next dispatch; `held` are
      the ticks put off so far. */
  function AsksFirst(steps: seq<Step>, held: seq<Step>): seq<Step> {
    if steps == [] then held
    else if steps[0].Tick? then AsksFirst(steps[1..], held + [steps[0]])
    else if steps[0].Ask? then [steps[0]] + AsksFirst(steps[1..], held)
    else held + [Dispatch] + AsksFirst(steps[1..], [])
  }

  lemma {:induction false} RunsSplit(from: Run, a: seq<Step>, b: seq<Step>, to: Run) returns (middle: Run)
    requires Runs(from, a + b, to)
    ensures Runs(from, a, middle) && Runs(middle, b, to)
    decreases a
  {
    if a == [] {
      assert a + b == b;
      middle := from;
    } else {
      assert (a + b)[1..] == a[1..] + b;
      middle := RunsSplit(from.After(a[0]), a[1..], b, to);
    }
  }

  lemma {:induction false} TicksCommute(from: Run, ticks: seq<Step>, middle: Run, request: Request<string>)
    requires Runs(from, ticks, middle) && forall i :: 0 <= i < |ticks| ==> ticks[i].Tick?
    ensures Runs(from.After(Ask(request)), ticks, middle.After(Ask(request)))
    decreases ticks
  {
    if ticks != [] {
      AskCommutesWithTick(from, request, ticks[0].count, ticks[0].dropped);
      TicksCommute(from.After(ticks[0]), ticks[1..], middle, request);
    }
  }

  /** It makes no difference which requests and ticks between two dispatches come first. */
  lemma {:induction false} OrderInRoundIrrelevant(from: Run, held: seq<Step>, steps: seq<Step>, to: Run)
    requires Runs(from, held + steps, to) && forall i :: 0 <= i < |held| ==> held[i].Tick?
    ensures Runs(from, AsksFirst(steps, held), to)
    decreases steps
  {
    if steps == [] {
      assert held + steps == held;
    } else {
      var step, rest := steps[0], steps[1..];
      assert held + steps == held + [step] + rest;
      if step.Tick? {
        OrderInRoundIrrelevant(from, held + [step], rest, to);
      } else {
        assert held + ([step] + rest) == held + steps && ([step] + rest)[1..] == rest;
        var middle := RunsSplit(from, held, [step] + rest, to);
        if step.Ask? {
          TicksCommute(from, held, middle, step.request);
          RunsConcat(from.After(step), held, middle.After(step), rest, to);
          OrderInRoundIrrelevant(from.After(step), held, rest, to);
          assert ([step] + AsksFirst(rest, held))[1..] == AsksFirst(rest, held);
        } else {
          assert [] + rest == rest;
          OrderInRoundIrrelevant(middle.After(step), [], rest, to);
          RunsOneMore(from, held, middle, step);
          RunsConcat(from, held + [step], middle.After(step), AsksFirst(rest, []), to);
        }
      }
    }
  }

  lemma StepOrdered(r: Run, step: Step)
    requires r.Ordered() && r.Enabled(step)
    ensures r.After(step).Ordered()
  {
    hide Increasing;
    var bound, jobs, entries := |r.issued|, r.queues.jobs, r.queues.entries;
    match step
    case Ask(request) =>
      assert r.started + jobs + [] == r.started + jobs && r.started + jobs + entries + [] == r.started + jobs + entries;
      CutMiddle(r.started + jobs, entries, [], bound);
      AddLast(r.started + jobs, bound);
      AddLast(r.started + jobs + entries, bound);
      assert r.started + jobs + (entries + [bound]) == r.started + jobs + entries + [bound];
    case Dispatch =>
      CutMiddle(r.started, jobs, entries, bound);
      assert r.started + (jobs + entries) + [] == r.started + jobs + entries;
      assert r.started + entries + [] == r.started + entries;
    case Tick(count, dropped) =>
      var taken, rest := jobs[..count], jobs[count..];
      assert jobs == taken + rest;
      assert r.started + taken + rest + entries == r.started + jobs + entries;
      CutMiddle(r.started + taken, rest, entries, bound);
      assert r.started + taken + [] + entries == r.started + taken + entries;
  }

  lemma {:induction false} RunOrdered(from: Run, steps: seq<Step>, to: Run)
    requires from.Ordered() && Runs(from, steps, to)
    ensures to.Ordered() && from.started <= to.started && from.issued <= to.issued
    decreases steps
  {
    if steps != [] {
      StepOrdered(from, steps[0]);
      RunOrdered(from.After(steps[0]), steps[1..], to);
    }
  }

  /** In every run the commands started are a subsequence of those issued: in order, each at
      most once. */
  lemma StartedInOrder(steps: seq<Step>, to: Run)
    requires Runs(START, steps, to)
    ensures forall i :: 0 <= i < |to.started| ==> to.started[i] < |to.issued|
    ensures forall i, j :: 0 <= i < j < |to.started| ==> to.started[i] < to.started[j]
  {
    assert START.Ordered();
    RunOrdered(START, steps, to);
    var all := to.started + to.queues.jobs + to.queues.entries;
    assert forall i :: 0 <= i < |to.started| ==> to.started[i] == all[i];
  }

  lemma StepFenced(r: Run, step: Step, first: nat)
    requires r.Enabled(step)
    ensures r.Fenced(first) ==> r.After(step).Fenced(first)
    ensures r.AllFrom(first) ==> r.After(step).AllFrom(first)
    ensures r.Fenced(first) && step.Dispatch? ==> r.After(step).AllFrom(first)
  {
  }

  lemma {:induction false} RunFenced(from: Run, steps: seq<Step>, to: Run, first: nat)
    requires from.Fenced(first) && Runs(from, steps, to)
    ensures to.Fenced(first)
    decreases steps
  {
    if steps != [] {
      StepFenced(from, steps[0], first);
      RunFenced(from.After(steps[0]), steps[1..], to, first);
    }
  }

  lemma {:induction false} RunAllFrom(from: Run, steps: seq<Step>, to: Run, first: nat)
    requires from.AllFrom(first) && Runs(from, steps, to)
    ensures to.AllFrom(first) && from.started <= to.started
    ensures forall i :: |from.started| <= i < |to.started| ==> to.started[i] >= first
    decreases steps
  {
    if steps != [] {
      StepFenced(from, steps[0], first);
      RunAllFrom(from.After(steps[0]), steps[1..], to, first);
    }
  }

  /** Once a replacement has been dispatched, no command issued before it ever starts. */
  lemma ReplaceIsFinal(
      at: Run, text: string, command: string, until: seq<Step>, dispatched: Run, later: seq<Step>, to: Run)
    requires command != "" && command[0] != '&'
    requires text == "0@" + command || (text == command && !NamesLayer(command))
    requires Runs(at.After(Ask(ParseRequest(text))), until, dispatched)
    requires Runs(dispatched.After(Dispatch), later, to)
    ensures dispatched.started <= to.started
    ensures forall i :: |dispatched.started| <= i < |to.started| ==> to.started[i] >= |at.issued|
  {
    RequestTexts(command);
    var first := |at.issued|;
    assert at.After(Ask(Replace(command))).Fenced(first);
    RunFenced(at.After(Ask(Replace(command))), until, dispatched, first);
    StepFenced(dispatched, Dispatch, first);
    RunAllFrom(dispatched.After(Dispatch), later, to, first);
  }

  /** No command issued before the one numbered `first` started since. */
  ghost predicate NoneBefore(first: nat, started: seq<nat>, started': seq<nat>) {
    forall i :: |started| <= i < |started'| ==> started'[i] >= first
  }

  /** A run up to a dispatch, and on from there. */
  ghost predicate Continues(from: Run, until: seq<Step>, dispatched: Run, later: seq<Step>, to: Run) {
    Runs(from, until, dispatched) && Runs(dispatched.After(Dispatch), later, to)
  }

  /** An empty request is meant to stop everything. Once it has been dispatched no earlier command
      ever starts, whatever happens before and after the dispatch, exactly when no entry was
      pending: commands that were not dispatched yet survive it. */
  lemma StopStopsIff(at: Run, text: string)
    requires at.Ordered() && (text == "" || text == "0@")
    ensures (forall until, dispatched, later, to ::
               Continues(at.After(Ask(ParseRequest(text))), until, dispatched, later, to) ==>
                 NoneBefore(|at.issued|, dispatched.started, to.started))
       <==> at.queues.entries == []
  {
    RequestTexts(text);
    var stopped := at.After(Ask(Stop));
    if at.queues.entries == [] {
      assert stopped.Fenced(|at.issued|);
      forall until, dispatched, later, to | Continues(stopped, until, dispatched, later, to)
        ensures NoneBefore(|at.issued|, dispatched.started, to.started)
      {
        RunFenced(stopped, until, dispatched, |at.issued|);
        StepFenced(dispatched, Dispatch, |at.issued|);
        RunAllFrom(dispatched.After(Dispatch), later, to, |at.issued|);
      }
    } else {
      OrderedBounds(at);
      var taken := stopped.After(Dispatch).After(Tick(1, false));
      assert Runs(stopped, [], stopped);
      assert Runs(taken, [], taken) && [Tick(1, false)][1..] == [];
      assert Runs(stopped.After(Dispatch), [Tick(1, false)], taken);
      assert taken.started[|at.started|] == at.queues.entries[0] < |at.issued|;
      assert Continues(stopped, [], stopped, [Tick(1, false)], taken);
      assert !NoneBefore(|at.issued|, stopped.started, taken.started);
    }
  }

  // ---------------------------------------------------------------- what a run shows

  function Texts(issued: seq<string>, places: seq<nat>): (r: seq<string>)
    ensures |r| == |places|
  {
    seq(|places|, i requires 0 <= i < |places| => if places[i] < |issued| then issued[places[i]] else "")
  }

  /** The run `r` explains the texts in the queues and those taken so far. */
  ghost predicate Shows(r: Run, q: Queues<string>, taken: seq<string>) {
    && r.Ordered()
    && q == Queues(r.queues.override, Texts(r.issued, r.queues.entries), Texts(r.issued, r.queues.jobs))
    && taken == Texts(r.issued, r.started)
  }

  lemma TextsConcat(issued: seq<string>, a: seq<nat>, b: seq<nat>)
    ensures Texts(issued, a + b) == Texts(issued, a) + Texts(issued, b)
  {
  }

  lemma TextsKept(issued: seq<string>, more: string, places: seq<nat>)
    requires forall i :: 0 <= i < |places| ==> places[i] < |issued|
    ensures Texts(issued + [more], places) == Texts(issued, places)
  {
  }

  lemma OrderedBounds(r: Run)
    requires r.Ordered()
    ensures forall i :: 0 <= i < |r.started| ==> r.started[i] < |r.issued|
    ensures forall i :: 0 <= i < |r.queues.jobs| ==> r.queues.jobs[i] < |r.issued|
    ensures forall i :: 0 <= i < |r.queues.entries| ==> r.queues.entries[i] < |r.issued|
  {
    var all := r.started + r.queues.jobs + r.queues.entries;
    assert forall i :: 0 <= i < |r.started| ==> all[i] == r.started[i];
    assert forall i :: 0 <= i < |r.queues.jobs| ==> all[|r.started| + i] == r.queues.jobs[i];
    assert forall i :: 0 <= i < |r.queues.entries| ==> all[|r.started| + |r.queues.jobs| + i] == r.queues.entries[i];
  }

  lemma AskShows(r: Run, q: Queues<string>, taken: seq<string>, request: Request<string>)
    requires Shows(r, q, taken)
    ensures Shows(r.After(Ask(request)), q.Asked(request), taken)
  {
    StepOrdered(r, Ask(request));
    OrderedBounds(r);
    if !request.Stop? {
      var next, issued := |r.issued|, r.issued + [request.command];
      TextsKept(r.issued, request.command, r.started);
      TextsKept(r.issued, request.command, r.queues.jobs);
      TextsKept(r.issued, request.command, r.queues.entries);
      TextsConcat(issued, r.queues.entries, [next]);
      assert Texts(issued, [next]) == [request.command];
    }
  }

  lemma DispatchShows(r: Run, q: Queues<string>, taken: seq<string>)
    requires Shows(r, q, taken)
    ensures Shows(r.After(Dispatch), q.Dispatched(), taken)
  {
    StepOrdered(r, Dispatch);
    TextsConcat(r.issued, r.queues.jobs, r.queues.entries);
    assert Texts(r.issued, []) == [];
  }

  lemma TickShows(r: Run, q: Queues<string>, taken: seq<string>, count: nat, dropped: bool)
    requires Shows(r, q, taken) && count <= |q.jobs|
    ensures r.Enabled(Tick(count, dropped))
    ensures Shows(r.After(Tick(count, dropped)), q.Ticked(count, dropped), taken + q.jobs[..count])
  {
    var jobs := r.queues.jobs;
    StepOrdered(r, Tick(count, dropped));
    TextsConcat(r.issued, r.started, jobs[..count]);
    assert Texts(r.issued, jobs[..count]) == q.jobs[..count];
    assert Texts(r.issued, jobs[count..]) == q.jobs[count..];
    assert Texts(r.issued, []) == [];
  }

  lemma RunsOneMore(from: Run, steps: seq<Step>, to: Run, step: Step)
    requires Runs(from, steps, to) && to.Enabled(step)
    ensures Runs(from, steps + [step], to.After(step))
  {
    assert Runs(to, [step], to.After(step)) by {
      assert Runs(to.After(step), [step][1..], to.After(step));
    }
    RunsConcat(from, steps, to, [step], to.After(step));
  }
}
