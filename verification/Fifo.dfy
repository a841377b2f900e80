/** The FIFO of bytes that ByteQueue is for: its operations as steps on a value,
    and what holds in every interleaving of one sender and one receiver. */
module Fifo {
  import opened Audio

  datatype Option<T> = None | Some(value: T)

  /** One pushed record. A record without data is what the receiver takes for the terminator. */
  datatype Entry = Entry(data: seq<byte>, success: bool)

  /** The sender's and the receiver's operations. */
  datatype Op =
    | Push(data: seq<byte>)
    | Terminate(success: bool)
    | Collect
    | TakeBlock(count: nat)
    | TakeTail(count: nat)
  {
    predicate Sender() { Push? || Terminate? }
  }

  /** What a sender does. */
  type SenderOp = op: Op | op.Sender() witness Terminate(true)

  function Data(entries: seq<Entry>): seq<byte> {
    if entries == [] then [] else entries[0].data + Data(entries[1..])
  }

  /** The success flag of the last terminator among `entries`, if there is one. */
  function LastStop(entries: seq<Entry>): Option<bool> {
    if entries == [] then None
    else
      var last := entries[|entries| - 1];
      if last.data == [] then Some(last.success) else LastStop(entries[..|entries| - 1])
  }

  /** `inFlight` is pushed but not collected, oldest first; `pushed` and `taken` are histories. */
  datatype Queue = Queue(
    inFlight: seq<Entry>,
    received: seq<byte>,
    terminationPushed: bool,
    terminationCalled: bool,
    completionSuccess: bool,
    pushed: seq<byte>,
    taken: seq<byte>)
  {
    function Send(entry: Entry): Queue {
      this.(inFlight := inFlight + [entry], pushed := pushed + entry.data)
    }

    function Take(count: nat): Queue {
      if count <= |received| then
        this.(received := received[count..], taken := taken + received[..count])
      else
        this
    }

    function After(op: Op): Queue {
      match op
      case Push(data) => if terminationPushed then this else Send(Entry(data, false))
      case Terminate(success) =>
        if terminationPushed then this else Send(Entry([], success)).(terminationPushed := true)
      case Collect =>
        var stop := LastStop(inFlight);
        this.(
          inFlight := [],
          received := received + Data(inFlight),
          terminationCalled := terminationCalled || stop.Some?,
          completionSuccess := if stop.Some? then stop.value else completionSuccess)
      case TakeBlock(count) => Take(count)
      case TakeTail(count) => Take(if count <= |received| then count else |received|)
    }

    /** Nothing lost, duplicated or reordered. */
    ghost predicate Conserved() {
      pushed == taken + received + Data(inFlight)
    }
  }

  const EMPTY := Queue([], [], false, false, false, [], [])

  function Run(q: Queue, ops: seq<Op>): Queue {
    if ops == [] then q else Run(q, ops[..|ops| - 1]).After(ops[|ops| - 1])
  }

  /** The sender's operations of a run, in order. */
  function Sent(ops: seq<Op>): seq<Op> {
    if ops == [] then []
    else
      var last := ops[|ops| - 1];
      Sent(ops[..|ops| - 1]) + if last.Sender() then [last] else []
  }

  function FirstTerminate(ops: seq<Op>): Option<bool> {
    if ops == [] then None
    else if ops[0].Terminate? then Some(ops[0].success)
    else FirstTerminate(ops[1..])
  }

  /** Every effective push of the script carries data. */
  ghost predicate PushesCarryData(script: seq<Op>) {
    forall i :: 0 <= i < |script| && script[i] == Push([]) ==>
      exists j :: 0 <= j < i && script[j].Terminate?
  }

  // ---------------------------------------------------------------- lists of entries

  lemma {:induction false} DataConcat(a: seq<Entry>, b: seq<Entry>)
    ensures Data(a + b) == Data(a) + Data(b)
  {
    if a == [] {
      assert a + b == b;
    } else {
      assert (a + b)[1..] == a[1..] + b;
      DataConcat(a[1..], b);
    }
  }

  lemma DataOne(entry: Entry)
    ensures Data([entry]) == entry.data
  {
    assert Data([entry][1..]) == [];
  }

  lemma {:induction false} LastStopNone(entries: seq<Entry>)
    ensures LastStop(entries).None? <==> forall i :: 0 <= i < |entries| ==> entries[i].data != []
  {
    if entries != [] {
      LastStopNone(entries[..|entries| - 1]);
    }
  }

  /** A block is taken whole or not at all, a tail as far as it goes; either from the front. */
  lemma TakesFromFront(q: Queue, count: nat)
    ensures var block := q.After(TakeBlock(count));
      if count > |q.received| then block == q
      else block.taken == q.taken + q.received[..count] && block.received == q.received[count..]
    ensures var tail := q.After(TakeTail(count));
      if count <= |q.received| then tail == q.After(TakeBlock(count))
      else tail.taken == q.taken + q.received && tail.received == []
  {
  }

  // ---------------------------------------------------------------- conservation

  lemma SendConserves(q: Queue, entry: Entry)
    requires q.Conserved()
    ensures q.Send(entry).Conserved()
  {
    hide Data;
    var data := Data(q.inFlight);
    calc {
      q.Send(entry).pushed;
      q.taken + q.received + data + entry.data;
      q.taken + q.received + (data + entry.data);
      { DataConcat(q.inFlight, [entry]); DataOne(entry); }
      q.taken + q.received + Data(q.inFlight + [entry]);
    }
  }

  lemma TakeConserves(q: Queue, count: nat)
    requires q.Conserved()
    ensures q.Take(count).Conserved() && q.taken <= q.Take(count).taken
  {
    if count <= |q.received| {
      assert q.received == q.received[..count] + q.received[count..];
      assert q.taken + q.received == q.taken + q.received[..count] + q.received[count..];
    }
  }

  lemma StepConserves(q: Queue, op: Op)
    requires q.Conserved()
    ensures q.After(op).Conserved()
    ensures q.pushed <= q.After(op).pushed && q.taken <= q.After(op).taken
  {
    match op
    case Push(data) => SendConserves(q, Entry(data, false));
    case Terminate(success) => SendConserves(q, Entry([], success));
    case Collect =>
      assert q.taken + q.received + Data(q.inFlight) == q.taken + (q.received + Data(q.inFlight)) + Data([]);
    case TakeBlock(count) => TakeConserves(q, count);
    case TakeTail(count) => TakeConserves(q, if count <= |q.received| then count else |q.received|);
  }

  /** In every interleaving the bytes taken, then those received, then those in flight are
      exactly the bytes pushed. */
  lemma {:induction false} RunConserves(q: Queue, ops: seq<Op>)
    requires q.Conserved()
    ensures Run(q, ops).Conserved()
    ensures q.pushed <= Run(q, ops).pushed && q.taken <= Run(q, ops).taken
  {
    if ops != [] {
      RunConserves(q, ops[..|ops| - 1]);
      StepConserves(Run(q, ops[..|ops| - 1]), ops[|ops| - 1]);
    }
  }

  /** A sender's step commutes with every receiver's step but Collect. */
  lemma SenderCommutes(q: Queue, send: Op, receive: Op)
    requires send.Sender() && !receive.Sender() && receive != Collect
    ensures q.After(send).After(receive) == q.After(receive).After(send)
  {
  }

  lemma {:induction false} RunConcat(q: Queue, a: seq<Op>, b: seq<Op>)
    ensures Run(q, a + b) == Run(Run(q, a), b)
  {
    if b == [] {
      assert a + b == a;
    } else {
      assert (a + b)[..|a + b| - 1] == a + b[..|b| - 1];
      RunConcat(q, a, b[..|b| - 1]);
    }
  }

  ghost predicate OnlySends(ops: seq<Op>) {
    forall i :: 0 <= i < |ops| ==> ops[i].Sender()
  }

  lemma {:induction false} SendersCommute(q: Queue, sends: seq<Op>, receive: Op)
    requires OnlySends(sends) && !receive.Sender() && receive != Collect
    ensures Run(q, sends).After(receive) == Run(q.After(receive), sends)
  {
    hide Queue.After;
    if sends != [] {
      var before, send := sends[..|sends| - 1], sends[|sends| - 1];
      SendersCommute(q, before, receive);
      SenderCommutes(Run(q, before), send, receive);
    }
  }

  /** The same run with every sender's operation put off until just before the next Collect;
      `held` are those put off so far. */
  function PutOff(ops: seq<Op>, held: seq<Op>): seq<Op> {
    if ops == [] then held
    else if ops[0].Sender() then PutOff(ops[1..], held + [ops[0]])
    else if ops[0] == Collect then held + [Collect] + PutOff(ops[1..], [])
    else [ops[0]] + PutOff(ops[1..], held)
  }

  lemma RunOne(q: Queue, op: Op)
    ensures Run(q, [op]) == q.After(op)
  {
    assert [op][..0] == [] && Run(q, []) == q;
  }

  /** Every interleaving comes to the same as the one in which the sender only moves just before
      a Collect. */
  lemma {:induction false} InterleavingsAlike(q: Queue, ops: seq<Op>, held: seq<Op>)
    requires OnlySends(held)
    ensures Run(q, held + ops) == Run(q, PutOff(ops, held))
    decreases |ops|
  {
    hide Run, Queue.After;
    if ops == [] {
      assert held + ops == held;
    } else {
      var op, rest := ops[0], ops[1..];
      assert held + ops == held + [op] + rest;
      if op.Sender() {
        InterleavingsAlike(q, rest, held + [op]);
      } else if op == Collect {
        RunConcat(q, held + [op], rest);
        InterleavingsAlike(Run(q, held + [op]), rest, []);
        assert [] + rest == rest;
        RunConcat(q, held + [op], PutOff(rest, []));
      } else {
        RunConcat(q, held + [op], rest);
        RunConcat(q, held, [op]);
        RunOne(Run(q, held), op);
        SendersCommute(q, held, op);
        RunConcat(q.After(op), held, rest);
        InterleavingsAlike(q.After(op), rest, held);
        RunConcat(q, [op], PutOff(rest, held));
        RunOne(q, op);
      }
    }
  }

  /** PushRecord swaps the new record in and then writes the displaced head into it. A Collect
      between the two receives the new record alone. */
  function CollectedInGap(q: Queue, entry: Entry): Queue {
    q.(inFlight := [entry], pushed := q.pushed + entry.data).After(Collect)
  }

  /** Such a Collect loses nothing exactly when no data was displaced. */
  lemma CollectInGapIff(q: Queue, entry: Entry)
    requires q.Conserved()
    ensures CollectedInGap(q, entry).Conserved() <==> Data(q.inFlight) == []
  {
    DataOne(entry);
    var gap := CollectedInGap(q, entry);
    assert gap.taken + gap.received + Data(gap.inFlight) == q.taken + q.received + entry.data;
    if Data(q.inFlight) == [] {
      assert q.pushed == q.taken + q.received;
    } else {
      assert |q.pushed| > |q.taken + q.received|;
    }
  }

  // ---------------------------------------------------------------- end of stream

  /** What non-empty pushes keep true: the one empty entry is the terminator, it is last, and
      the receiver has seen it exactly when it has seen everything. */
  ghost predicate Orderly(q: Queue, success: Option<bool>) {
    && q.terminationPushed == success.Some?
    && (forall i :: 0 <= i < |q.inFlight| - 1 ==> q.inFlight[i].data != [])
    && (if q.terminationCalled then
          q.terminationPushed && q.inFlight == [] && q.completionSuccess == success.value
        else if q.terminationPushed then
          q.inFlight != [] && q.inFlight[|q.inFlight| - 1] == Entry([], success.value)
        else
          q.inFlight != [] ==> q.inFlight[|q.inFlight| - 1].data != [])
  }

  lemma StepOrderly(q: Queue, success: Option<bool>, op: Op)
    requires Orderly(q, success)
    requires op == Push([]) ==> q.terminationPushed
    ensures Orderly(q.After(op), if success.None? && op.Terminate? then Some(op.success) else success)
  {
    if op == Collect {
      LastStopNone(q.inFlight);
    }
  }

  lemma {:induction false} FirstTerminateConcat(a: seq<Op>, b: seq<Op>)
    ensures FirstTerminate(a + b) == if FirstTerminate(a).Some? then FirstTerminate(a) else FirstTerminate(b)
  {
    if a == [] {
      assert a + b == b;
    } else {
      assert (a + b)[1..] == a[1..] + b;
      FirstTerminateConcat(a[1..], b);
    }
  }

  lemma {:induction false} FirstTerminateNone(ops: seq<Op>)
    ensures FirstTerminate(ops).None? <==> forall i :: 0 <= i < |ops| ==> !ops[i].Terminate?
  {
    if ops != [] {
      FirstTerminateNone(ops[1..]);
    }
  }

  lemma FirstTerminateSnoc(sent: seq<Op>, op: Op)
    ensures FirstTerminate(sent + [op]) ==
      if FirstTerminate(sent).None? && op.Terminate? then Some(op.success) else FirstTerminate(sent)
  {
    FirstTerminateConcat(sent, [op]);
    assert FirstTerminate([op][1..]).None?;
  }

  lemma {:induction false} RunOrderly(ops: seq<Op>)
    requires PushesCarryData(Sent(ops))
    ensures Orderly(Run(EMPTY, ops), FirstTerminate(Sent(ops)))
  {
    if ops != [] {
      var before, op := ops[..|ops| - 1], ops[|ops| - 1];
      var sent := Sent(before);
      CarryDataPrefix(sent, Sent(ops));
      RunOrderly(before);
      if op.Sender() {
        assert Sent(ops) == sent + [op];
        FirstTerminateSnoc(sent, op);
        if op == Push([]) {
          assert Sent(ops)[|sent|] == op;
          FirstTerminateNone(sent);
        }
      } else {
        assert Sent(ops) == sent;
      }
      StepOrderly(Run(EMPTY, before), FirstTerminate(sent), op);
    }
  }

  /** After the terminator was seen, no operation changes how the stream ended. */
  lemma {:induction false} EndIsFinal(q: Queue, later: seq<Op>)
    requires q.terminationPushed && q.terminationCalled && q.inFlight == []
    ensures var r := Run(q, later);
      && r.terminationPushed && r.terminationCalled && r.inFlight == []
      && r.pushed == q.pushed && r.completionSuccess == q.completionSuccess
  {
    if later != [] {
      EndIsFinal(q, later[..|later| - 1]);
    }
  }

  /** Once the receiver has seen the terminator, what it took and still holds is all that was
      ever pushed; that stays so whatever is called next, and the completion flag is the first
      Terminate argument. */
  lemma EndOfStream(ops: seq<Op>, later: seq<Op>)
    requires PushesCarryData(Sent(ops))
    requires Run(EMPTY, ops).terminationCalled
    ensures var q := Run(EMPTY, ops + later);
      && q.terminationCalled
      && q.taken + q.received == q.pushed == Run(EMPTY, ops).pushed
      && Some(q.completionSuccess) == FirstTerminate(Sent(ops))
  {
    RunOrderly(ops);
    RunConcat(EMPTY, ops, later);
    EndIsFinal(Run(EMPTY, ops), later);
    RunConserves(EMPTY, ops + later);
  }

  /** All the data a sender pushes: that before its first Terminate. */
  function Offered(sends: seq<Op>): seq<byte> {
    if sends == [] || sends[0].Terminate? then []
    else (if sends[0].Push? then sends[0].data else []) + Offered(sends[1..])
  }

  lemma {:induction false} OfferedConcat(a: seq<Op>, b: seq<Op>)
    ensures Offered(a + b) == Offered(a) + if FirstTerminate(a).Some? then [] else Offered(b)
  {
    if a == [] {
      assert a + b == b;
    } else {
      assert (a + b)[1..] == a[1..] + b;
      OfferedConcat(a[1..], b);
    }
  }

  lemma OfferedOne(op: Op)
    ensures Offered([op]) == if op.Push? then op.data else []
  {
    assert Offered([op][1..]) == [];
  }

  /** In every interleaving the bytes pushed are those the sender offered so far. */
  lemma {:induction false} PushedIsOffered(ops: seq<Op>)
    ensures Run(EMPTY, ops).pushed == Offered(Sent(ops))
    ensures Run(EMPTY, ops).terminationPushed == FirstTerminate(Sent(ops)).Some?
  {
    if ops != [] {
      var before, op := ops[..|ops| - 1], ops[|ops| - 1];
      PushedIsOffered(before);
      if op.Sender() {
        OfferedConcat(Sent(before), [op]);
        OfferedOne(op);
        FirstTerminateSnoc(Sent(before), op);
        assert Run(EMPTY, before).pushed + [] == Run(EMPTY, before).pushed;
      } else {
        assert Sent(ops) == Sent(before);
      }
    }
  }

  /** What was taken is always the beginning of what the whole script offers. */
  lemma TakenIsOffered(ops: seq<Op>, script: seq<Op>)
    requires Sent(ops) <= script
    ensures Run(EMPTY, ops).pushed <= Offered(script)
    ensures Run(EMPTY, ops).taken <= Offered(script)
  {
    assert script == Sent(ops) + script[|Sent(ops)|..];
    OfferedConcat(Sent(ops), script[|Sent(ops)|..]);
    PushedIsOffered(ops);
    RunConserves(EMPTY, ops);
  }

  lemma CarryDataPrefix(sent: seq<Op>, script: seq<Op>)
    requires sent <= script && PushesCarryData(script)
    ensures PushesCarryData(sent)
  {
    forall i | 0 <= i < |sent| && sent[i] == Push([])
      ensures exists j :: 0 <= j < i && sent[j].Terminate?
    {
      assert script[i] == Push([]);
      var j :| 0 <= j < i && script[j].Terminate?;
      assert sent[j].Terminate?;
    }
  }

  /** Once the receiver has seen the terminator, what it took and still holds is all that the
      whole script offers, whatever the sender does later, and the completion flag is the
      script's. */
  lemma AllOffered(ops: seq<Op>, script: seq<Op>)
    requires Sent(ops) <= script && PushesCarryData(script) && Run(EMPTY, ops).terminationCalled
    ensures var q := Run(EMPTY, ops);
      && q.taken + q.received == Offered(script)
      && Some(q.completionSuccess) == FirstTerminate(script)
  {
    var rest := script[|Sent(ops)|..];
    CarryDataPrefix(Sent(ops), script);
    EndOfStream(ops, []);
    assert ops + [] == ops;
    assert script == Sent(ops) + rest;
    OfferedConcat(Sent(ops), rest);
    FirstTerminateConcat(Sent(ops), rest);
    PushedIsOffered(ops);
  }

  /** The receiver never sees a terminator that the sender did not send, in any interleaving of
      the script, exactly when no push before the script's Terminate is empty. */
  lemma NoEarlyEndIff(script: seq<Op>)
    requires forall i :: 0 <= i < |script| ==> script[i].Sender()
    ensures (forall ops :: Sent(ops) <= script && Run(EMPTY, ops).terminationCalled ==>
                             Run(EMPTY, ops).terminationPushed)
       <==> PushesCarryData(script)
  {
    if PushesCarryData(script) {
      forall ops | Sent(ops) <= script && Run(EMPTY, ops).terminationCalled
        ensures Run(EMPTY, ops).terminationPushed
      {
        RunOrderly(ops);
      }
    } else {
      var i :| 0 <= i < |script| && script[i] == Push([]) && forall j :: 0 <= j < i ==> !script[j].Terminate?;
      EarlyEnd(script, i);
    }
  }

  lemma {:induction false} SentAll(ops: seq<Op>)
    requires forall i :: 0 <= i < |ops| ==> ops[i].Sender()
    ensures Sent(ops) == ops
  {
    if ops != [] {
      SentAll(ops[..|ops| - 1]);
      assert ops == ops[..|ops| - 1] + [ops[|ops| - 1]];
    }
  }

  lemma {:induction false} NotTerminated(ops: seq<Op>)
    requires forall i :: 0 <= i < |ops| ==> ops[i].Push?
    ensures !Run(EMPTY, ops).terminationPushed
  {
    if ops != [] {
      NotTerminated(ops[..|ops| - 1]);
      assert ops[|ops| - 1].Push?;
    }
  }

  /** Collecting right after an empty push ends the stream early. */
  lemma EarlyEnd(script: seq<Op>, i: nat)
    requires i < |script| && script[i] == Push([])
    requires forall k :: 0 <= k < |script| ==> script[k].Sender()
    requires forall j :: 0 <= j < i ==> !script[j].Terminate?
    ensures var ops := script[..i + 1] + [Collect];
      && Sent(ops) <= script
      && Run(EMPTY, ops).terminationCalled
      && !Run(EMPTY, ops).terminationPushed
      && !Run(EMPTY, ops).completionSuccess
  {
    var sends := script[..i + 1];
    var ops := sends + [Collect];
    assert ops[..|ops| - 1] == sends;
    assert sends[..|sends| - 1] == script[..i];
    SentAll(sends);
    NotTerminated(script[..i]);
  }

  /** The synthesis thread pushes the whole audio content and terminates with success (job.cpp).
      The receiver never sees a failed completion exactly when that content is not empty. */
  lemma JobCompletionIff(content: seq<byte>)
    ensures (forall ops :: Sent(ops) <= [Push(content), Terminate(true)] && Run(EMPTY, ops).terminationCalled ==>
                             Run(EMPTY, ops).completionSuccess)
       <==> content != []
  {
    var script := [Push(content), Terminate(true)];
    if content != [] {
      forall ops | Sent(ops) <= script && Run(EMPTY, ops).terminationCalled
        ensures Run(EMPTY, ops).completionSuccess
      {
        RunOrderly(ops);
        var sent := Sent(ops);
        FirstTerminateNone(sent);
        assert sent == script[..|sent|];
        assert |sent| == 2;
        assert FirstTerminate(sent) == FirstTerminate(sent[1..]);
      }
    } else {
      EarlyEnd(script, 0);
    }
  }
}
