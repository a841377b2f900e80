/** The wake-up protocol that bytequeue.cpp:102-146, app_voxtts.c:264-272 and 402-415, and
    grpc_stt.cpp:340-348 and 440-454 share: senders insert an item and signal a pipe or
    eventfd; the receiver consumes the signal and then drains the items. */
module WakeUp {

  /** How the parties behave: `capacity` is what the pipe holds (a write to a full one is
      dropped), `readsAll` tells an eventfd, which one read resets, from a pipe, which gives up
      one byte; `insertsFirst` is the order the senders keep. */
  datatype Config = Config(capacity: nat, readsAll: bool, insertsFirst: bool)

  /** `between` counts the senders in the middle of their two steps. */
  datatype State = State(pending: nat, pipe: nat, between: nat, draining: bool)

  datatype Step = SenderStarts | SenderEnds | Consume | TakeAll | TakeOne | FoundEmpty

  function Signalled(c: Config, s: State): State {
    s.(pipe := if s.pipe < c.capacity then s.pipe + 1 else s.pipe)
  }

  predicate Enabled(s: State, step: Step) {
    match step
    case SenderStarts => true
    case SenderEnds => s.between > 0
    case Consume => !s.draining  // also when nothing is readable: the read does not block
    case TakeAll => s.draining
    case TakeOne => s.draining && s.pending > 0
    case FoundEmpty => s.draining && s.pending == 0
  }

  function After(c: Config, s: State, step: Step): State
    requires Enabled(s, step)
  {
    match step
    case SenderStarts =>
      var t := s.(between := s.between + 1);
      if c.insertsFirst then t.(pending := t.pending + 1) else Signalled(c, t)
    case SenderEnds =>
      var t := s.(between := s.between - 1);
      if c.insertsFirst then Signalled(c, t) else t.(pending := t.pending + 1)
    case Consume => s.(pipe := if c.readsAll || s.pipe == 0 then 0 else s.pipe - 1, draining := true)
    case TakeAll => s.(pending := 0, draining := false)
    case TakeOne => s.(pending := s.pending - 1)
    case FoundEmpty => s.(draining := false)
  }

  const IDLE := State(0, 0, 0, false)

  ghost predicate Reaches(c: Config, from: State, steps: seq<Step>, to: State)
    decreases steps
  {
    if steps == [] then to == from
    else Enabled(from, steps[0]) && Reaches(c, After(c, from, steps[0]), steps[1..], to)
  }

  ghost predicate Reachable(c: Config, s: State) {
    exists steps :: Reaches(c, IDLE, steps, s)
  }

  lemma {:induction false} PipeWithin(c: Config, from: State, steps: seq<Step>, to: State)
    requires from.pipe <= c.capacity && Reaches(c, from, steps, to)
    ensures to.pipe <= c.capacity
    decreases steps
  {
    if steps != [] {
      PipeWithin(c, After(c, from, steps[0]), steps[1..], to);
    }
  }

  /** The pipe never holds more than it can, a signal is dropped only if it is full, and a read of
      a pipe gives up one byte where a read of an eventfd gives up all. */
  lemma SignalsKept(c: Config, s: State)
    requires Reachable(c, s)
    ensures s.pipe <= c.capacity
    ensures Signalled(c, s).pipe == s.pipe <==> s.pipe == c.capacity
    ensures !s.draining ==> var read := After(c, s, Consume);
      read.draining && read.pending == s.pending &&
      (if c.readsAll then read.pipe == 0 else s.pipe > 0 ==> read.pipe + 1 == s.pipe)
  {
    var steps :| Reaches(c, IDLE, steps, s);
    PipeWithin(c, IDLE, steps, s);
  }

  /** An item that waits will be seen: the receiver is woken, or a party is in mid-operation. */
  predicate Noticed(s: State) {
    s.pending > 0 ==> s.pipe > 0 || s.between > 0 || s.draining
  }

  lemma {:induction false} StaysNoticed(c: Config, from: State, steps: seq<Step>, to: State)
    requires c.insertsFirst && c.capacity > 0 && Noticed(from) && Reaches(c, from, steps, to)
    ensures Noticed(to)
    decreases steps
  {
    if steps != [] {
      StaysNoticed(c, After(c, from, steps[0]), steps[1..], to);
    }
  }

  /** A sender that signals first can have its signal consumed before its item is there. */
  lemma LostWakeUp(c: Config) returns (steps: seq<Step>, to: State)
    requires !c.insertsFirst
    ensures steps == [SenderStarts, Consume, TakeAll, SenderEnds] && to == State(1, 0, 0, false)
    ensures Reaches(c, IDLE, steps, to) && !Noticed(to)
  {
    steps, to := [SenderStarts, Consume, TakeAll, SenderEnds], State(1, 0, 0, false);
    var s1 := After(c, IDLE, SenderStarts);
    var s2 := After(c, s1, Consume);
    var s3 := After(c, s2, TakeAll);
    var s4 := After(c, s3, SenderEnds);
    assert Reaches(c, s4, [], s4);
    assert Reaches(c, s3, [SenderEnds], s4) by { assert [SenderEnds][1..] == []; }
    assert Reaches(c, s2, [TakeAll, SenderEnds], s4) by { assert [TakeAll, SenderEnds][1..] == [SenderEnds]; }
    assert Reaches(c, s1, [Consume, TakeAll, SenderEnds], s4) by {
      assert [Consume, TakeAll, SenderEnds][1..] == [TakeAll, SenderEnds];
    }
    assert [SenderStarts, Consume, TakeAll, SenderEnds][1..] == [Consume, TakeAll, SenderEnds];
  }

  /** No wake-up is lost, in any interleaving of any number of senders with the receiver and
      whether it takes items all at once or one by one, exactly when senders insert first. */
  lemma NoLostWakeUpIff(c: Config)
    requires c.capacity > 0
    ensures (forall s :: Reachable(c, s) ==> Noticed(s)) <==> c.insertsFirst
  {
    if c.insertsFirst {
      forall s | Reachable(c, s)
        ensures Noticed(s)
      {
        var steps :| Reaches(c, IDLE, steps, s);
        StaysNoticed(c, IDLE, steps, s);
      }
    } else {
      var steps, s := LostWakeUp(c);
      assert Reachable(c, s);
    }
  }
}
