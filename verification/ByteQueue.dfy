/** ByteQueue (bytequeue.cpp): one sender swaps records onto a shared LIFO, one receiver swaps
    the whole LIFO out, reverses it in place, appends it through a tail slot and extracts bytes
    across record boundaries. Every method is proved against its step on Fifo.Queue. */
module ByteQueues {
  import opened Audio
  import opened Fifo
  import opened Lists

  type Record = Node<Entry>

  ghost function Reversed(chain: seq<Record>): (r: seq<Record>)
    ensures |r| == |chain|
    ensures forall i :: 0 <= i < |chain| ==> r[i] == chain[|chain| - 1 - i]
  {
    seq(|chain|, i requires 0 <= i < |chain| => chain[|chain| - 1 - i])
  }

  ghost function Entries(chain: seq<Record>): (r: seq<Entry>)
    ensures |r| == |chain|
  {
    seq(|chain|, i requires 0 <= i < |chain| => chain[i].item)
  }

  lemma EntriesConcat(a: seq<Record>, b: seq<Record>)
    ensures Entries(a + b) == Entries(a) + Entries(b)
  {
  }

  lemma DataSnoc(chain: seq<Record>, k: nat)
    requires k < |chain|
    ensures Data(Entries(chain[..k + 1])) == Data(Entries(chain[..k])) + chain[k].item.data
  {
    assert chain[..k + 1] == chain[..k] + [chain[k]];
    EntriesConcat(chain[..k], [chain[k]]);
    DataConcat(Entries(chain[..k]), Entries([chain[k]]));
    assert Entries([chain[k]]) == [chain[k].item];
    DataOne(chain[k].item);
  }

  lemma StopSnoc(chain: seq<Record>, k: nat)
    requires k < |chain|
    ensures LastStop(Entries(chain[..k + 1])) ==
      if chain[k].item.data == [] then Some(chain[k].item.success) else LastStop(Entries(chain[..k]))
  {
    assert Entries(chain[..k + 1])[..k] == Entries(chain[..k]);
  }

  lemma NothingYet(chain: seq<Record>)
    ensures Data(Entries(chain[..0])) == [] && LastStop(Entries(chain[..0])) == None
  {
  }

  lemma DataFirst(chain: seq<Record>)
    requires chain != []
    ensures Data(Entries(chain)) == chain[0].item.data + Data(Entries(chain[1..]))
  {
    assert Entries(chain)[1..] == Entries(chain[1..]);
  }

  class ByteQueue {
    var exchangeHead: Node?<Entry>
    var receivedHead: Node?<Entry>
    // The record whose `next` is the tail slot; null stands for the slot &recieved_head.
    var receivedTail: Node?<Entry>
    var headOffset: nat
    var receivedByteCount: nat
    var terminationPushed: bool
    var terminationCalled: bool
    var completionSuccess: bool

    ghost var exchange: seq<Record>  // newest first
    ghost var received: seq<Record>  // oldest first
    ghost var pushed: seq<byte>
    ghost var taken: seq<byte>
    ghost var records: set<Record>

    ghost function Repr(): set<object>
      reads this`records
    {
      {this} + records
    }

    ghost predicate Shape()
      reads this`exchangeHead, this`receivedHead, this`receivedTail, this`exchange, this`received, this`records, records
    {
      && (forall i :: 0 <= i < |exchange| ==> exchange[i] in records)
      && (forall i :: 0 <= i < |received| ==> received[i] in records)
      && Linked(exchangeHead, exchange) && Linked(receivedHead, received)
      && Distinct(exchange) && Distinct(received)
      && (forall i, j :: 0 <= i < |exchange| && 0 <= j < |received| ==> exchange[i] != received[j])
      && receivedTail == if received == [] then null else received[|received| - 1]
    }

    ghost predicate Counts()
      reads this`headOffset, this`receivedByteCount, this`received
    {
      && headOffset <= |Data(Entries(received))|
      && receivedByteCount == |Data(Entries(received))| - headOffset
      && (received == [] ==> headOffset == 0)
      && (received != [] ==> headOffset == 0 || headOffset < |received[0].item.data|)
    }

    ghost predicate Valid()
      reads this`exchangeHead, this`receivedHead, this`receivedTail, this`exchange, this`received
      reads this`headOffset, this`receivedByteCount, this`records, records
      ensures Valid() ==> receivedByteCount == |Bytes()|
    {
      Shape() && Counts()
    }

    /** The received bytes not yet taken. */
    ghost function Bytes(): seq<byte>
      reads this`headOffset, this`received
    {
      var all := Data(Entries(received));
      if headOffset <= |all| then all[headOffset..] else []
    }

    /** The queue of bytes this object stands for. */
    ghost function Abs(): Queue
      reads this
    {
      Queue(Entries(Reversed(exchange)), Bytes(),
            terminationPushed, terminationCalled, completionSuccess, pushed, taken)
    }

    constructor ()
      ensures Valid() && fresh(Repr())
      ensures Abs() == EMPTY
    {
      exchangeHead, receivedHead, receivedTail := null, null, null;
      headOffset, receivedByteCount := 0, 0;
      terminationPushed, terminationCalled, completionSuccess := false, false, false;
      exchange, received, pushed, taken := [], [], [], [];
      records := {};
    }

    lemma EntriesPush(record: Record, chain: seq<Record>)
      ensures Entries(Reversed([record] + chain)) == Entries(Reversed(chain)) + [record.item]
    {
      assert Reversed([record] + chain) == Reversed(chain) + [record];
    }

    /** The swap and the write of the displaced head into `record` are one step. */
    method PushRecord(record: Record)
      requires Valid() && record !in records && record.next == null
      modifies this, record
      ensures Valid() && records == old(records) + {record}
      ensures Abs() == old(Abs()).Send(record.item)
    {
      hide Data, Entries;
      record.next := exchangeHead;
      exchangeHead := record;
      EntriesPush(record, exchange);
      exchange := [record] + exchange;
      pushed := pushed + record.item.data;
      records := records + {record};
    }

    method Push(data: seq<byte>)
      requires Valid()
      modifies Repr()
      ensures Valid() && fresh(Repr() - old(Repr()))
      ensures Abs() == old(Abs()).After(Fifo.Push(data))
    {
      if terminationPushed {
        return;
      }
      var record := new Node(Entry(data, false));
      PushRecord(record);
    }

    method Terminate(success: bool)
      requires Valid()
      modifies Repr()
      ensures Valid() && fresh(Repr() - old(Repr()))
      ensures Abs() == old(Abs()).After(Fifo.Terminate(success))
    {
      if terminationPushed {
        return;
      }
      hide Shape, Data, Entries;
      var record := new Node(Entry([], success));
      PushRecord(record);
      terminationPushed := true;
    }

    method BufferSize() returns (size: nat)
      requires Valid()
      ensures size == |Abs().received|
    {
      size := receivedByteCount;
    }

    method TerminationCalled() returns (called: bool)
      ensures called == Abs().terminationCalled
    {
      called := terminationCalled;
    }

    method CompletionSuccess() returns (success: bool)
      ensures success == Abs().completionSuccess
    {
      success := completionSuccess;
    }

    /** Reverses the list of `chain` in place: `prev` ends up heading the same records, oldest first. */
    method ReverseList(queue: Record, ghost chain: seq<Record>) returns (listHead: Record)
      requires Linked(queue, chain) && Distinct(chain)
      modifies chain
      ensures Linked(listHead, Reversed(chain))
    {
      var prev := queue;
      var rest := queue.next;
      prev.next := null;
      ghost var k := 1;
      while rest != null
        invariant 1 <= k <= |chain|
        invariant prev == chain[k - 1]
        invariant rest == if k < |chain| then chain[k] else null
        invariant forall i {:trigger chain[i].next} :: 0 <= i < k ==>
          chain[i].next == if i == 0 then null else chain[i - 1]
        invariant forall i {:trigger chain[i].next} :: k <= i < |chain| ==>
          chain[i].next == if i + 1 < |chain| then chain[i + 1] else null
        decreases |chain| - k
      {
        var next := rest.next;
        assert rest == chain[k] && forall i :: 0 <= i < |chain| && i != k ==> chain[i] != chain[k];
        rest.next := prev;
        prev := rest;
        rest := next;
        k := k + 1;
      }
      listHead := prev;
      forall i {:trigger Reversed(chain)[i].next} | 0 <= i < |chain|
        ensures Reversed(chain)[i].next == if i + 1 < |chain| then Reversed(chain)[i + 1] else null
      {
        assert Reversed(chain)[i] == chain[|chain| - 1 - i];
      }
    }

    /** Walks the newly received records: counts their bytes and notes terminators. */
    method CountBytes(listHead: Record, ghost chain: seq<Record>)
      requires Linked(listHead, chain)
      modifies this`receivedByteCount, this`terminationCalled, this`completionSuccess
      ensures receivedByteCount == old(receivedByteCount) + |Data(Entries(chain))|
      ensures var stop := LastStop(Entries(chain));
        && terminationCalled == (old(terminationCalled) || stop.Some?)
        && completionSuccess == if stop.Some? then stop.value else old(completionSuccess)
    {
      hide Data, Entries, LastStop;
      NothingYet(chain);
      var node: Node?<Entry> := listHead;
      ghost var k := 0;
      while node != null
        invariant k <= |chain|
        invariant node == if k < |chain| then chain[k] else null
        invariant receivedByteCount == old(receivedByteCount) + |Data(Entries(chain[..k]))|
        invariant terminationCalled == (old(terminationCalled) || LastStop(Entries(chain[..k])).Some?)
        invariant completionSuccess == var stop := LastStop(Entries(chain[..k]));
                                       if stop.Some? then stop.value else old(completionSuccess)
        decreases |chain| - k
      {
        if |node.item.data| == 0 {
          terminationCalled := true;
          completionSuccess := node.item.success;
        }
        receivedByteCount := receivedByteCount + |node.item.data|;
        DataSnoc(chain, k);
        StopSnoc(chain, k);
        node := node.next;
        k := k + 1;
      }
      assert chain[..k] == chain;
    }

    /** The queue's list and `appended` have no record in common. */
    ghost predicate Apart(appended: seq<Record>)
      reads this
    {
      && (forall i, j :: 0 <= i < |received| && 0 <= j < |appended| ==> received[i] != appended[j])
      && (forall i, j :: 0 <= i < |exchange| && 0 <= j < |appended| ==> exchange[i] != appended[j])
    }

    /** Links `appended` behind the received list through the tail slot. */
    method Append(listHead: Record, newTail: Record, ghost appended: seq<Record>)
      requires Shape() && exchange == [] && Apart(appended)
      requires Linked(listHead, appended) && Distinct(appended)
      requires appended != [] && newTail == appended[|appended| - 1]
      requires forall i :: 0 <= i < |appended| ==> appended[i] in records
      modifies this`receivedHead, this`receivedTail, this`received, receivedTail
      ensures Shape() && received == old(received) + appended
      ensures Linked(listHead, appended)
    {
      assert receivedTail != null ==> receivedTail in received;
      if receivedTail == null {
        receivedHead := listHead;
      } else {
        receivedTail.next := listHead;
      }
      receivedTail := newTail;
      received := received + appended;
    }

    lemma CountsAfterAppend(before: seq<Record>, appended: seq<Record>)
      requires received == before + appended && appended != []
      requires headOffset <= |Data(Entries(before))| && (before == [] ==> headOffset == 0)
      requires before != [] ==> headOffset == 0 || headOffset < |before[0].item.data|
      requires receivedByteCount == |Data(Entries(before))| - headOffset + |Data(Entries(appended))|
      ensures Counts()
      ensures Data(Entries(received))[headOffset..] == Data(Entries(before))[headOffset..] + Data(Entries(appended))
    {
      EntriesConcat(before, appended);
      DataConcat(Entries(before), Entries(appended));
    }

    /** Reverses a swapped-out LIFO; the received list does not notice. */
    method ReverseSwapped(queue: Record, ghost chain: seq<Record>) returns (listHead: Record)
      requires Shape() && exchange == [] && Apart(chain)
      requires chain != [] && Linked(queue, chain) && Distinct(chain)
      modifies chain
      ensures Shape() && Linked(listHead, Reversed(chain))
    {
      listHead := ReverseList(queue, chain);
      assert forall i :: 0 <= i < |received| ==> received[i] !in chain;
    }

    /** Reverses a swapped-out LIFO and links it behind the received list. */
    method AppendReversed(queue: Record, ghost chain: seq<Record>) returns (listHead: Record)
      requires Shape() && exchange == [] && Apart(chain)
      requires chain != [] && Linked(queue, chain) && Distinct(chain)
      requires forall i :: 0 <= i < |chain| ==> chain[i] in records
      modifies this`receivedHead, this`receivedTail, this`received, records
      ensures Shape() && received == old(received) + Reversed(chain)
      ensures Linked(listHead, Reversed(chain))
    {
      var newTail := queue;
      listHead := ReverseSwapped(queue, chain);
      Append(listHead, newTail, Reversed(chain));
    }

    /** Takes over a swapped-out LIFO: reverses it, appends it, counts it. */
    method StoreReverseList(queue: Record, ghost chain: seq<Record>)
      requires Valid() && exchange == [] && Apart(chain)
      requires chain != [] && Linked(queue, chain) && Distinct(chain)
      requires forall i :: 0 <= i < |chain| ==> chain[i] in records
      modifies Repr()
      ensures Valid() && records == old(records)
      ensures exchange == [] && exchangeHead == null && received == old(received) + Reversed(chain)
      ensures headOffset == old(headOffset) && terminationPushed == old(terminationPushed)
      ensures pushed == old(pushed) && taken == old(taken)
      ensures Bytes() == old(Bytes()) + Data(Entries(Reversed(chain)))
      ensures var stop := LastStop(Entries(Reversed(chain)));
        && terminationCalled == (old(terminationCalled) || stop.Some?)
        && completionSuccess == if stop.Some? then stop.value else old(completionSuccess)
    {
      hide Shape, Linked, Distinct, Data, Entries, LastStop;
      NoneInFlight();
      ghost var before := received;
      var listHead := AppendReversed(queue, chain);
      CountBytes(listHead, Reversed(chain));
      CountsAfterAppend(before, Reversed(chain));
    }

    lemma NoneInFlight()
      requires Shape() && exchange == []
      ensures exchangeHead == null
    {
    }

    /** The atomic exchange of the LIFO with an empty one. */
    method SwapOut() returns (swapped: Node?<Entry>, ghost chain: seq<Record>)
      requires Valid()
      modifies this`exchangeHead, this`exchange
      ensures Valid() && exchange == [] && Apart(chain)
      ensures exchangeHead == null && chain == old(exchange) && Linked(swapped, chain) && Distinct(chain)
      ensures forall i :: 0 <= i < |chain| ==> chain[i] in records
    {
      hide Data, Entries;
      swapped, chain := exchangeHead, exchange;
      exchangeHead, exchange := null, [];
    }

    method Collect() returns (any: bool)
      requires Valid()
      modifies Repr()
      ensures Valid() && records == old(records)
      ensures any == (old(Abs()).inFlight != [])
      ensures Abs() == old(Abs()).After(Fifo.Collect)
      ensures received == old(received) + Reversed(old(exchange)) && exchange == [] && exchangeHead == null
    {
      hide Valid, Apart, Distinct, Bytes, Data, LastStop, Entries;
      CollectNothing();
      var swapped, chain := SwapOut();
      if swapped == null {
        return false;
      }
      StoreReverseList(swapped, chain);
      return true;
    }

    /** The atomic exchange of a push; only `record` is reachable from the LIFO until it is linked. */
    method SwapIn(record: Record) returns (displaced: Node?<Entry>)
      requires Valid() && record !in records && record.next == null
      modifies this
      ensures Valid() && displaced == old(exchangeHead) && exchange == [record] && exchangeHead == record
      ensures received == old(received) && Bytes() == old(Bytes())
      ensures records == old(records) - (set r | r in old(exchange)) + {record}
    {
      hide Data, Entries;
      displaced := exchangeHead;
      exchangeHead := record;
      records := records - (set r | r in exchange) + {record};
      exchange, pushed := [record], pushed + record.item.data;
    }

    /** A push whose swap and whose write of the displaced head have a Collect between them: the
        displaced records end up behind the tail slot, newest first and not counted. */
    method PushAcrossCollect(record: Record)
      requires Valid() && record !in records && record.next == null
      modifies Repr(), record
      ensures Linked(receivedHead, old(received) + [record] + old(exchange))
      ensures receivedTail == record && exchangeHead == null
      ensures receivedByteCount == |old(Bytes())| + |record.item.data|
    {
      hide Valid, Bytes, Data, Entries, LastStop;
      ghost var behind, before := exchange, received;
      Behind();
      OneInFlight(record);
      var displaced := SwapIn(record);
      var any := Collect();
      ReceivedLast(record, before);
      LinkLate(record, displaced, behind);
    }

    lemma Behind()
      requires Valid()
      ensures Linked(exchangeHead, exchange) && Distinct(exchange)
      ensures forall i :: 0 <= i < |exchange| ==> exchange[i] in records
      ensures receivedByteCount == |Bytes()|
    {
      hide Data, Entries;
    }

    lemma ReceivedLast(record: Record, before: seq<Record>)
      requires Valid() && received == before + [record]
      ensures Linked(receivedHead, received) && Distinct(received) && receivedTail == record
      ensures receivedByteCount == |Bytes()|
    {
      hide Data, Entries;
    }

    lemma OneInFlight(record: Record)
      ensures Reversed([record]) == [record] && Data(Entries(Reversed([record]))) == record.item.data
    {
      assert Entries([record]) == [record.item];
      DataOne(record.item);
    }

    /** What taking all `count` received records does to a list left so: the head runs on into the
        displaced records, and the tail slot stays with a record that is no longer in the list. */
    method DropReceived(count: nat, ghost chain: seq<Record>, ghost behind: seq<Record>)
      requires Linked(receivedHead, chain + behind) && count == |chain| > 0 && behind != []
      requires receivedTail == chain[count - 1] && receivedTail !in behind
      modifies this`receivedHead, this`headOffset
      ensures Linked(receivedHead, behind) && receivedTail == chain[count - 1] && receivedTail !in behind
    {
      for i := 0 to count
        invariant receivedHead == (chain + behind)[i] && receivedTail == old(receivedTail)
      {
        receivedHead := receivedHead.next;
        headOffset := 0;
        assert receivedHead != null;  // which alone would reset the tail slot
      }
      assert forall i :: 0 <= i < |behind| ==> behind[i] == (chain + behind)[count + i];
    }

    /** So what is appended next never joins the list. */
    method AppendDetached(listHead: Record, newTail: Record, ghost behind: seq<Record>)
      requires Linked(receivedHead, behind) && receivedTail != null && receivedTail !in behind
      modifies this`receivedTail, receivedTail`next
      ensures Linked(receivedHead, behind) && receivedTail == newTail
    {
      receivedTail.next := listHead;
      receivedTail := newTail;
    }

    /** The write of the displaced head, after the record itself was received. */
    method LinkLate(record: Record, displaced: Node?<Entry>, ghost behind: seq<Record>)
      requires received != [] && record == received[|received| - 1]
      requires Linked(receivedHead, received) && Distinct(received)
      requires Linked(displaced, behind) && record !in behind
      modifies record`next
      ensures Linked(receivedHead, received + behind)
    {
      record.next := displaced;
    }

    lemma CollectNothing()
      ensures Entries(Reversed([])) == [] && Data([]) == [] && LastStop([]) == None
      ensures received + Reversed([]) == received
    {
    }

    lemma WantsHead()
      requires Valid() && Bytes() != []
      ensures received != []
    {
    }

    lemma HeadRecord()
      requires Valid() && received != []
      ensures receivedHead == received[0]
      ensures Bytes() == received[0].item.data[headOffset..] + Data(Entries(received[1..]))
      ensures headOffset <= |received[0].item.data| && receivedByteCount == |Bytes()|
    {
      DataFirst(received);
    }

    /** Takes the used-up head record off the received list. */
    method DropHead()
      requires Shape() && received != []
      modifies this`receivedHead, this`receivedTail, this`received, this`headOffset
      ensures Shape() && received == old(received)[1..] && headOffset == 0
    {
      receivedHead := receivedHead.next;
      headOffset := 0;
      received := received[1..];
      if receivedHead == null {
        receivedTail := null;
      }
    }

    /** Counts the rest of the head record as used and drops the record. */
    method DropRest(count: nat)
      requires Valid() && received != [] && count == |received[0].item.data| - headOffset
      modifies this`receivedHead, this`receivedTail, this`received, this`headOffset, this`receivedByteCount
      ensures Valid() && |received| == |old(received)| - 1
      ensures count <= |old(Bytes())| && Bytes() == old(Bytes())[count..]
    {
      hide Shape, Data, Entries;
      HeadRecord();
      receivedByteCount := receivedByteCount - count;
      DropHead();
    }

    /** Copies all that is left of the head record and drops the record. */
    method UseUpHead(data: array<byte>, at: nat) returns (copied: nat)
      requires Valid() && received != [] && at + |received[0].item.data| - headOffset <= data.Length
      modifies this`receivedHead, this`receivedTail, this`received, this`headOffset, this`receivedByteCount, data
      ensures Valid() && |received| == |old(received)| - 1
      ensures copied <= |old(Bytes())| && copied == |old(received[0].item.data)| - old(headOffset)
      ensures Bytes() == old(Bytes())[copied..]
      ensures data[..] == old(data[..at]) + old(Bytes())[..copied] + old(data[at + copied..])
    {
      hide Valid, Bytes, Data, Entries;
      HeadRecord();
      copied := |receivedHead.item.data| - headOffset;
      assert Bytes()[..copied] == receivedHead.item.data[headOffset..];
      Memcpy(data, at, receivedHead.item.data[headOffset..]);
      DropRest(copied);
    }

    /** Copies part of the head record. */
    method UseHead(data: array<byte>, at: nat, count: nat)
      requires Valid() && received != [] && headOffset + count < |received[0].item.data| && at + count <= data.Length
      modifies this`headOffset, this`receivedByteCount, data
      ensures Valid() && count <= |old(Bytes())| && Bytes() == old(Bytes())[count..]
      ensures data[..] == old(data[..at]) + old(Bytes())[..count] + old(data[at + count..])
    {
      hide Shape, Data, Entries;
      HeadRecord();
      assert Bytes()[..count] == receivedHead.item.data[headOffset..headOffset + count];
      Memcpy(data, at, receivedHead.item.data[headOffset..headOffset + count]);
      headOffset := headOffset + count;
      receivedByteCount := receivedByteCount - count;
    }

    /** One pass of the extraction loop: all of the head record, or as much of it as is wanted. */
    method ExtractFromHead(data: array<byte>, at: nat, writeLeft: nat) returns (copied: nat)
      requires Valid() && 0 < writeLeft <= |Bytes()| && at + writeLeft <= data.Length
      modifies this`receivedHead, this`receivedTail, this`received, this`headOffset, this`receivedByteCount, data
      ensures Valid() && copied <= writeLeft
      ensures copied == writeLeft || |received| < |old(received)|
      ensures Bytes() == old(Bytes())[copied..]
      ensures data[..] == old(data[..at]) + old(Bytes())[..copied] + old(data[at + copied..])
    {
      hide Valid, Bytes, Data, Entries;
      WantsHead();
      HeadRecord();
      var leftAtRecord := |receivedHead.item.data| - headOffset;
      if writeLeft >= leftAtRecord {
        copied := UseUpHead(data, at);
      } else {
        UseHead(data, at, writeLeft);
        copied := writeLeft;
      }
    }

    method ExtractBytes(count: nat, data: array<byte>)
      requires Valid() && count <= |Abs().received| && count <= data.Length
      modifies this, data
      ensures Valid() && records == old(records)
      ensures CopiedTo(data[..], old(data[..]), old(Abs()).received, count)
      ensures Abs() == old(Abs()).Take(count)
    {
      hide Valid, Bytes, Data, Entries, Reversed, CopiedTo;
      ghost var bytes, start := Bytes(), data[..];
      CopyNone(data[..], bytes);
      var writeLeft: nat := count;
      var at: nat := 0;
      while writeLeft > 0
        invariant Valid() && records == old(records) && exchange == old(exchange)
        invariant terminationPushed == old(terminationPushed) && terminationCalled == old(terminationCalled)
        invariant completionSuccess == old(completionSuccess) && pushed == old(pushed) && taken == old(taken)
        invariant at + writeLeft == count <= |bytes| && Bytes() == bytes[at..]
        invariant CopiedTo(data[..], start, bytes, at)
        decreases writeLeft > 0, |received|, writeLeft
      {
        ghost var before := data[..];
        var copied := ExtractFromHead(data, at, writeLeft);
        CopyMore(start, before, data[..], bytes, at, copied);
        at := at + copied;
        writeLeft := writeLeft - copied;
      }
      taken := taken + bytes[..count];
    }

    method TakeBlock(count: nat, data: array<byte>) returns (ok: bool)
      requires Valid() && count <= data.Length
      modifies this, data
      ensures Valid() && records == old(records)
      ensures ok == (count <= |old(Abs()).received|)
      ensures if ok then CopiedTo(data[..], old(data[..]), old(Abs()).received, count) else data[..] == old(data[..])
      ensures Abs() == old(Abs()).After(Fifo.TakeBlock(count))
    {
      hide Valid, Data, Entries, Queue.After;
      TakesFront(Abs(), count);
      if count > receivedByteCount {
        return false;
      }
      ExtractBytes(count, data);
      return true;
    }

    method TakeTail(count: nat, data: array<byte>) returns (written: nat)
      requires Valid() && count <= data.Length
      modifies this, data
      ensures Valid() && records == old(records)
      ensures written == if count <= |old(Abs()).received| then count else |old(Abs()).received|
      ensures CopiedTo(data[..], old(data[..]), old(Abs()).received, written)
      ensures Abs() == old(Abs()).After(Fifo.TakeTail(count))
    {
      hide Valid, Data, Entries, Queue.After;
      TakesFront(Abs(), count);
      written := if count <= receivedByteCount then count else receivedByteCount;
      ExtractBytes(written, data);
    }
  }

  lemma TakesFront(q: Queue, count: nat)
    ensures q.After(Fifo.TakeBlock(count)) == q.Take(count)
    ensures q.After(Fifo.TakeTail(count)) == q.Take(if count <= |q.received| then count else |q.received|)
  {
  }

  /** The first `at` of `bytes` have been copied over the front of `start`. */
  ghost predicate CopiedTo(data: seq<byte>, start: seq<byte>, bytes: seq<byte>, at: nat) {
    at <= |bytes| && at <= |start| && data == bytes[..at] + start[at..]
  }

  lemma CopyNone(start: seq<byte>, bytes: seq<byte>)
    ensures CopiedTo(start, start, bytes, 0)
  {
  }

  lemma CopiedAll(data: seq<byte>, start: seq<byte>, bytes: seq<byte>)
    requires |data| == |start| && CopiedTo(data, start, bytes, |data|)
    ensures data == bytes[..|data|]
  {
  }

  lemma CopyMore(start: seq<byte>, before: seq<byte>, after: seq<byte>, bytes: seq<byte>, at: nat, n: nat)
    requires at + n <= |bytes| && at + n <= |start| && CopiedTo(before, start, bytes, at)
    requires after == before[..at] + bytes[at..][..n] + before[at + n..]
    ensures CopiedTo(after, start, bytes, at + n)
    ensures bytes[at..][n..] == bytes[at + n..]
  {
  }

  method Memcpy(dest: array<byte>, at: nat, source: seq<byte>)
    requires at + |source| <= dest.Length
    modifies dest
    ensures dest[..] == old(dest[..at]) + source + old(dest[at + |source|..])
  {
    for i := 0 to |source|
      invariant forall j :: 0 <= j < dest.Length ==>
        dest[j] == if at <= j < at + i then source[j - at] else old(dest[j])
    {
      dest[at + i] := source[i];
    }
  }
}
