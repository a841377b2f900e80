/** A layer's linked list of commands waiting to be played (stream_layers.c:494-512, 781-786,
    1055-1088). */
module JobLists {
  import opened Fifo
  import opened Lists

  type Job = Node<string>

  ghost function Commands(chain: seq<Job>): (r: seq<string>)
    ensures |r| == |chain|
    ensures forall i :: 0 <= i < |chain| ==> r[i] == chain[i].item
  {
    seq(|chain|, i requires 0 <= i < |chain| => chain[i].item)
  }

  class JobList {
    var jobs: Node?<string>
    var lastJob: Node?<string>
    ghost var chain: seq<Job>

    ghost function Nodes(): set<Job>
      reads this`chain
    {
      set job | job in chain
    }

    ghost predicate Valid()
      reads this, Nodes()
    {
      Linked(jobs, chain) && Distinct(chain) && lastJob == if chain == [] then null else chain[|chain| - 1]
    }

    /** The waiting commands, next one first. */
    ghost function Waiting(): seq<string>
      reads this`chain
    {
      Commands(chain)
    }

    constructor ()
      ensures Valid() && Waiting() == []
    {
      jobs, lastJob, chain := null, null, [];
    }

    method Add(command: string)
      requires Valid()
      modifies this, Nodes()
      ensures Valid() && fresh(Nodes() - old(Nodes()))
      ensures Waiting() == old(Waiting()) + [command]
    {
      var job := new Node(command);
      assert lastJob != null ==> lastJob in chain;
      if lastJob != null {
        lastJob.next := job;
      } else {
        jobs := job;
      }
      lastJob := job;
      chain := chain + [job];
    }

    method Take() returns (command: Option<string>)
      requires Valid()
      modifies this, Nodes()
      ensures Valid() && Nodes() <= old(Nodes())
      ensures if old(Waiting()) == [] then command == None && Waiting() == []
              else command == Some(old(Waiting())[0]) && Waiting() == old(Waiting())[1..]
    {
      if jobs == null {
        return None;
      }
      var job := jobs;
      jobs := job.next;
      if jobs == null {
        lastJob := null;
      }
      job.next := null;
      chain := chain[1..];
      return Some(job.item);
    }

    /** stream_layer_drop_jobs and stream_layer_clear_jobs. */
    method Clear()
      requires Valid()
      modifies this, Nodes()
      ensures Valid() && Waiting() == [] && Nodes() <= old(Nodes())
    {
      var command := Take();
      while command.Some?
        invariant Valid() && Nodes() <= old(Nodes())
        invariant command.None? ==> Waiting() == []
        decreases |chain|, command.Some?
      {
        command := Take();
      }
    }

    method IsEmpty() returns (empty: bool)
      requires Valid()
      ensures empty == (Waiting() == [])
    {
      empty := jobs == null;
    }
  }
}
