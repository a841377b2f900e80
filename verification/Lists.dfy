/** Singly linked lists in place: the records of a queue and the jobs of a layer. */
module Lists {

  class Node<T> {
    const item: T
    var next: Node?<T>

    constructor (item: T)
      ensures this.item == item && next == null
    {
      this.item, next := item, null;
    }
  }

  /** `head` starts a list of exactly the nodes of `chain`, in order. */
  ghost predicate Linked<T>(head: Node?<T>, chain: seq<Node<T>>)
    reads chain
  {
    && head == (if chain == [] then null else chain[0])
    && (forall i {:trigger chain[i].next} :: 0 <= i < |chain| ==>
          chain[i].next == if i + 1 < |chain| then chain[i + 1] else null)
  }

  ghost predicate Distinct<T>(chain: seq<T>) {
    forall i, j :: 0 <= i < j < |chain| ==> chain[i] != chain[j]
  }
}
