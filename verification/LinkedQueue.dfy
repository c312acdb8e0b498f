/**
  The singly linked queues of the program: nodes with a `next` pointer, a head, and a pointer to the
  last node so that appending takes one step. Elements are relinked from queue to queue, not copied.
  */
module LinkedQueue {

  class Node<T> {
    var value: T
    var next: Node?<T>

    constructor (value: T)
      ensures this.value == value && next == null
    {
      this.value, next := value, null;
    }
  }

  /** The node at a place, or null past the end and before the beginning. */
  function At<T>(nodes: seq<Node<T>>, i: int): Node?<T> {
    if 0 <= i < |nodes| then nodes[i] else null
  }

  class Queue<T> {
    var head: Node?<T>
    var last: Node?<T>
    ghost var nodes: seq<Node<T>>
    ghost var repr: set<Node<T>>
    ghost var contents: seq<T>

    /** The pointers run through `nodes`, each node once, and end with the last; `contents` is what
        the nodes hold. */
    ghost predicate Valid()
      reads this, repr
    {
      && (forall i :: 0 <= i < |nodes| ==> nodes[i] in repr)
      && (forall i, j :: 0 <= i < j < |nodes| ==> nodes[i] != nodes[j])
      && (forall i :: 0 <= i < |nodes| ==> nodes[i].next == At(nodes, i + 1))
      && head == At(nodes, 0) && last == At(nodes, |nodes| - 1)
      && |contents| == |nodes| && forall i :: 0 <= i < |nodes| ==> contents[i] == nodes[i].value
    }

    constructor ()
      ensures Valid() && contents == [] && repr == {}
    {
      head, last, nodes, repr, contents := null, null, [], {}, [];
    }

    /** Link a node behind the last one. */
    method Append(n: Node<T>)
      requires Valid() && n !in repr && n.next == null
      modifies this, last
      ensures Valid() && contents == old(contents) + [n.value] && repr == old(repr) + {n}
    {
      if last == null {
        head := n;
      } else {
        last.next := n;
      }
      last := n;
      nodes, repr, contents := nodes + [n], repr + {n}, contents + [n.value];
    }

    /** Unlink the first node. */
    method Pop() returns (n: Node<T>)
      requires Valid() && contents != []
      modifies this, head
      ensures Valid() && n in old(repr) && n.next == null && n.value == old(contents[0])
      ensures contents == old(contents)[1..] && repr == old(repr) - {n}
    {
      n := head;
      ghost var rest := nodes[1..];
      forall i | 0 <= i < |rest|
        ensures rest[i] != n && rest[i].next == At(rest, i + 1) && contents[1..][i] == rest[i].value
      {
        assert rest[i] == nodes[i + 1];
      }
      head := n.next;
      if head == null {
        last := null;
      }
      n.next := null;
      nodes, repr, contents := rest, repr - {n}, contents[1..];
    }

    /** Update the first element where it is. */
    method ReplaceHead(v: T)
      requires Valid() && contents != []
      modifies this`contents, head`value
      ensures Valid() && contents == [v] + old(contents)[1..]
    {
      head.value := v;
      contents := [v] + contents[1..];
    }

    /** Unlink everything. */
    method Clear()
      requires Valid()
      modifies this, repr
      ensures Valid() && contents == [] && repr <= old(repr)
    {
      while head != null
        invariant Valid() && repr <= old(repr)
        decreases |contents|
      {
        var _ := Pop();
      }
    }
  }
}
