/** A doubly linked list of integers that grows by head insertion, with a
    minimal forward iterator (prefix ++, !=, *, and an unchecked + offset).
    The heap structure is tied to an abstract view by two ghost fields of the
    list: `nodes`, the chain in order from the head, and `Contents`, the
    values stored in those nodes. */
module RangeBasedFor {

  /** One cell of the chain: a value and its two neighbour links. */
  class Node {
    var next: Node?
    var prev: Node?
    var value: int

    /** A new cell holds `val` and is linked to nothing. */
    constructor (val: int)
      ensures next == null && prev == null && value == val
    {
      next := null;
      prev := null;
      value := val;
    }
  }

  class DLL {
    var head: Node?
    // `size_t` in the source; a count of nodes, so it never wraps here.
    var size: nat

    // public view of the list:
    ghost var nodes: seq<Node>   // the chain, head first
    ghost var Contents: seq<int> // the values along the chain
    ghost var Repr: set<Node>    // the nodes the list owns

    /** The node at position `k` of the chain, or null one past the end. */
    ghost function NodeAt(k: nat): Node?
      reads this
      requires k <= |nodes|
    {
      if k < |nodes| then nodes[k] else null
    }

    /** The list invariant: the list owns every node of the chain, `size`
        counts the chain, `head` starts it, each `next` goes one step along it
        and the last one is null, each `prev` goes one step back and the
        head's is null, and no node occurs twice (so the chain has no
        cycle). */
    ghost predicate Valid()
      reads this, Repr
    {
      (forall i :: 0 <= i < |nodes| ==> nodes[i] in Repr) &&
      size == |nodes| == |Contents| &&
      head == NodeAt(0) &&
      (forall i :: 0 <= i < |nodes| ==> nodes[i].value == Contents[i]) &&
      (nodes != [] ==> nodes[0].prev == null && nodes[|nodes| - 1].next == null) &&
      (forall i, j :: 0 <= i && j == i + 1 && j < |nodes| ==>
         nodes[i].next == nodes[j] && nodes[j].prev == nodes[i]) &&
      (forall i, j :: 0 <= i < j < |nodes| ==> nodes[i] != nodes[j])
    }

    /** The node reached from `n` by following `next` `m` times (stopping at
        null): the pointer-chasing view of the chain, independent of `nodes`. */
    ghost function Follow(n: Node?, m: nat): Node?
      reads this, Repr
      requires Valid()
      requires n == null || n in nodes
      decreases m
    {
      if m == 0 || n == null then n
      else
        var i :| 0 <= i < |nodes| && nodes[i] == n;
        NextIsNodeAt(i);
        Follow(n.next, m - 1)
    }

    /** In a valid list the `next` of the node at `i` is the node at `i + 1`. */
    lemma NextIsNodeAt(i: nat)
      requires Valid() && i < |nodes|
      ensures nodes[i].next == NodeAt(i + 1)
    {
    }

    /** A new list is empty. */
    constructor ()
      ensures Valid() && nodes == [] && Contents == [] && Repr == {}
      ensures head == null && size == 0
    {
      Repr := {};
      head := null;
      size := 0;
      nodes := [];
      Contents := [];
    }

    /** An iterator at the head of the list (the end iterator when empty). */
    method Begin() returns (it: DLLIterator)
      requires Valid()
      ensures fresh(it) && it.curr == head && it.At(this, 0)
    {
      it := new DLLIterator(head);
    }

    /** The end iterator: it points at no node, whatever the list holds. */
    method End() returns (it: DLLIterator)
      requires Valid()
      ensures fresh(it) && it.curr == null && it.At(this, |nodes|)
    {
      it := new DLLIterator(null);
    }

    /** Puts a new node holding `val` in front of the chain. Only the list and
        the old head (its `prev`) are written; the rest of the chain is as it
        was. */
    method InsertAtHead(val: int)
      requires Valid()
      modifies this, head
      ensures Valid() && Repr == old(Repr) + {head}
      ensures fresh(head) && nodes == [head] + old(nodes)
      ensures Contents == [val] + old(Contents)
      ensures size == old(size) + 1
      ensures head.prev == null && head.next == old(head)
      ensures old(head) != null ==> old(head).prev == head
    {
      var newNode := new Node(val);
      newNode.next := head;
      if head != null {
        head.prev := newNode;
      }
      head := newNode;
      size := size + 1;
      nodes := [newNode] + nodes;
      Repr := Repr + {newNode};
      Contents := [val] + Contents;
    }

    /** The destructor: walks the chain from the head, reading each node's
        `next` before letting go of the node, then clears `head`. `freed` is
        the order in which nodes are let go: every node of the chain, once,
        head first. */
    method Destroy() returns (ghost freed: seq<Node>)
      requires Valid()
      modifies this
      ensures head == null && size == old(size)
      ensures freed == old(nodes) && |freed| == size
      ensures forall i, j :: 0 <= i < j < |freed| ==> freed[i] != freed[j]
    {
      ghost var chain := nodes;
      var current := head;
      ghost var k := 0;
      freed := [];
      while current != null
        invariant k <= |chain| && freed == chain[..k]
        invariant current == if k < |chain| then chain[k] else null
        decreases |chain| - k
      {
        var next := current.next;
        freed := freed + [current];
        current := next;
        k := k + 1;
      }
      head := null;
    }
  }

  /** Following `next` `m` times from the node at position `k` lands on the
      node at position `k + m`: pointer chasing and the ghost chain agree. */
  lemma {:induction false} StepsReach(l: DLL, k: nat, m: nat)
    requires l.Valid() && k + m <= |l.nodes|
    ensures l.Follow(l.NodeAt(k), m) == l.NodeAt(k + m)
    decreases m
  {
    if m != 0 {
      StepsReach(l, k + 1, m - 1);
    }
  }

  /** From the head, `end()` is reached after exactly `size` steps and not
      before. */
  lemma EndAfterSize(l: DLL)
    requires l.Valid()
    ensures l.Follow(l.head, l.size) == null
    ensures forall m :: 0 <= m < l.size ==> l.Follow(l.head, m) != null
  {
    StepsReach(l, 0, l.size);
    forall m | 0 <= m < l.size
      ensures l.Follow(l.head, m) != null
    {
      StepsReach(l, 0, m);
    }
  }

  /** Iterator over a DLL: a non-owning pointer to the current node, null at
      the end. */
  class DLLIterator {
    var curr: Node?

    constructor (head: Node?)
      ensures curr == head
    {
      curr := head;
    }

    /** The iterator stands at position `k` of list `l` (null when `k` is
        the length of the chain). */
    ghost predicate At(l: DLL, k: nat)
      reads this, l
    {
      k <= |l.nodes| && curr == l.NodeAt(k)
    }

    /** Prefix ++: one step along `next`. Dereferences `curr`, so the
        iterator must not be at the end. */
    method Next(ghost l: DLL, ghost k: nat) returns (self: DLLIterator)
      requires l.Valid() && At(l, k) && k < |l.nodes|
      modifies this
      ensures self == this && curr == old(curr.next)
      ensures l.Valid() && At(l, k + 1)
    {
      curr := curr.next;
      self := this;
    }

    /** !=: identity of the nodes pointed at. For two iterators over one list
        this is exactly "at different positions". Only comparisons of
        iterators over the same list are specified; the pointer comparison
        itself works on any two iterators. */
    function NotEqual(itr: DLLIterator, ghost l: DLL, ghost k: nat, ghost j: nat): (r: bool)
      reads this, itr, l, l.Repr
      requires l.Valid() && At(l, k) && itr.At(l, j)
      ensures r <==> k != j
    {
      itr.curr != curr
    }

    /** Unary *: the value at the current node, which is the list's element at
        the iterator's position. */
    function Deref(ghost l: DLL, ghost k: nat): (v: int)
      reads this, l, l.Repr
      requires l.Valid() && At(l, k) && k < |l.nodes|
      ensures v == l.Contents[k]
    {
      curr.value
    }

    /** + offset: steps this same iterator `offset` times and returns it.
        There is no bounds check, so `offset` may not exceed what is left. */
    method Plus(offset: nat, ghost l: DLL, ghost k: nat) returns (self: DLLIterator)
      requires l.Valid() && At(l, k) && k + offset <= |l.nodes|
      modifies this
      ensures self == this && At(l, k + offset)
      ensures curr == l.Follow(old(curr), offset)
    {
      for i := 0 to offset
        invariant At(l, k + i)
      {
        curr := curr.next;
      }
      StepsReach(l, k, offset);
      self := this;
    }
  }

  /** The iterator loop of the demo driver: from `begin()`, dereference and
      step until the iterator equals `end()`. It visits exactly the list's
      contents, in chain order, in `size` steps. */
  method Traverse(l: DLL) returns (visited: seq<int>, steps: nat)
    requires l.Valid()
    ensures visited == l.Contents && steps == l.size
  {
    var iter := l.Begin();
    var stop := l.End();
    visited := [];
    steps := 0;
    while iter.NotEqual(stop, l, steps, |l.nodes|)
      invariant l.Valid()
      invariant fresh(iter) && iter != stop && stop.At(l, |l.nodes|)
      invariant steps <= |l.nodes| && iter.At(l, steps)
      invariant visited == l.Contents[..steps]
      decreases |l.nodes| - steps
    {
      var v := iter.Deref(l, steps);
      assert l.Contents[..steps + 1] == l.Contents[..steps] + [v];
      visited := visited + [v];
      var _ := iter.Next(l, steps);
      steps := steps + 1;
    }
  }

  /** The list the demo driver builds: 6, 5, 4, 3, 2, 1 inserted at the head
      in that order. */
  method BuildDemoList() returns (dll: DLL)
    ensures fresh(dll) && dll.Valid() && dll.size == 6
    ensures dll.Contents == [1, 2, 3, 4, 5, 6]
  {
    dll := new DLL();
    dll.InsertAtHead(6);
    dll.InsertAtHead(5);
    dll.InsertAtHead(4);
    dll.InsertAtHead(3);
    dll.InsertAtHead(2);
    dll.InsertAtHead(1);
  }

  /** The demo driver: walk the demo list from `begin()` to `end()`, then read
      the first element and, after `begin() + 2`, the third. */
  method IterationDemo() returns (visited: seq<int>, first: int, third: int)
    ensures visited == [1, 2, 3, 4, 5, 6]
    ensures first == 1 && third == 3
  {
    var dll := BuildDemoList();
    var steps;
    visited, steps := Traverse(dll);
    var iter := dll.Begin();
    first := iter.Deref(dll, 0);
    iter := iter.Plus(2, dll, 0);
    third := iter.Deref(dll, 2);
  }
}
