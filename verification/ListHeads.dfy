/** The intrusive circular doubly linked list.

    A list is a cycle of nodes that starts at its head, a node like the others.  The ghost
    arguments name that cycle; what a method may write is stated field by field, so every
    other node, and all data, stays as it is.  The poison values that `list_del` stores are
    modelled by null, so that following a deleted node's links cannot verify. */
module ListHeads {
  import opened Sequences

  class Node {
    var next: Node?
    var prev: Node?
    /** Written once, before the node is linked. */
    const data: int

    constructor (data: int)
      ensures this.data == data && next == null && prev == null
    {
      this.data, next, prev := data, null, null;
    }
  }

  /** Following `next` visits c in order and comes back to its first node, and `prev` is
      the inverse; no node occurs twice. */
  ghost predicate Linked(c: seq<Node>)
    reads c
  {
    && c != []
    && (forall i, j | 0 <= i < j < |c| :: c[i] != c[j])
    && (forall i {:trigger c[i].next} | 0 <= i < |c| - 1 :: c[i].next == c[i + 1])
    && (forall i {:trigger c[i].prev} | 0 < i < |c| :: c[i].prev == c[i - 1])
    && c[|c| - 1].next == c[0] && c[0].prev == c[|c| - 1]
  }

  /** The list at `head` has exactly these nodes, in this order. */
  ghost predicate IsList(head: Node, nodes: seq<Node>)
    reads head, nodes
  {
    Linked([head] + nodes)
  }

  /** The index after i in a cycle of n. */
  function After(i: nat, n: nat): nat {
    if i + 1 < n then i + 1 else 0
  }

  /** The k-th node of a list, where one place beyond either end is its head. */
  function AtOrHead(head: Node, nodes: seq<Node>, k: int): Node {
    if 0 <= k < |nodes| then nodes[k] else head
  }

  lemma Neighbours(head: Node, nodes: seq<Node>, k: nat)
    requires IsList(head, nodes) && k < |nodes|
    ensures nodes[k].prev == AtOrHead(head, nodes, k - 1)
    ensures nodes[k].next == AtOrHead(head, nodes, k + 1)
    ensures nodes[k] != head
  {
    var c := [head] + nodes;
    assert c[k + 1] == nodes[k] && c[k] == AtOrHead(head, nodes, k - 1);
    assert c[After(k + 1, |c|)] == AtOrHead(head, nodes, k + 1);
  }

  lemma Ends(head: Node, nodes: seq<Node>)
    requires IsList(head, nodes)
    ensures head.next == AtOrHead(head, nodes, 0) && head.prev == AtOrHead(head, nodes, |nodes| - 1)
  {
    var c := [head] + nodes;
    assert c[After(0, |c|)] == AtOrHead(head, nodes, 0) && c[|nodes|] == AtOrHead(head, nodes, |nodes| - 1);
  }

  method InitListHead(ptr: Node)
    modifies ptr`next, ptr`prev
    ensures IsList(ptr, [])
  {
    ptr.next := ptr;
    ptr.prev := ptr;
  }

  /** A cycle broken between c[k] and the node after it, where `node` has come in. */
  lemma LinkedIn(c: seq<Node>, k: nat, node: Node)
    requires k < |c| && node !in c && forall i, j | 0 <= i < j < |c| :: c[i] != c[j]
    requires forall i {:trigger c[i].next} | 0 <= i < |c| && i != k :: c[i].next == c[After(i, |c|)]
    requires forall i {:trigger c[i].prev} | 0 < i < |c| && i != k + 1 :: c[i].prev == c[i - 1]
    requires k + 1 < |c| ==> c[0].prev == c[|c| - 1]
    requires c[k].next == node && node.next == c[After(k, |c|)]
    requires node.prev == c[k] && c[After(k, |c|)].prev == node
    ensures Linked(InsertAt(c, k + 1, node))
  {
    var d := InsertAt(c, k + 1, node);
    assert forall i | 0 <= i < |d| :: d[i] == if i <= k then c[i] else if i == k + 1 then node else c[i - 1];
  }

  /** `__list_add`: between two neighbours, which are one node in a cycle of one. */
  method ListAddBetween(node: Node, prev: Node, next: Node, ghost c: seq<Node>, ghost k: nat)
    requires Linked(c) && k < |c| && prev == c[k] && next == c[After(k, |c|)] && node !in c
    modifies next`prev, node`next, node`prev, prev`next
    ensures Linked(InsertAt(c, k + 1, node))
  {
    next.prev := node;
    node.next := next;
    node.prev := prev;
    prev.next := node;
    LinkedIn(c, k, node);
  }

  method ListAdd(node: Node, head: Node, ghost nodes: seq<Node>)
    requires IsList(head, nodes) && node != head && node !in nodes
    modifies node`next, node`prev, head`next, AtOrHead(head, nodes, 0)`prev
    ensures IsList(head, [node] + nodes)
  {
    ghost var c := [head] + nodes;
    ListAddBetween(node, head, head.next, c, 0);
    assert InsertAt(c, 1, node) == [head] + ([node] + nodes);
  }

  method ListAddTail(node: Node, head: Node, ghost nodes: seq<Node>)
    requires IsList(head, nodes) && node != head && node !in nodes
    modifies node`next, node`prev, head`prev, AtOrHead(head, nodes, |nodes| - 1)`next
    ensures IsList(head, nodes + [node])
  {
    ghost var c := [head] + nodes;
    ListAddBetween(node, head.prev, head, c, |nodes|);
    assert InsertAt(c, |c|, node) == [head] + (nodes + [node]);
  }

  /** `__list_del`: the neighbours of a node are joined; the node itself is not written. */
  method ListUnlink(prev: Node, next: Node, ghost c: seq<Node>, ghost k: nat)
    requires Linked(c) && 0 < k < |c| && prev == c[k - 1] && next == c[After(k, |c|)]
    modifies next`prev, prev`next
    ensures Linked(RemoveAt(c, k))
  {
    next.prev := prev;
    prev.next := next;
  }

  method ListDel(entry: Node, head: Node, ghost nodes: seq<Node>, ghost k: nat)
    requires IsList(head, nodes) && k < |nodes| && entry == nodes[k]
    modifies entry`next, entry`prev, AtOrHead(head, nodes, k - 1)`next, AtOrHead(head, nodes, k + 1)`prev
    ensures IsList(head, RemoveAt(nodes, k))
    ensures entry.next == null && entry.prev == null
  {
    ghost var c := [head] + nodes;
    Neighbours(head, nodes, k);
    ListUnlink(entry.prev, entry.next, c, k + 1);
    assert RemoveAt(c, k + 1) == [head] + RemoveAt(nodes, k);
    entry.next := null;
    entry.prev := null;
  }

  method ListDelInit(entry: Node, head: Node, ghost nodes: seq<Node>, ghost k: nat)
    requires IsList(head, nodes) && k < |nodes| && entry == nodes[k]
    modifies entry`next, entry`prev, AtOrHead(head, nodes, k - 1)`next, AtOrHead(head, nodes, k + 1)`prev
    ensures IsList(head, RemoveAt(nodes, k)) && IsList(entry, [])
  {
    ghost var c := [head] + nodes;
    Neighbours(head, nodes, k);
    ListUnlink(entry.prev, entry.next, c, k + 1);
    assert RemoveAt(c, k + 1) == [head] + RemoveAt(nodes, k);
    InitListHead(entry);
  }

  method ListEmpty(head: Node, ghost nodes: seq<Node>) returns (empty: bool)
    requires IsList(head, nodes)
    ensures empty <==> nodes == []
  {
    ghost var c := [head] + nodes;
    assert nodes != [] ==> c[1] == nodes[0] && c[0] != c[1];
    empty := head.next == head;
  }

  ghost predicate Disjoint(c: seq<Node>, d: seq<Node>) {
    forall i, j | 0 <= i < |c| && 0 <= j < |d| :: c[i] != d[j]
  }

  lemma RemovedIsOut(c: seq<Node>, k: nat)
    requires Linked(c) && k < |c|
    ensures c[k] !in RemoveAt(c, k)
  {
  }

  /** `list_move` between two lists: to the front of the other one. */
  method ListMove(entry: Node, head: Node, ghost from: Node, ghost src: seq<Node>, ghost k: nat, ghost dst: seq<Node>)
    requires IsList(from, src) && k < |src| && entry == src[k]
    requires IsList(head, dst) && Disjoint([from] + src, [head] + dst)
    modifies AtOrHead(from, src, k - 1)`next, AtOrHead(from, src, k + 1)`prev
    modifies entry`next, entry`prev, head`next, AtOrHead(head, dst, 0)`prev
    ensures IsList(from, RemoveAt(src, k)) && IsList(head, [entry] + dst)
  {
    ghost var c, d := [from] + src, [head] + dst;
    Neighbours(from, src, k);
    Ends(head, dst);
    assert c[k] == AtOrHead(from, src, k - 1) && c[k + 1] == entry;
    assert c[After(k + 1, |c|)] == AtOrHead(from, src, k + 1);
    RemovedIsOut(c, k + 1);
    ListUnlink(entry.prev, entry.next, c, k + 1);
    ghost var rest := RemoveAt(c, k + 1);
    assert Linked(rest) && Linked(d) && entry !in d;
    ListAdd(entry, head, dst);
    assert Linked(rest) && rest == [from] + RemoveAt(src, k);
  }

  /** `list_move_tail` between two lists: to the end of the other one. */
  method ListMoveTail(
    entry: Node, head: Node, ghost from: Node, ghost src: seq<Node>, ghost k: nat, ghost dst: seq<Node>)
    requires IsList(from, src) && k < |src| && entry == src[k]
    requires IsList(head, dst) && Disjoint([from] + src, [head] + dst)
    modifies AtOrHead(from, src, k - 1)`next, AtOrHead(from, src, k + 1)`prev
    modifies entry`next, entry`prev, head`prev, AtOrHead(head, dst, |dst| - 1)`next
    ensures IsList(from, RemoveAt(src, k)) && IsList(head, dst + [entry])
  {
    ghost var c, d := [from] + src, [head] + dst;
    Neighbours(from, src, k);
    Ends(head, dst);
    assert c[k] == AtOrHead(from, src, k - 1) && c[k + 1] == entry;
    assert c[After(k + 1, |c|)] == AtOrHead(from, src, k + 1);
    RemovedIsOut(c, k + 1);
    ListUnlink(entry.prev, entry.next, c, k + 1);
    ghost var rest := RemoveAt(c, k + 1);
    assert Linked(rest) && Linked(d) && entry !in d;
    ListAddTail(entry, head, dst);
    assert Linked(rest) && rest == [from] + RemoveAt(src, k);
  }

  /** `list_move` within one list. */
  method ListMoveFirst(entry: Node, head: Node, ghost nodes: seq<Node>, ghost k: nat)
    requires IsList(head, nodes) && k < |nodes| && entry == nodes[k]
    modifies AtOrHead(head, nodes, k - 1)`next, AtOrHead(head, nodes, k + 1)`prev
    modifies entry`next, entry`prev, head`next, AtOrHead(head, nodes, if k == 0 then 1 else 0)`prev
    ensures IsList(head, [entry] + RemoveAt(nodes, k))
  {
    ghost var c := [head] + nodes;
    Neighbours(head, nodes, k);
    RemovedIsOut(c, k + 1);
    ListUnlink(entry.prev, entry.next, c, k + 1);
    assert RemoveAt(c, k + 1) == [head] + RemoveAt(nodes, k);
    ListAdd(entry, head, RemoveAt(nodes, k));
  }

  /** `__list_splice`: the nodes of a list with at least one go in front of the other's. */
  method ListSpliceNodes(list: Node, head: Node, ghost ls: seq<Node>, ghost hs: seq<Node>)
    requires IsList(list, ls) && ls != [] && IsList(head, hs) && Disjoint([list] + ls, [head] + hs)
    modifies AtOrHead(list, ls, 0)`prev, AtOrHead(list, ls, |ls| - 1)`next, head`next, AtOrHead(head, hs, 0)`prev
    ensures IsList(head, ls + hs)
  {
    Ends(list, ls);
    Ends(head, hs);
    ghost var l, h, c := [list] + ls, [head] + hs, [head] + (ls + hs);
    var first := list.next;
    var last := list.prev;
    var at := head.next;
    first.prev := head;
    head.next := first;
    last.next := at;
    at.prev := last;
    assert forall i | 0 < i <= |ls| :: c[i] == l[i];
    assert forall i | |ls| < i < |c| :: c[i] == h[i - |ls|];
  }

  lemma HeadOutside(list: Node, ls: seq<Node>, head: Node, hs: seq<Node>)
    requires IsList(list, ls) && Disjoint([list] + ls, [head] + hs)
    ensures list !in [head] + (ls + hs)
  {
    var l, h := [list] + ls, [head] + hs;
    forall x | x in [head] + (ls + hs) ensures x != list {
      if x in ls {
        var i :| 0 <= i < |ls| && ls[i] == x;
        assert l[i + 1] == x && l[0] == list;
      } else {
        assert x in h;
        var j :| 0 <= j < |h| && h[j] == x;
        assert l[0] == list;
      }
    }
  }

  /** `list_splice_init`: the first list moves in front of the second and is left empty. */
  method ListSpliceInit(list: Node, head: Node, ghost ls: seq<Node>, ghost hs: seq<Node>)
    requires IsList(list, ls) && IsList(head, hs) && Disjoint([list] + ls, [head] + hs)
    modifies AtOrHead(list, ls, 0)`prev, AtOrHead(list, ls, |ls| - 1)`next, head`next, AtOrHead(head, hs, 0)`prev
    modifies list`next, list`prev
    ensures IsList(head, ls + hs) && IsList(list, [])
  {
    HeadOutside(list, ls, head, hs);
    var empty := ListEmpty(list, ls);
    if !empty {
      ListSpliceNodes(list, head, ls, hs);
      InitListHead(list);
    } else {
      assert ls + hs == hs;
    }
  }
}
