/** The integer list module: a linked list whose nodes are allocated on `add`, and deleted
    and freed while the list is being walked on `remove` and `cleanup`.  Each operation
    runs under the module's one lock, so it is a method run alone. */
module ModLists {
  import opened ListHeads
  import opened Sequences

  datatype Command = Add(num: int) | Remove(num: int) | Cleanup | Unknown

  /** The elements different from num, in order. */
  function Without(s: seq<int>, num: int): seq<int> {
    if s == [] then []
    else Without(s[..|s| - 1], num) + if s[|s| - 1] == num then [] else [s[|s| - 1]]
  }

  /** What a command does to the elements. */
  function Obey(s: seq<int>, c: Command): seq<int> {
    match c {
      case Add(num) => s + [num]
      case Remove(num) => Without(s, num)
      case Cleanup => []
      case Unknown => s
    }
  }

  ghost function Data(nodes: seq<Node>): (s: seq<int>)
    ensures |s| == |nodes|
    ensures forall i | 0 <= i < |nodes| :: s[i] == nodes[i].data
  {
    if nodes == [] then [] else Data(nodes[..|nodes| - 1]) + [nodes[|nodes| - 1].data]
  }

  class ModList {
    const head: Node
    ghost var nodes: seq<Node>
    /** The nodes ever in the list, and those of them given back to the allocator. */
    ghost var cells: set<Node>
    ghost var freed: set<Node>

    ghost predicate Valid()
      reads this, head, cells, nodes
    {
      && IsList(head, nodes)
      && head !in cells && freed <= cells
      && forall k | 0 <= k < |nodes| :: nodes[k] in cells && nodes[k] !in freed
    }

    ghost function Elements(): seq<int>
      reads `nodes
    {
      Data(nodes)
    }

    constructor ()
      ensures Valid() && Elements() == [] && freed == {}
      ensures fresh(head)
    {
      var h := new Node(0);
      head := h;
      nodes, cells, freed := [], {}, {};
      new;
      InitListHead(h);
    }

    /** `vfree`: nothing is freed twice. */
    method Vfree(n: Node)
      requires n !in freed
      modifies `freed
      ensures freed == old(freed) + {n}
    {
      freed := freed + {n};
    }

    method AddTail(num: int)
      requires Valid()
      modifies `nodes, `cells, head, cells
      ensures Valid() && Elements() == old(Elements()) + [num] && freed == old(freed) && fresh(cells - old(cells))
    {
      var nodo := new Node(num);
      Link(nodo);
    }

    method Link(nodo: Node)
      requires Valid() && nodo !in cells && nodo != head
      modifies `nodes, `cells, head, cells, nodo
      ensures Valid() && cells == old(cells) + {nodo} && nodes == old(nodes) + [nodo]
      ensures Elements() == old(Elements()) + [nodo.data]
    {
      assert nodo !in nodes && AtOrHead(head, nodes, |nodes| - 1) in cells + {head};
      ListAddTail(nodo, head, nodes);
      DataAppend(nodes, nodo);
      nodes, cells := nodes + [nodo], cells + {nodo};
    }

    /** `list_del` and `vfree` of one node. */
    method Delete(node: Node, ghost k: nat)
      requires Valid() && k < |nodes| && node == nodes[k]
      modifies `nodes, `freed, head, cells
      ensures Valid() && nodes == RemoveAt(old(nodes), k) && freed == old(freed) + {node}
    {
      Neighbours(head, nodes, k);
      RemovedIsOut([head] + nodes, k + 1);
      assert RemoveAt([head] + nodes, k + 1) == [head] + RemoveAt(nodes, k);
      ListDel(node, head, nodes, k);
      nodes := RemoveAt(nodes, k);
      Vfree(node);
    }

    /** After i steps of a walk over `all`: the visited nodes holding num are gone and
        freed, the rest is as it was. */
    ghost predicate Walked(all: seq<Node>, i: nat, num: int, before: set<Node>)
      reads `nodes, `freed
    {
      && i <= |all| && nodes == Keeping(all[..i], num) + all[i..]
      && freed == before + Holding(all[..i], num)
    }

    /** The node a walk over `all` is at after i steps. */
    ghost function Place(all: seq<Node>, i: nat): Node
      reads `nodes
    {
      AtOrHead(head, nodes, |nodes| - (|all| - i))
    }

    /** One step of the walk: the loop's body, with the link to follow next saved first. */
    method Visit(current: Node, num: int, ghost all: seq<Node>, ghost i: nat, ghost before: set<Node>)
      returns (aux: Node)
      requires Valid() && Walked(all, i, num, before)
      requires current == Place(all, i) && current != head
      modifies `nodes, `freed, head, cells
      ensures Valid() && i < |all| && Walked(all, i + 1, num, before)
      ensures aux == Place(all, i + 1)
    {
      ghost var k := |Keeping(all[..i], num)|;
      WalkStep(nodes, all, i, num);
      assert current !in freed;
      Neighbours(head, nodes, k);
      HoldingNext(all, i, num);
      aux := current.next;
      if current.data == num {
        Delete(current, k);
      }
    }

    /** The walk deletes and frees the nodes holding num; it follows only the link saved
        before a deletion. */
    method RemoveAll(num: int)
      requires Valid()
      modifies `nodes, `freed, head, cells
      ensures Valid() && Elements() == Without(old(Elements()), num)
      ensures freed == old(freed) + Holding(old(nodes), num)
    {
      ghost var all, before := nodes, freed;
      ghost var i: nat := 0;
      Ends(head, nodes);
      var current := head.next;
      while current != head
        invariant Valid() && Walked(all, i, num, before)
        invariant current == Place(all, i)
        decreases |all| - i
      {
        current := Visit(current, num, all, i, before);
        i := i + 1;
      }
      EndOfWalk(all, i, num, before);
    }

    /** One step of the clearing walk. */
    method VisitFirst(current: Node) returns (aux: Node)
      requires Valid() && current == AtOrHead(head, nodes, 0) && current != head
      modifies `nodes, `freed, head, cells
      ensures Valid() && |old(nodes)| > 0 && nodes == old(nodes)[1..] && freed == old(freed) + {old(nodes)[0]}
      ensures aux == AtOrHead(head, nodes, 0)
    {
      Neighbours(head, nodes, 0);
      aux := current.next;
      Delete(current, 0);
    }

    /** The same walk, deleting and freeing every node. */
    method CleanUp()
      requires Valid()
      modifies `nodes, `freed, head, cells
      ensures Valid() && nodes == [] && Elements() == []
      ensures freed == old(freed) + Members(old(nodes))
    {
      Ends(head, nodes);
      var current := head.next;
      while current != head
        invariant Valid() && freed + Members(nodes) == old(freed) + Members(old(nodes))
        invariant current == AtOrHead(head, nodes, 0)
        decreases |nodes|
      {
        MembersFirst(nodes);
        current := VisitFirst(current);
      }
      assert nodes != [] ==> AtOrHead(head, nodes, 0) in cells;
    }

    /** `modlist_write`, on the command parsed from its buffer. */
    method Write(c: Command)
      requires Valid()
      modifies `nodes, `cells, `freed, head, cells
      ensures Valid() && Elements() == Obey(old(Elements()), c)
      ensures old(freed) <= freed && fresh(cells - old(cells))
    {
      match c {
        case Add(num) => AddTail(num);
        case Remove(num) => RemoveAll(num);
        case Cleanup => CleanUp();
        case Unknown =>
      }
    }

    /** A walk is back at the head only at its end, and has then kept the right elements. */
    lemma EndOfWalk(all: seq<Node>, i: nat, num: int, before: set<Node>)
      requires Valid() && Walked(all, i, num, before) && Place(all, i) == head
      ensures Elements() == Without(Data(all), num)
      ensures freed == before + Holding(all, num)
    {
      assert i < |all| ==> Place(all, i) in cells;
      assert all[..i] == all && all[i..] == [] && nodes == Keeping(all, num);
      DataKeeping(all, num);
    }
  }

  /** The nodes not holding num, in order. */
  ghost function Keeping(nodes: seq<Node>, num: int): (r: seq<Node>)
    ensures forall n | n in r :: n in nodes
  {
    if nodes == [] then []
    else Keeping(nodes[..|nodes| - 1], num) + if nodes[|nodes| - 1].data == num then [] else [nodes[|nodes| - 1]]
  }

  lemma KeepingNext(nodes: seq<Node>, i: nat, num: int)
    requires i < |nodes|
    ensures Keeping(nodes[..i + 1], num) == Keeping(nodes[..i], num) + if nodes[i].data == num then [] else [nodes[i]]
  {
    assert nodes[..i + 1][..i] == nodes[..i];
  }

  /** The node at hand is the next one of the walk; with or without it, what is left is what
      the next step expects. */
  lemma WalkStep(nodes: seq<Node>, all: seq<Node>, i: nat, num: int)
    requires i < |all| && nodes == Keeping(all[..i], num) + all[i..]
    ensures var k := |Keeping(all[..i], num)|;
      && |nodes| - (|all| - i) == k < |nodes| && nodes[k] == all[i]
      && Keeping(all[..i + 1], num) + all[i + 1..] ==
         if all[i].data == num then RemoveAt(nodes, k) else nodes
  {
    KeepingNext(all, i, num);
    assert all[i..] == [all[i]] + all[i + 1..];
    CutMiddle(Keeping(all[..i], num), all[i], all[i + 1..]);
  }

  lemma CutMiddle<T>(front: seq<T>, x: T, rest: seq<T>)
    ensures var s := front + ([x] + rest);
      s[|front|] == x && RemoveAt(s, |front|) == front + rest && (front + [x]) + rest == s
  {
  }

  lemma {:induction false} DataKeeping(nodes: seq<Node>, num: int)
    ensures Data(Keeping(nodes, num)) == Without(Data(nodes), num)
    decreases |nodes|
  {
    if nodes != [] {
      var init, last := nodes[..|nodes| - 1], nodes[|nodes| - 1];
      DataKeeping(init, num);
      DataAppend(Keeping(init, num), last);
      assert Data(nodes)[..|nodes| - 1] == Data(init);
    }
  }

  lemma DataAppend(nodes: seq<Node>, last: Node)
    ensures Data(nodes + [last]) == Data(nodes) + [last.data]
  {
    assert (nodes + [last])[..|nodes|] == nodes;
  }

  function Members(nodes: seq<Node>): set<Node> {
    set n | n in nodes
  }

  lemma MembersFirst(nodes: seq<Node>)
    ensures nodes != [] ==> Members(nodes) == {nodes[0]} + Members(nodes[1..])
  {
  }

  ghost function Holding(nodes: seq<Node>, num: int): set<Node>
  {
    set n | n in nodes && n.data == num
  }

  lemma HoldingNext(nodes: seq<Node>, i: nat, num: int)
    requires i < |nodes|
    ensures Holding(nodes[..i + 1], num) == Holding(nodes[..i], num) + if nodes[i].data == num then {nodes[i]} else {}
  {
    assert nodes[..i + 1] == nodes[..i] + [nodes[i]];
  }

  // ---- what a sequence of commands leaves ---------------------------------------------

  function ObeyAll(s: seq<int>, cs: seq<Command>): seq<int>
    decreases |cs|
  {
    if cs == [] then s else ObeyAll(Obey(s, cs[0]), cs[1..])
  }

  /** Some command takes num out of the list. */
  predicate Erased(cs: seq<Command>, num: int) {
    exists i | 0 <= i < |cs| :: cs[i] == Cleanup || cs[i] == Remove(num)
  }

  /** The elements of s that no command takes out. */
  function Spared(s: seq<int>, cs: seq<Command>): seq<int> {
    if s == [] then []
    else Spared(s[..|s| - 1], cs) + if Erased(cs, s[|s| - 1]) then [] else [s[|s| - 1]]
  }

  /** The numbers added and not taken out by a later command. */
  function Lasting(cs: seq<Command>): seq<int> {
    if cs == [] then []
    else LastingFirst(cs) + Lasting(cs[1..])
  }

  lemma ErasedFirst(cs: seq<Command>, num: int)
    requires cs != []
    ensures Erased(cs, num) <==> cs[0] == Cleanup || cs[0] == Remove(num) || Erased(cs[1..], num)
  {
    if Erased(cs, num) && cs[0] != Cleanup && cs[0] != Remove(num) {
      var i :| 0 <= i < |cs| && (cs[i] == Cleanup || cs[i] == Remove(num));
      assert cs[1..][i - 1] == cs[i];
    }
    if Erased(cs[1..], num) {
      var i :| 0 <= i < |cs[1..]| && (cs[1..][i] == Cleanup || cs[1..][i] == Remove(num));
      assert cs[i + 1] == cs[1..][i];
    }
  }

  /** How one command changes what the rest spares. */
  lemma {:induction false} SparedFirst(s: seq<int>, cs: seq<Command>)
    requires cs != []
    ensures Spared(Obey(s, cs[0]), cs[1..]) == Spared(s, cs) + LastingFirst(cs)
    decreases |s|
  {
    if cs[0].Add? {
      SparedAppend(s, cs[0].num, cs[1..]);
      SparedSame(s, cs);
    } else if s != [] {
      var init, last := s[..|s| - 1], s[|s| - 1];
      SparedFirst(init, cs);
      ErasedFirst(cs, last);
      SparedAppend(Obey(init, cs[0]), last, cs[1..]);
      ObeyLast(s, cs[0]);
    }
  }

  /** What the first command adds for good. */
  function LastingFirst(cs: seq<Command>): seq<int>
    requires cs != []
  {
    if cs[0].Add? && !Erased(cs[1..], cs[0].num) then [cs[0].num] else []
  }

  /** What a command that does not add does to the last element. */
  lemma ObeyLast(s: seq<int>, c: Command)
    requires s != [] && !c.Add?
    ensures var init, last := s[..|s| - 1], s[|s| - 1];
      Obey(s, c) == if c == Cleanup || c == Remove(last) then Obey(init, c) else Obey(init, c) + [last]
  {
  }

  lemma SparedAppend(s: seq<int>, x: int, cs: seq<Command>)
    ensures Spared(s + [x], cs) == Spared(s, cs) + if Erased(cs, x) then [] else [x]
  {
    assert (s + [x])[..|s|] == s;
  }

  lemma {:induction false} SparedSame(s: seq<int>, cs: seq<Command>)
    requires cs != [] && cs[0].Add?
    ensures Spared(s, cs[1..]) == Spared(s, cs)
    decreases |s|
  {
    if s != [] {
      SparedSame(s[..|s| - 1], cs);
      ErasedFirst(cs, s[|s| - 1]);
    }
  }

  lemma {:induction false} SparedNone(s: seq<int>)
    ensures Spared(s, []) == s
    decreases |s|
  {
    if s != [] {
      SparedNone(s[..|s| - 1]);
    }
  }

  /** After any commands the list holds, in order of insertion, what was there and every
      number added, except those a later `remove` named or a later `cleanup` followed. */
  lemma {:induction false} CommandsMeaning(s: seq<int>, cs: seq<Command>)
    ensures ObeyAll(s, cs) == Spared(s, cs) + Lasting(cs)
    decreases |cs|
  {
    if cs == [] {
      SparedNone(s);
    } else {
      CommandsMeaning(Obey(s, cs[0]), cs[1..]);
      SparedFirst(s, cs);
      assert (Spared(s, cs) + LastingFirst(cs)) + Lasting(cs[1..])
             == Spared(s, cs) + (LastingFirst(cs) + Lasting(cs[1..]));
    }
  }
}
