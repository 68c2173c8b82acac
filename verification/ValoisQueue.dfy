/**
 * ValoisQueue as the program runs it: bare pointers and nodes updated in place, one atomic access of
 * one thread at a time, with the retired stack and the destructor. Touching or deleting a node that
 * has been deleted is ruled out by the preconditions of `Load` and `Delete`.
 */
module ValoisQueue {
  import opened Fifo
  import opened LinkedQueue

  datatype Cell = Cell(item: Item, next: Link, retiredNext: Link)

  function Bare(p: Link): Pointer {
    Pointer(p, 0)
  }

  function Node(c: Cell): LinkedQueue.Node {
    LinkedQueue.Node(c.item, Bare(c.next), c.retiredNext)
  }

  function Nodes(cs: seq<Cell>): seq<LinkedQueue.Node> {
    seq(|cs|, i requires 0 <= i < |cs| => Node(cs[i]))
  }

  /** ValoisQueue has no counters. */
  predicate IsBare(pc: Pc) {
    match pc
    case EReadNext(_, tail) => tail.count == 0
    case EConfirm(_, tail, next) => tail.count == 0 && next.count == 0
    case ELink(_, tail, next) => tail.count == 0 && next.count == 0
    case EHelp(_, tail, _) => tail.count == 0
    case ESwing(_, tail) => tail.count == 0
    case DReadTail(head) => head.count == 0
    case DReadNext(head, tail) => head.count == 0 && tail.count == 0
    case DConfirm(head, tail, next) => head.count == 0 && tail.count == 0 && next.count == 0
    case DHelp(tail, _) => tail.count == 0
    case DReadValue(head, _) => head.count == 0
    case DShift(head, _, _) => head.count == 0
    case _ => true
  }

  class Queue {
    var head: Link
    var tail: Link
    var retired: Link
    var nodes: seq<Cell>
    var deleted: set<nat>
    var threads: map<Tid, Pc>
    ghost var order: seq<nat>
    ghost var place: map<nat, nat>
    ghost var added: seq<Item>
    ghost var removed: nat
    ghost var stack: seq<nat>

    ghost function Mem(): Memory
      reads `head, `tail, `retired, `nodes, `order, `place, `added, `removed, `stack
    {
      Memory(Bare(head), Bare(tail), Nodes(nodes), retired, order, place, added, removed, stack)
    }

    ghost function View(): State
      reads `head, `tail, `retired, `nodes, `order, `place, `added, `removed, `stack, `threads
    {
      State(Mem(), threads)
    }

    ghost predicate Valid()
      reads this
    {
      Inv(Valois, View()) && deleted == {} && forall b <- threads :: IsBare(threads[b])
    }

    constructor ()
      ensures Valid() && View() == Init()
    {
      nodes := [Cell(0, Null, Null)];
      head, tail, retired, deleted := To(0), To(0), Null, {};
      threads, order, place, added, removed, stack := map[], [0], map[0 := 0], [], 0, [];
      new;
      InitInv(Valois);
    }

    /** A call begins; an enqueue allocates its node, which nobody else can reach yet. */
    method Start(me: Tid, call: Call)
      requires forall b <- threads :: IsBare(threads[b])
      modifies this`nodes, this`threads
      ensures View() == LinkedQueue.Begin(old(View()), me, call)
      ensures forall b <- threads :: IsBare(threads[b])
    {
      ghost var s := View();
      match call {
        case Enqueue(x) =>
          threads := threads[me := EReadTail(|nodes|)];
          nodes := nodes + [Cell(x, Null, Null)];
        case Dequeue => threads := threads[me := DReadHead];
      }
      assert Nodes(nodes) == LinkedQueue.Begin(s, me, call).mem.nodes;
    }

    method Begin(me: Tid, call: Call)
      requires Valid() && IsIdle(View(), me)
      modifies this`nodes, this`threads
      ensures Valid() && View() == LinkedQueue.Begin(old(View()), me, call)
    {
      BeginKeepsInv(Valois, View(), me, call);
      Start(me, call);
    }

    /** A load from a node, which must not have been deleted. */
    method Load(id: nat) returns (c: Cell)
      requires id < |nodes| && id !in deleted
      ensures c == nodes[id]
    {
      c := nodes[id];
    }

    /** `tail_.compare_exchange_strong` */
    method CasTail(expected: Link, id: nat)
      modifies this`tail
      ensures tail == if old(tail) == expected then To(id) else old(tail)
    {
      if tail == expected { tail := To(id); }
    }

    /** `tail->next.compare_exchange_strong` on a null next. */
    method CasNext(p: nat, o: nat) returns (ok: bool)
      requires p < |nodes| && p !in deleted
      modifies this`nodes
      ensures ok <==> old(nodes)[p].next == Null
      ensures nodes == if ok then old(nodes)[p := old(nodes)[p].(next := To(o))] else old(nodes)
    {
      ok := nodes[p].next == Null;
      if ok { nodes := nodes[p := nodes[p].(next := To(o))]; }
    }

    /** One access of `enqueue`. */
    method EnqueueStep(pc: Pc) returns (next: Pc)
      requires pc.EReadTail? || pc.EReadNext? || pc.EConfirm? || pc.ELink? || pc.EHelp? || pc.ESwing?
      requires Dereferences(Mem(), pc) && IsBare(pc) && deleted == {}
      requires pc.ELink? ==> pc.o < |nodes| && pc.next.link == Null
      modifies this`tail, this`nodes, this`order, this`place, this`added
      ensures IsBare(next)
      ensures Mem() == Update(Valois, old(Mem()), pc) && next == Continue(Valois, old(Mem()), pc)
    {
      match pc
      case EReadTail(o) => next := EReadNext(o, Bare(tail));
      case EReadNext(o, t) =>
        var c := Load(t.link.id);
        next := EConfirm(o, t, Bare(c.next));
      case EConfirm(o, t, n) =>
        next := EReadTail(o);
        if tail == t.link {
          next := match n.link case Null => ELink(o, t, n) case To(z) => EHelp(o, t, z);
        }
      case ELink(o, t, n) =>
        ghost var s := Mem();
        var ok := CasNext(t.link.id, o);
        if ok {
          order, place, added := order + [o], place[o := |order|], added + [nodes[o].item];
          assert Nodes(nodes) == Update(Valois, s, pc).nodes;
        }
        next := if ok then ESwing(o, t) else EReadTail(o);
      case EHelp(o, t, z) =>
        CasTail(t.link, z);
        next := EReadTail(o);
      case ESwing(o, t) =>
        CasTail(t.link, o);
        next := EDone;
    }

    /** One access of `dequeue`, up to the head's compare-and-swap. */
    method DequeueStep(pc: Pc) returns (next: Pc)
      requires pc.DReadHead? || pc.DReadTail? || pc.DReadNext? || pc.DConfirm? || pc.DHelp? || pc.DReadValue?
        || pc.DShift?
      requires Dereferences(Mem(), pc) && IsBare(pc) && deleted == {}
      modifies this`head, this`tail, this`removed
      ensures IsBare(next)
      ensures Mem() == Update(Valois, old(Mem()), pc) && next == Continue(Valois, old(Mem()), pc)
    {
      match pc
      case DReadHead => next := DReadTail(Bare(head));
      case DReadTail(h) => next := DReadNext(h, Bare(tail));
      case DReadNext(h, t) =>
        var c := Load(h.link.id);
        next := DConfirm(h, t, Bare(c.next));
      case DConfirm(h, t, n) =>
        next := DReadHead;
        if head == h.link {
          next := match n.link
            case Null => DFalse
            case To(z) => if h.link == t.link then DHelp(t, z) else DReadValue(h, n.link);
        }
      case DHelp(t, z) =>
        CasTail(t.link, z);
        next := DReadHead;
      case DReadValue(h, to) =>
        var c := Load(to.id);
        next := DShift(h, to.id, c.item);
      case DShift(h, z, x) =>
        next := DReadHead;
        if head == h.link {
          head, removed := To(z), removed + 1;
          next := RLoad(h.link.id, x);
        }
    }

    /** One access of `retire`. */
    method RetireStep(pc: Pc) returns (next: Pc)
      requires pc.RLoad? || pc.RStore? || pc.RPush?
      requires Dereferences(Mem(), pc) && deleted == {}
      modifies this`retired, this`nodes, this`stack
      ensures IsBare(next)
      ensures Mem() == Update(Valois, old(Mem()), pc) && next == Continue(Valois, old(Mem()), pc)
    {
      match pc
      case RLoad(d, x) => next := RStore(d, x, retired);
      case RStore(d, x, was) =>
        ghost var s := Mem();
        nodes := nodes[d := nodes[d].(retiredNext := was)];
        assert Nodes(nodes) == Update(Valois, s, pc).nodes;
        next := RPush(d, x, was);
      case RPush(d, x, was) =>
        if retired == was {
          retired, stack := To(d), [d] + stack;
          next := DDone(x);
        } else {
          next := RStore(d, x, retired);
        }
    }

    /** One access of a thread that is at pc; nothing it follows is missing. */
    method Access(pc: Pc) returns (next: Pc)
      requires Dereferences(Mem(), pc) && IsBare(pc) && deleted == {}
      requires pc.ELink? ==> pc.o < |nodes| && pc.next.link == Null
      modifies this`head, this`tail, this`retired, this`nodes, this`stack
      modifies this`order, this`place, this`added, this`removed
      ensures IsBare(next)
      ensures Mem() == Update(Valois, old(Mem()), pc) && next == Continue(Valois, old(Mem()), pc)
    {
      next := pc;
      if pc.EReadTail? || pc.EReadNext? || pc.EConfirm? || pc.ELink? || pc.EHelp? || pc.ESwing? {
        next := EnqueueStep(pc);
      } else if pc.RLoad? || pc.RStore? || pc.RPush? {
        next := RetireStep(pc);
      } else if !pc.EDone? && !pc.DDone? && !pc.DFalse? {
        next := DequeueStep(pc);
      }
    }

    /** The next access of a thread that follows only what is there. */
    method Advance(me: Tid)
      requires me in threads && (forall b <- threads :: IsBare(threads[b])) && deleted == {}
      requires Dereferences(Mem(), threads[me])
      requires threads[me].ELink? ==> threads[me].o < |nodes| && threads[me].next.link == Null
      modifies this
      ensures deleted == {} && (forall b <- threads :: IsBare(threads[b]))
      ensures View() == Next(Valois, old(View()), me)
    {
      var next := Access(threads[me]);
      threads := threads[me := next];
    }

    /** The next atomic access of a thread. */
    method Step(me: Tid)
      requires Valid() && me in threads
      modifies this
      ensures Valid() && View() == Next(Valois, old(View()), me)
    {
      NextKeepsInv(Valois, View(), me);
      assert Knows(Mem(), threads[me]);
      NeverFollowsNull(Mem(), threads[me]);
      Advance(me);
    }

    /** `compare_exchange_weak` in `retire` fails for no reason; `retire` loads again. */
    method Fail(me: Tid)
      requires me in threads && (forall b <- threads :: IsBare(threads[b]))
      modifies this`threads
      ensures View() == FailSpuriously(old(View()), me) && (forall b <- threads :: IsBare(threads[b]))
    {
      match threads[me]
      case RPush(d, x, _) => threads := threads[me := RStore(d, x, retired)];
      case _ =>
    }

    method FailStep(me: Tid)
      requires Valid() && me in threads
      modifies this`threads
      ensures Valid() && View() == FailSpuriously(old(View()), me)
    {
      FailKeepsInv(Valois, View(), me);
      Fail(me);
    }

    // ---- The destructor ----

    /** `delete curr`; deleting a node twice is an error. */
    method Delete(id: nat)
      requires id < |nodes| && id !in deleted
      modifies this`deleted
      ensures deleted == old(deleted) + {id}
    {
      deleted := deleted + {id};
    }

    /** `delete_chain`; q lists the nodes of the chain. */
    method DeleteChain(first: Link, ghost q: seq<nat>)
      requires IsChain(nodes, q) && first == First(q) && deleted !! Elements(q)
      modifies this`deleted
      ensures deleted == old(deleted) + Elements(q)
    {
      var curr := first;
      ghost var i := 0;
      while curr != Null
        invariant 0 <= i <= |q| && deleted == old(deleted) + Elements(q[0..i]) && curr == First(q[i..])
        decreases |q| - i
      {
        var c := Load(curr.id);
        Delete(curr.id);
        NextElement(q, 0, i);
        curr := c.next;
        i := i + 1;
      }
      assert q[0..|q|] == q;
    }

    /** `delete_retired`; q lists the nodes of the stack. */
    method DeleteRetired(first: Link, ghost q: seq<nat>)
      requires IsRetired(nodes, q) && first == First(q) && deleted !! Elements(q)
      modifies this`deleted
      ensures deleted == old(deleted) + Elements(q)
    {
      var curr := first;
      ghost var i := 0;
      while curr != Null
        invariant 0 <= i <= |q| && deleted == old(deleted) + Elements(q[0..i]) && curr == First(q[i..])
        decreases |q| - i
      {
        var c := Load(curr.id);
        Delete(curr.id);
        NextElement(q, 0, i);
        curr := c.retiredNext;
        i := i + 1;
      }
      assert q[0..|q|] == q;
    }

    method DeleteAll(ghost live: seq<nat>, ghost passed: seq<nat>)
      requires deleted == {} && Elements(live) !! Elements(passed)
      requires IsChain(nodes, live) && head == First(live) && IsRetired(nodes, passed) && retired == First(passed)
      modifies this`deleted
      ensures deleted == Elements(live) + Elements(passed)
    {
      DeleteChain(head, live);
      DeleteRetired(retired, passed);
    }

    /** The destructor deletes exactly the nodes that were ever in the list, none of them twice. */
    method Destroy()
      requires Valid() && Quiescent(View())
      modifies this`deleted
      ensures forall y :: y in deleted <==> InList(Mem(), y)
    {
      ElementsAreLinked(View());
      LiveChain(Mem(), nodes);
      RetiredChain(Mem(), nodes);
      DeleteAll(order[removed..], stack);
    }
  }

  ghost function Elements(q: seq<nat>): set<nat> {
    set y | y in q
  }

  lemma ElementsAreLinked(s: State)
    requires Inv(Valois, s) && Quiescent(s)
    ensures forall y ::
      y in Elements(s.mem.order[s.mem.removed..]) + Elements(s.mem.stack) <==> InList(s.mem, y)
  {
    DestructorFreesEachNodeOnce(s);
    forall y ensures y in Elements(s.mem.order[s.mem.removed..]) + Elements(s.mem.stack) <==> InList(s.mem, y) {
      assert y in s.mem.order[s.mem.removed..] + s.mem.stack <==> InList(s.mem, y);
    }
  }

  lemma NextElement(q: seq<nat>, from: nat, i: nat)
    requires from <= i < |q|
    ensures Elements(q[from..i + 1]) == Elements(q[from..i]) + {q[i]}
  {
    assert q[from..i + 1] == q[from..i] + [q[i]];
  }

  function First(q: seq<nat>): Link {
    if q == [] then Null else To(q[0])
  }

  /** q lists distinct nodes, each linked to the one after it, the last to none. */
  ghost predicate IsChain(nodes: seq<Cell>, q: seq<nat>) {
    && (forall i | 0 <= i < |q| :: q[i] < |nodes| && nodes[q[i]].next == First(q[i + 1..]))
    && (forall i, j | 0 <= i < j < |q| :: q[i] != q[j])
  }

  /** The same along the links of the retired stack. */
  ghost predicate IsRetired(nodes: seq<Cell>, q: seq<nat>) {
    && (forall i | 0 <= i < |q| :: q[i] < |nodes| && nodes[q[i]].retiredNext == First(q[i + 1..]))
    && (forall i, j | 0 <= i < j < |q| :: q[i] != q[j])
  }

  /** The i-th node from the head on, and what its next leads to. */
  lemma LiveCell(m: Memory, nodes: seq<Cell>, i: nat)
    requires Shape(m) && m.nodes == Nodes(nodes) && i < |m.order[m.removed..]|
    ensures var q := m.order[m.removed..]; q[i] < |nodes| && nodes[q[i]].next == First(q[i + 1..])
  {
    var q := m.order[m.removed..];
    assert q[i] == m.order[m.removed + i] && (i + 1 < |q| ==> q[i + 1] == m.order[m.removed + i + 1]);
    assert m.nodes[q[i]] == Node(nodes[q[i]]);
  }

  /** The nodes from the head on are a chain. */
  lemma LiveChain(m: Memory, nodes: seq<Cell>)
    requires Shape(m) && m.nodes == Nodes(nodes)
    ensures IsChain(nodes, m.order[m.removed..]) && m.head.link == First(m.order[m.removed..])
  {
    var q := m.order[m.removed..];
    forall i | 0 <= i < |q| ensures q[i] < |nodes| && nodes[q[i]].next == First(q[i + 1..]) {
      LiveCell(m, nodes, i);
    }
    forall i, j | 0 <= i < j < |q| ensures q[i] != q[j] {
      LiveNode(m, i);
      LiveNode(m, j);
    }
  }

  lemma RetiredCell(m: Memory, nodes: seq<Cell>, i: nat)
    requires StackOk(m) && m.nodes == Nodes(nodes) && i < |m.stack|
    ensures m.stack[i] < |nodes| && nodes[m.stack[i]].retiredNext == First(m.stack[i + 1..])
  {
    assert m.nodes[m.stack[i]] == Node(nodes[m.stack[i]]);
  }

  /** The retired nodes are one along their own links, and none of them is live. */
  lemma RetiredChain(m: Memory, nodes: seq<Cell>)
    requires Shape(m) && m.nodes == Nodes(nodes)
    ensures IsRetired(nodes, m.stack) && m.retired == First(m.stack)
    ensures Elements(m.order[m.removed..]) !! Elements(m.stack)
  {
    forall i | 0 <= i < |m.stack|
      ensures m.stack[i] < |nodes| && nodes[m.stack[i]].retiredNext == First(m.stack[i + 1..])
    {
      RetiredCell(m, nodes, i);
    }
    forall y <- m.stack ensures y !in m.order[m.removed..] {
      RetiredIsNotLive(m, y);
    }
  }

  lemma RetiredIsNotLive(m: Memory, y: nat)
    requires Shape(m) && y in m.stack
    ensures y !in m.order[m.removed..]
  {
    var q := m.order[m.removed..];
    forall i | 0 <= i < |q| ensures q[i] != y { LiveNode(m, i); }
  }
}
