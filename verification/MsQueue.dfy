/**
 * MSQueue as the program runs it: counted pointers and nodes updated in place, one atomic access of
 * one thread at a time. Nodes are never freed, so the nodes ever allocated stay where they are.
 */
module MsQueue {
  import opened Fifo
  import opened LinkedQueue

  datatype Cell = Cell(value: Item, next: Pointer)

  function Node(c: Cell): LinkedQueue.Node {
    LinkedQueue.Node(c.value, c.next, Null)
  }

  function Nodes(cs: seq<Cell>): seq<LinkedQueue.Node> {
    seq(|cs|, i requires 0 <= i < |cs| => Node(cs[i]))
  }

  /** MSQueue has no retired stack. */
  predicate Enlisted(pc: Pc) {
    !pc.RLoad? && !pc.RStore? && !pc.RPush?
  }

  lemma NeverRetires(s: Memory, pc: Pc)
    requires Enlisted(pc)
    ensures Enlisted(Continue(MichaelScott, s, pc))
  {}

  class Queue {
    var head: Pointer
    var tail: Pointer
    var nodes: seq<Cell>
    var threads: map<Tid, Pc>
    ghost var order: seq<nat>
    ghost var place: map<nat, nat>
    ghost var added: seq<Item>
    ghost var removed: nat

    ghost function Mem(): Memory
      reads this
    {
      Memory(head, tail, Nodes(nodes), Null, order, place, added, removed, [])
    }

    ghost function View(): State
      reads this
    {
      State(Mem(), threads)
    }

    ghost predicate Valid()
      reads this
    {
      Inv(MichaelScott, View()) && forall b <- threads :: Enlisted(threads[b])
    }

    constructor ()
      ensures Valid() && View() == Init()
    {
      nodes := [Cell(0, Pointer(Null, 0))];
      head, tail := Pointer(To(0), 0), Pointer(To(0), 0);
      threads, order, place, added, removed := map[], [0], map[0 := 0], [], 0;
      new;
      InitInv(MichaelScott);
    }

    /** A call begins; an enqueue allocates its node, which nobody else can reach yet. */
    method Start(me: Tid, call: Call)
      modifies this`nodes, this`threads
      ensures View() == LinkedQueue.Begin(old(View()), me, call)
      ensures forall b <- threads :: b != me ==> b in old(threads) && threads[b] == old(threads)[b]
      ensures me in threads && Enlisted(threads[me])
    {
      ghost var s := View();
      match call {
        case Enqueue(x) =>
          threads := threads[me := EReadTail(|nodes|)];
          nodes := nodes + [Cell(x, Pointer(Null, 0))];
        case Dequeue => threads := threads[me := DReadHead];
      }
      assert Nodes(nodes) == LinkedQueue.Begin(s, me, call).mem.nodes;
    }

    method Begin(me: Tid, call: Call)
      requires Valid() && IsIdle(View(), me)
      modifies this`nodes, this`threads
      ensures Valid() && View() == LinkedQueue.Begin(old(View()), me, call)
    {
      BeginKeepsInv(MichaelScott, View(), me, call);
      Start(me, call);
    }

    /** `Head.compare_exchange_strong`; the counter is an unsigned 32-bit word. */
    method CasHead(expected: Pointer, id: nat) returns (ok: bool)
      modifies this`head
      ensures ok <==> old(head) == expected
      ensures head == if ok then Pointer(To(id), Count(MichaelScott, expected.count)) else old(head)
    {
      ok := head == expected;
      if ok { head := Pointer(To(id), (expected.count + 1) % CounterWrap); }
    }

    /** `Tail.compare_exchange_strong` */
    method CasTail(expected: Pointer, id: nat)
      modifies this`tail
      ensures tail == if old(tail) == expected then Pointer(To(id), Count(MichaelScott, expected.count)) else old(tail)
    {
      if tail == expected { tail := Pointer(To(id), (expected.count + 1) % CounterWrap); }
    }

    /** `tail.ptr->next.compare_exchange_strong` */
    method CasNext(p: nat, expected: Pointer, o: nat) returns (ok: bool)
      requires p < |nodes|
      modifies this`nodes
      ensures ok <==> old(nodes)[p].next == expected
      ensures nodes == if ok
        then old(nodes)[p := old(nodes)[p].(next := Pointer(To(o), Count(MichaelScott, expected.count)))]
        else old(nodes)
    {
      ok := nodes[p].next == expected;
      if ok { nodes := nodes[p := nodes[p].(next := Pointer(To(o), (expected.count + 1) % CounterWrap))]; }
    }

    /** One access of `enqueue`, lines E5 to E17. */
    method EnqueueStep(pc: Pc) returns (next: Pc)
      requires pc.EReadTail? || pc.EReadNext? || pc.EConfirm? || pc.ELink? || pc.EHelp? || pc.ESwing?
      requires Dereferences(Mem(), pc) && (pc.ELink? ==> pc.o < |nodes|)
      modifies this`tail, this`nodes, this`order, this`place, this`added
      ensures Mem() == Update(MichaelScott, old(Mem()), pc) && next == Continue(MichaelScott, old(Mem()), pc)
    {
      match pc
      case EReadTail(o) => next := EReadNext(o, tail);
      case EReadNext(o, t) => next := EConfirm(o, t, nodes[t.link.id].next);
      case EConfirm(o, t, n) =>
        next := EReadTail(o);
        if tail == t {
          next := match n.link case Null => ELink(o, t, n) case To(z) => EHelp(o, t, z);
        }
      case ELink(o, t, n) =>
        ghost var s := Mem();
        var ok := CasNext(t.link.id, n, o);
        if ok {
          order, place, added := order + [o], place[o := |order|], added + [nodes[o].value];
          assert Nodes(nodes) == Update(MichaelScott, s, pc).nodes;
        }
        next := if ok then ESwing(o, t) else EReadTail(o);
      case EHelp(o, t, z) =>
        CasTail(t, z);
        next := EReadTail(o);
      case ESwing(o, t) =>
        CasTail(t, o);
        next := EDone;
    }

    /** One access of `dequeue`, lines D2 to D13. */
    method DequeueStep(pc: Pc) returns (next: Pc)
      requires pc.DReadHead? || pc.DReadTail? || pc.DReadNext? || pc.DConfirm? || pc.DHelp? || pc.DReadValue?
        || pc.DShift?
      requires Dereferences(Mem(), pc)
      modifies this`head, this`tail, this`removed
      ensures Mem() == Update(MichaelScott, old(Mem()), pc) && next == Continue(MichaelScott, old(Mem()), pc)
    {
      match pc
      case DReadHead => next := DReadTail(head);
      case DReadTail(h) => next := DReadNext(h, tail);
      case DReadNext(h, t) => next := DConfirm(h, t, nodes[h.link.id].next);
      case DConfirm(h, t, n) =>
        next := DReadHead;
        if head == h {
          if h.link == t.link {
            next := match n.link case Null => DFalse case To(z) => DHelp(t, z);
          } else {
            next := DReadValue(h, n.link);
          }
        }
      case DHelp(t, z) =>
        CasTail(t, z);
        next := DReadHead;
      case DReadValue(h, to) => next := DShift(h, to.id, nodes[to.id].value);
      case DShift(h, z, x) =>
        var ok := CasHead(h, z);
        if ok { removed := removed + 1; }
        next := if ok then DDone(x) else DReadHead;
    }

    /** One access of a thread that is at pc; nothing it follows is missing. */
    method Access(pc: Pc) returns (next: Pc)
      requires Dereferences(Mem(), pc) && Enlisted(pc) && (pc.ELink? ==> pc.o < |nodes|)
      modifies this
      ensures threads == old(threads)
      ensures Mem() == Update(MichaelScott, old(Mem()), pc) && next == Continue(MichaelScott, old(Mem()), pc)
    {
      next := pc;
      if pc.EReadTail? || pc.EReadNext? || pc.EConfirm? || pc.ELink? || pc.EHelp? || pc.ESwing? {
        next := EnqueueStep(pc);
      } else if !pc.EDone? && !pc.DDone? && !pc.DFalse? {
        next := DequeueStep(pc);
      }
    }

    /** The next atomic access of a thread. */
    method Step(me: Tid)
      requires Valid() && me in threads
      modifies this
      ensures Valid() && View() == Next(MichaelScott, old(View()), me)
    {
      NextKeepsInv(MichaelScott, View(), me);
      assert Knows(Mem(), threads[me]);
      NeverFollowsNull(Mem(), threads[me]);
      NeverRetires(Mem(), threads[me]);
      var next := Access(threads[me]);
      threads := threads[me := next];
    }
  }
}
