/**
 * TwoLockQueue as the program runs it: plain pointers and nodes updated in place under two locks,
 * one access of one thread at a time, with immediate deletion and the destructor. The preconditions
 * of `Load`, `StoreNext` and `Delete` rule out touching or deleting a deleted node.
 */
module TwoLockList {
  import opened Fifo
  import opened TwoLockQueue

  class Queue {
    var head: nat
    var headLock: Lock
    var tail: nat
    var tailLock: Lock
    var nodes: seq<Node>
    var freed: set<nat>
    var threads: map<Tid, Pc>
    ghost var order: seq<nat>
    ghost var added: seq<Item>
    ghost var removed: nat

    ghost function Mem(): Memory
      reads `head, `headLock, `tail, `tailLock, `nodes, `freed, `order, `added, `removed
    {
      Memory(head, tail, nodes, freed, headLock, tailLock, order, added, removed)
    }

    ghost function View(): State
      reads `head, `headLock, `tail, `tailLock, `nodes, `freed, `order, `added, `removed, `threads
    {
      State(Mem(), threads)
    }

    ghost predicate Valid()
      reads this
    {
      Inv(View())
    }

    constructor ()
      ensures Valid() && View() == Init()
    {
      nodes := [Node(0, Null)];
      head, tail, headLock, tailLock, freed := 0, 0, Free, Free, {};
      threads, order, added, removed := map[], [0], [], 0;
    }

    /** A call begins; an enqueue allocates its node before it takes the lock. */
    method Start(me: Tid, call: Call)
      modifies this`nodes, this`threads
      ensures View() == TwoLockQueue.Begin(old(View()), me, call)
    {
      match call
      case Enqueue(x) =>
        threads := threads[me := ELock(|nodes|)];
        nodes := nodes + [Node(x, Null)];
      case Dequeue => threads := threads[me := DLock];
    }

    method Begin(me: Tid, call: Call)
      requires Valid() && IsIdle(View(), me)
      modifies this`nodes, this`threads
      ensures Valid() && View() == TwoLockQueue.Begin(old(View()), me, call)
    {
      BeginKeepsInv(View(), me, call);
      Start(me, call);
    }

    /** A load from a node, which must not have been deleted. */
    method Load(id: nat) returns (n: Node)
      requires Live(Mem(), id)
      ensures n == nodes[id]
    {
      n := nodes[id];
    }

    /** `tail_->next.store(node)` */
    method StoreNext(id: nat, next: Link)
      requires Live(Mem(), id)
      modifies this`nodes
      ensures nodes == old(nodes)[id := old(nodes)[id].(next := next)]
    {
      nodes := nodes[id := nodes[id].(next := next)];
    }

    /** `delete dummy`; deleting a node twice is an error. */
    method Delete(id: nat)
      requires Live(Mem(), id)
      modifies this`freed
      ensures freed == old(freed) + {id}
    {
      freed := freed + {id};
    }

    /** One access of `enqueue`; a thread that finds the lock taken waits. */
    method EnqueueStep(me: Tid, pc: Pc) returns (next: Pc)
      requires pc.ELock? || pc.ELinkNode? || pc.ESetTail? || pc.EUnlock?
      requires pc.ELinkNode? ==> Live(Mem(), tail) && pc.o < |nodes|
      modifies this`tail, this`tailLock, this`nodes, this`order, this`added
      ensures Mem() == Update(old(Mem()), me, pc) && next == Continue(old(Mem()), pc)
    {
      match pc
      case ELock(o) =>
        next := pc;
        if tailLock == Free {
          tailLock := HeldBy(me);
          next := ELinkNode(o);
        }
      case ELinkNode(o) =>
        order, added := order + [o], added + [nodes[o].item];
        StoreNext(tail, To(o));
        next := ESetTail(o);
      case ESetTail(o) =>
        tail := o;
        next := EUnlock;
      case EUnlock =>
        tailLock := Free;
        next := EDone;
    }

    /** One access of `dequeue`; a thread that finds the lock taken waits. */
    method DequeueStep(me: Tid, pc: Pc) returns (next: Pc)
      requires !pc.ELock? && !pc.ELinkNode? && !pc.ESetTail? && !pc.EUnlock?
      requires !pc.EDone? && !pc.DDone? && !pc.DFalse? && !pc.Crashed?
      requires pc.DReadNext? || pc.DDelete? ==> Live(Mem(), pc.d)
      requires pc.DReadItem? ==> Live(Mem(), pc.n)
      modifies this`head, this`headLock, this`freed, this`removed
      ensures Mem() == Update(old(Mem()), me, pc) && next == Continue(old(Mem()), pc)
    {
      match pc
      case DLock =>
        next := pc;
        if headLock == Free {
          headLock := HeldBy(me);
          next := DReadHead;
        }
      case DReadHead => next := DReadNext(head);
      case DReadNext(d) =>
        var dummy := Load(d);
        next := match dummy.next case Null => DUnlockEmpty case To(n) => DReadItem(d, n);
      case DUnlockEmpty =>
        headLock := Free;
        next := DFalse;
      case DReadItem(d, n) =>
        var newHead := Load(n);
        next := DSetHead(d, n, newHead.item);
      case DSetHead(d, n, x) =>
        head, removed := n, removed + 1;
        next := DUnlock(d, x);
      case DUnlock(d, x) =>
        headLock := Free;
        next := DDelete(d, x);
      case DDelete(d, x) =>
        Delete(d);
        next := DDone(x);
    }

    /** The next access of a thread that touches only what is there. */
    method Advance(me: Tid)
      requires me in threads && !Continue(Mem(), threads[me]).Crashed?
      requires threads[me].ELinkNode? ==> threads[me].o < |nodes|
      modifies this
      ensures View() == Next(old(View()), me)
    {
      var pc := threads[me];
      var next := pc;
      if pc.ELock? || pc.ELinkNode? || pc.ESetTail? || pc.EUnlock? {
        next := EnqueueStep(me, pc);
      } else if !pc.EDone? && !pc.DDone? && !pc.DFalse? {
        next := DequeueStep(me, pc);
      }
      threads := threads[me := next];
    }

    /** The next atomic access of a thread. */
    method Step(me: Tid)
      requires Valid() && me in threads
      modifies this
      ensures Valid() && View() == Next(old(View()), me)
    {
      NextKeepsInv(View(), me);
      assert Knows(Mem(), me, threads[me]);
      NoAccessToDeletedNodes(Mem(), me, threads[me]);
      Advance(me);
    }

    // ---- The destructor ----

    /** `~TwoLockQueue` deletes what is left; then every node ever linked has been deleted once. */
    method Destroy()
      requires Valid() && forall b <- threads :: IsIdle(View(), b)
      modifies this`freed
      ensures forall y :: y in freed <==> y in order
    {
      LinkedNodes(View());
      DeleteFrom(To(head), order[removed..]);
    }

    method DeleteFrom(first: Link, ghost q: seq<nat>)
      requires IsChain(nodes, q) && first == First(q)
      requires forall y <- q :: y !in freed
      modifies this`freed
      ensures forall y :: y in freed <==> y in old(freed) || y in q
    {
      var curr := first;
      ghost var i := 0;
      while curr != Null
        invariant 0 <= i <= |q| && curr == First(q[i..])
        invariant forall y :: y in freed <==> y in old(freed) || y in q[..i]
        decreases |q| - i
      {
        var n := Load(curr.id);
        Delete(curr.id);
        assert q[..i + 1] == q[..i] + [curr.id];
        curr := n.next;
        i := i + 1;
      }
      assert q[..|q|] == q;
    }
  }

  function First(q: seq<nat>): Link {
    if q == [] then Null else To(q[0])
  }

  /** q lists distinct nodes, each linked to the one after it, the last to none. */
  ghost predicate IsChain(nodes: seq<Node>, q: seq<nat>) {
    && (forall i | 0 <= i < |q| :: q[i] < |nodes| && nodes[q[i]].next == First(q[i + 1..]))
    && (forall i, j | 0 <= i < j < |q| :: q[i] != q[j])
  }

  /** At quiescence the nodes from the head on are such a chain, and the others have been deleted. */
  lemma LinkedNodes(s: State)
    requires Inv(s) && forall b <- s.threads :: IsIdle(s, b)
    ensures s.mem.removed < |s.mem.order| && IsChain(s.mem.nodes, s.mem.order[s.mem.removed..])
    ensures s.mem.head == s.mem.order[s.mem.removed]
    ensures forall y <- s.mem.order[s.mem.removed..] :: y !in s.mem.freed
    ensures forall y :: y in s.mem.freed || y in s.mem.order[s.mem.removed..] <==> y in s.mem.order
  {
    LiveChain(s.mem);
    forall y ensures y in s.mem.freed || y in s.mem.order[s.mem.removed..] <==> y in s.mem.order {
      DeletedOrLive(s, y);
    }
  }

  lemma LiveChain(m: Memory)
    requires Shape(m)
    ensures IsChain(m.nodes, m.order[m.removed..])
  {
    var q := m.order[m.removed..];
    forall i | 0 <= i < |q| ensures q[i] < |m.nodes| && m.nodes[q[i]].next == First(q[i + 1..]) {
      LinkedNode(m, i);
    }
  }

  lemma DeletedOrLive(s: State, y: nat)
    requires Inv(s) && forall b <- s.threads :: IsIdle(s, b)
    ensures y in s.mem.freed || y in s.mem.order[s.mem.removed..] <==> y in s.mem.order
  {
    var m := s.mem;
    if y in m.order {
      var i :| 0 <= i < |m.order| && m.order[i] == y;
      QuiescentReclamation(s, i);
      if m.removed <= i { assert m.order[m.removed..][i - m.removed] == y; }
    }
  }

  lemma LinkedNode(m: Memory, i: nat)
    requires Shape(m) && i < |m.order[m.removed..]|
    ensures var q := m.order[m.removed..]; q[i] < |m.nodes| && m.nodes[q[i]].next == First(q[i + 1..])
  {
    var q := m.order[m.removed..];
    assert q[i] == m.order[m.removed + i] && (i + 1 < |q| ==> q[i + 1] == m.order[m.removed + i + 1]);
  }
}
