/**
 * PLJQueue as the program runs it: shared pointers and objects updated in place, one atomic access
 * of one thread at a time. The heap is the objects ever allocated; a null pointer or one out of the
 * heap cannot be followed.
 */
module PljQueue {
  import opened Fifo
  import opened Plj

  class Queue {
    var head: Pointer
    var tail: Pointer
    var heap: seq<Object>
    var threads: map<Tid, Pc>
    ghost var live: seq<nat>
    ghost var added: seq<Item>
    ghost var removed: nat

    ghost function Mem(): Memory
      reads this
    {
      Memory(head, tail, heap, live, added, removed)
    }

    ghost function View(): State
      reads this
    {
      State(Mem(), threads)
    }

    ghost predicate Valid()
      reads this
    {
      Inv(View())
    }

    constructor ()
      ensures Valid() && View() == Init()
    {
      head, tail := Pointer(Null, 0, ENQ), Pointer(Null, 0, ENQ);
      heap, threads, live, added, removed := [], map[], [], [], 0;
    }

    /** A call begins; an enqueue allocates its object, which nobody else can reach yet. */
    method Begin(me: Tid, call: Call)
      requires Valid() && IsIdle(View(), me)
      modifies this`heap, this`threads
      ensures Valid() && View() == Plj.Begin(old(View()), me, call)
    {
      BeginKeepsInv(View(), me, call);
      match call
      case Enqueue(x) =>
        threads := threads[me := Again(Enq(|heap|))];
        heap := heap + [Object(x, Pointer(Null, 0, ENQ))];
      case Dequeue => threads := threads[me := Again(Deq)];
    }

    /** `Shared_head.compare_exchange_strong` with the counter bumped. */
    method CasHead(expected: Pointer, link: Link) returns (ok: bool)
      modifies this`head
      ensures ok <==> old(head) == expected
      ensures head == if ok then Bump(expected, link) else old(head)
    {
      ok := head == expected;
      if ok { head := Pointer(link, expected.counter + 1, expected.mark); }
    }

    /** `Shared_tail.compare_exchange_strong` with the counter bumped. */
    method CasTail(expected: Pointer, link: Link) returns (ok: bool)
      modifies this`tail
      ensures ok <==> old(tail) == expected
      ensures tail == if ok then Bump(expected, link) else old(tail)
    {
      ok := tail == expected;
      if ok { tail := Pointer(link, expected.counter + 1, expected.mark); }
    }

    /** `nextobject.compare_exchange_strong` */
    method CasNext(id: nat, expected: Pointer, desired: Pointer) returns (ok: bool)
      requires id < |heap|
      modifies this`heap
      ensures ok <==> old(heap)[id].next == expected
      ensures heap == if ok then old(heap)[id := old(heap)[id].(next := desired)] else old(heap)
    {
      ok := heap[id].next == expected;
      if ok { heap := heap[id := heap[id].(next := desired)]; }
    }

    /** `Snapshot`, one load at a time. */
    method SnapshotStep(pc: Pc) returns (next: Pc)
      requires InSnapshot(pc) && Dereferences(Mem(), pc)
      ensures Update(Mem(), pc) == Mem() && next == Continue(Mem(), pc)
    {
      match pc
      case SHead(op, n) => next := STail(op, head, n);
      case STail(op, h, n) =>
        next := if tail.link != Null then SNext(op, h, tail) else SConfirmTail(op, h, tail, n);
      case SNext(op, h, t) => next := SConfirmTail(op, h, t, heap[t.link.id].next);
      case SConfirmTail(op, h, t, n) =>
        next := if tail == t then SConfirmHead(op, h, t, n) else STail(op, h, n);
      case SConfirmHead(op, h, t, n) =>
        next := if head == h then Decide(op, h, t, n) else SHead(op, n);
    }

    /** The compare-and-swaps of an enqueue that is not helping. */
    method EnqueueStep(pc: Pc) returns (next: Pc)
      requires pc.EAppend? || pc.EMoveTail? || pc.EFirstTail? || pc.EFirstHead?
      requires Dereferences(Mem(), pc)
      modifies this`head, this`tail, this`heap, this`live, this`added
      ensures Mem() == Update(old(Mem()), pc) && next == Continue(old(Mem()), pc)
    {
      var ok;
      match pc
      case EAppend(o, t, n) =>
        ok := CasNext(t.link.id, n, Pointer(To(o), n.counter + 1, ENQ));
        if ok { live, added := live + [o], added + [DataOf(old(Mem()), o)]; }
        next := if ok then EMoveTail(o, t) else Again(Enq(o));
      case EMoveTail(o, t) =>
        ok := CasTail(t, To(o));
        next := EDone;
      case EFirstTail(o, h, t) =>
        ok := CasTail(t, To(o));
        if ok { live, added := live + [o], added + [DataOf(Mem(), o)]; }
        next := if ok then EFirstHead(o, h) else Again(Enq(o));
      case EFirstHead(o, h) =>
        ok := CasHead(h, To(o));
        next := EDone;
    }

    /** A dequeue that shifts the head, or swings a lagging tail. */
    method ShiftStep(pc: Pc) returns (next: Pc)
      requires pc.DReadNext? || pc.DShiftHead? || pc.DReadLag?
      requires Dereferences(Mem(), pc)
      modifies this`head, this`live, this`removed
      ensures Mem() == Update(old(Mem()), pc) && next == Continue(old(Mem()), pc)
    {
      match pc
      case DReadNext(h) => next := DShiftHead(h, heap[h.link.id].next.link);
      case DShiftHead(h, to) =>
        var ok := CasHead(h, to);
        if ok { live, removed := if live == [] then [] else live[1..], removed + 1; }
        next := if ok then DDelinkRead(IdOf(h.link)) else Again(Deq);
      case DReadLag(t) => next := HSwingTail(Deq, t, heap[t.link.id].next.link);
    }

    /** A dequeue of the only object, in three compare-and-swaps. */
    method MarkStep(pc: Pc) returns (next: Pc)
      requires pc.DMark? || pc.DNullTail? || pc.DNullHead?
      requires Dereferences(Mem(), pc)
      modifies this`head, this`tail, this`heap, this`live, this`removed
      ensures Mem() == Update(old(Mem()), pc) && next == Continue(old(Mem()), pc)
    {
      var ok;
      match pc
      case DMark(h, t, n) =>
        ok := CasNext(t.link.id, n, Pointer(n.link, n.counter + 1, DEQ));
        if ok { live, removed := if live == [] then [] else live[1..], removed + 1; }
        next := if ok then DNullTail(IdOf(h.link), h, t) else Again(Deq);
      case DNullTail(d, h, t) =>
        ok := CasTail(t, Null);
        next := DNullHead(d, h);
      case DNullHead(d, h) =>
        ok := CasHead(h, Null);
        next := DDelinkRead(d);
    }

    /** Delinking the dequeued object: a load, then a plain store. */
    method DelinkStep(pc: Pc) returns (next: Pc)
      requires (pc.DDelinkRead? || pc.DDelink?) && Dereferences(Mem(), pc)
      modifies this`heap
      ensures Mem() == Update(old(Mem()), pc) && next == Continue(old(Mem()), pc)
    {
      match pc
      case DDelinkRead(d) => next := DDelink(d, heap[d].next.counter);
      case DDelink(d, counter) =>
        heap := heap[d := heap[d].(next := Pointer(Null, counter + 1, ENQ))];
        next := DDone(heap[d].data);
    }

    /** Finishing what another thread has left half done at the tail. */
    method HelpTailStep(pc: Pc) returns (next: Pc)
      requires pc.HSwingTail? || pc.HNullTail?
      modifies this`tail
      ensures Mem() == Update(old(Mem()), pc) && next == Continue(old(Mem()), pc)
    {
      var ok;
      match pc
      case HSwingTail(op, t, to) =>
        ok := CasTail(t, to);
        next := Again(op);
      case HNullTail(op, h, t) =>
        ok := CasTail(t, Null);
        next := HNullHead(op, h);
    }

    /** The same at the head. */
    method HelpHeadStep(pc: Pc) returns (next: Pc)
      requires pc.HNullHead? || pc.HFixHead?
      modifies this`head
      ensures Mem() == Update(old(Mem()), pc) && next == Continue(old(Mem()), pc)
    {
      var ok;
      match pc
      case HNullHead(op, h) =>
        ok := CasHead(h, Null);
        next := Again(op);
      case HFixHead(op, h, t) =>
        ok := CasHead(h, t.link);
        next := Again(op);
    }

    /** One access of a thread that is at pc; nothing it follows is missing. */
    method Access(pc: Pc) returns (next: Pc)
      requires Dereferences(Mem(), pc)
      modifies this
      ensures threads == old(threads)
      ensures Mem() == Update(old(Mem()), pc) && next == Continue(old(Mem()), pc)
    {
      if InSnapshot(pc) {
        next := SnapshotStep(pc);
      } else if pc.EAppend? || pc.EMoveTail? || pc.EFirstTail? || pc.EFirstHead? {
        next := EnqueueStep(pc);
      } else if pc.DReadNext? || pc.DShiftHead? || pc.DReadLag? {
        next := ShiftStep(pc);
      } else if pc.DMark? || pc.DNullTail? || pc.DNullHead? {
        next := MarkStep(pc);
      } else if pc.DDelinkRead? || pc.DDelink? {
        next := DelinkStep(pc);
      } else if pc.HSwingTail? || pc.HNullTail? {
        next := HelpTailStep(pc);
      } else if pc.HNullHead? || pc.HFixHead? {
        next := HelpHeadStep(pc);
      } else {
        next := pc;
      }
    }

    /** The next atomic access of a thread. */
    method Step(me: Tid)
      requires Valid() && me in threads
      modifies this
      ensures Valid() && View() == Next(old(View()), me)
    {
      NextKeepsInv(View(), me);
      NullOnlyWhenMarked(Mem(), threads[me]);
      var next := Access(threads[me]);
      threads := threads[me := next];
    }
  }
}
