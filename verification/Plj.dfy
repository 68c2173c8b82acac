/**
 * PLJQueue: a linked queue without a dummy object, whose head and tail may both become null and
 * whose threads finish each other's half-done updates.
 *
 * Objects are numbered in allocation order and never freed. `live`, `added` and `removed` are
 * history: the objects in the queue, and the specification's record of items. Counters are unbounded.
 */
module Plj {
  import opened Fifo

  datatype Link = Null | To(id: nat)
  datatype Mark = ENQ | DEQ
  datatype Pointer = Pointer(link: Link, counter: nat, mark: Mark)
  datatype Object = Object(data: Item, next: Pointer)

  /** What a thread goes back to after helping: its enqueue of object o, or its dequeue. */
  datatype Op = Enq(o: nat) | Deq

  datatype Pc =
    // Snapshot
    | SHead(op: Op, next: Pointer)
    | STail(op: Op, head: Pointer, next: Pointer)
    | SNext(op: Op, head: Pointer, tail: Pointer)
    | SConfirmTail(op: Op, head: Pointer, tail: Pointer, next: Pointer)
    | SConfirmHead(op: Op, head: Pointer, tail: Pointer, next: Pointer)
    // enqueue
    | EAppend(o: nat, tail: Pointer, next: Pointer)
    | EMoveTail(o: nat, tail: Pointer)
    | EFirstTail(o: nat, head: Pointer, tail: Pointer)
    | EFirstHead(o: nat, head: Pointer)
    | EDone
    // dequeue
    | DReadNext(head: Pointer)
    | DShiftHead(head: Pointer, to: Link)
    | DMark(head: Pointer, tail: Pointer, next: Pointer)
    | DNullTail(d: nat, head: Pointer, tail: Pointer)
    | DNullHead(d: nat, head: Pointer)
    | DReadLag(tail: Pointer)
    | DDelinkRead(d: nat)
    | DDelink(d: nat, counter: nat)
    | DDone(x: Item)
    | DFalse
    // helping, in either operation
    | HSwingTail(op: Op, tail: Pointer, to: Link)
    | HNullTail(op: Op, head: Pointer, tail: Pointer)
    | HNullHead(op: Op, head: Pointer)
    | HFixHead(op: Op, head: Pointer, tail: Pointer)

  /** Shared memory, with its history. */
  datatype Memory = Memory(
    head: Pointer, tail: Pointer, heap: seq<Object>, live: seq<nat>, added: seq<Item>, removed: nat)

  datatype State = State(mem: Memory, threads: map<Tid, Pc>)

  const Nowhere := Pointer(Null, 0, ENQ)

  function Init(): State {
    State(Memory(Nowhere, Nowhere, [], [], [], 0), map[])
  }

  /** The state of Figure 2 that a snapshot shows. */
  function DetermineState(head: Pointer, tail: Pointer, next: Pointer): nat {
    if head.link != Null && head.link == tail.link then
      if next.link == Null then (if next.mark == DEQ then 4 else 3) else 5
    else if head.link != Null && tail.link != Null then
      if next.link == Null then 1 else 2
    else if head.link == Null && tail.link == Null then 7
    else if head.link != Null then 6
    else 8
  }

  /** A pointer with its counter bumped; the mark stays. */
  function Bump(p: Pointer, link: Link): Pointer {
    Pointer(link, p.counter + 1, p.mark)
  }

  function Again(op: Op): Pc {
    SHead(op, Nowhere)
  }

  /** The branch taken on a finished snapshot. */
  function Decide(op: Op, head: Pointer, tail: Pointer, next: Pointer): Pc {
    var state := DetermineState(head, tail, next);
    if state == 4 then HNullTail(op, head, tail)
    else if state == 6 then HNullHead(op, head)
    else if state == 8 then HFixHead(op, head, tail)
    else match op
      case Enq(o) =>
        if state == 1 || state == 3 then EAppend(o, tail, next)
        else if state == 7 then EFirstTail(o, head, tail)
        else HSwingTail(op, tail, next.link)
      case Deq =>
        if state == 1 || state == 2 then DReadNext(head)
        else if state == 3 then DMark(head, tail, next)
        else if state == 5 then DReadLag(tail)
        else DFalse
  }

  function CasTail(s: Memory, expected: Pointer, link: Link): Memory {
    if s.tail == expected then s.(tail := Bump(expected, link)) else s
  }

  function CasHead(s: Memory, expected: Pointer, link: Link): Memory {
    if s.head == expected then s.(head := Bump(expected, link)) else s
  }

  /** The `next` field of the object a pointer points to; dereferencing null would be an error. */
  predicate CanFollow(s: Memory, p: Link) {
    p.To? && p.id < |s.heap|
  }

  function IdOf(p: Link): nat {
    if p.To? then p.id else 0
  }

  function NextOf(s: Memory, p: Link): Pointer {
    if CanFollow(s, p) then s.heap[p.id].next else Nowhere
  }

  function SetNext(s: Memory, p: Link, next: Pointer): Memory {
    if CanFollow(s, p) then s.(heap := s.heap[p.id := s.heap[p.id].(next := next)]) else s
  }

  function DataOf(s: Memory, id: nat): Item {
    if id < |s.heap| then s.heap[id].data else 0
  }

  // ---- The updates of shared memory, with the history they make ----

  /** Object o becomes the successor of the object p points to. */
  function Appended(s: Memory, p: Link, o: nat, next: Pointer): Memory {
    SetNext(s, p, Pointer(To(o), next.counter + 1, ENQ))
      .(live := s.live + [o], added := s.added + [DataOf(s, o)])
  }

  /** Object o becomes the tail of an empty queue. */
  function FirstPut(s: Memory, o: nat): Memory {
    s.(tail := Bump(s.tail, To(o)), live := s.live + [o], added := s.added + [DataOf(s, o)])
  }

  /** The first object leaves the queue by a shift of the head. */
  function Shifted(s: Memory, to: Link): Memory {
    s.(head := Bump(s.head, to), live := if s.live == [] then [] else s.live[1..], removed := s.removed + 1)
  }

  /** The only object leaves the queue by a DEQ mark. */
  function MarkPut(s: Memory, p: Link, next: Pointer): Memory {
    SetNext(s, p, Pointer(next.link, next.counter + 1, DEQ))
      .(live := if s.live == [] then [] else s.live[1..], removed := s.removed + 1)
  }

  function Delinked(s: Memory, d: nat, counter: nat): Memory {
    SetNext(s, To(d), Pointer(Null, counter + 1, ENQ))
  }

  /** Shared memory after the access a thread at pc makes. */
  function Update(s: Memory, pc: Pc): Memory {
    match pc
    case EAppend(o, tail, next) => if NextOf(s, tail.link) == next then Appended(s, tail.link, o, next) else s
    case EMoveTail(o, tail) => CasTail(s, tail, To(o))
    case EFirstTail(o, head, tail) => if s.tail == tail then FirstPut(s, o) else s
    case EFirstHead(o, head) => CasHead(s, head, To(o))
    case DShiftHead(head, to) => if s.head == head then Shifted(s, to) else s
    case DMark(head, tail, next) => if NextOf(s, tail.link) == next then MarkPut(s, tail.link, next) else s
    case DNullTail(d, head, tail) => CasTail(s, tail, Null)
    case DNullHead(d, head) => CasHead(s, head, Null)
    case DDelink(d, counter) => Delinked(s, d, counter)
    case HSwingTail(op, tail, to) => CasTail(s, tail, to)
    case HNullTail(op, head, tail) => CasTail(s, tail, Null)
    case HNullHead(op, head) => CasHead(s, head, Null)
    case HFixHead(op, head, tail) => CasHead(s, head, tail.link)
    case _ => s
  }

  /** Where a thread at pc goes after its access. */
  function Continue(s: Memory, pc: Pc): Pc {
    match pc
    case SHead(op, next) => STail(op, s.head, next)
    case STail(op, head, next) =>
      if s.tail.link != Null then SNext(op, head, s.tail) else SConfirmTail(op, head, s.tail, next)
    case SNext(op, head, tail) => SConfirmTail(op, head, tail, NextOf(s, tail.link))
    case SConfirmTail(op, head, tail, next) =>
      if s.tail == tail then SConfirmHead(op, head, tail, next) else STail(op, head, next)
    case SConfirmHead(op, head, tail, next) =>
      if s.head == head then Decide(op, head, tail, next) else SHead(op, next)
    case EAppend(o, tail, next) =>
      if NextOf(s, tail.link) == next then EMoveTail(o, tail) else Again(Enq(o))
    case EMoveTail(_, _) => EDone
    case EFirstTail(o, head, tail) => if s.tail == tail then EFirstHead(o, head) else Again(Enq(o))
    case EFirstHead(_, _) => EDone
    case DReadNext(head) => DShiftHead(head, NextOf(s, head.link).link)
    case DShiftHead(head, _) => if s.head == head then DDelinkRead(IdOf(head.link)) else Again(Deq)
    case DMark(head, tail, next) =>
      if NextOf(s, tail.link) == next then DNullTail(IdOf(head.link), head, tail) else Again(Deq)
    case DNullTail(d, head, _) => DNullHead(d, head)
    case DNullHead(d, _) => DDelinkRead(d)
    case DReadLag(tail) => HSwingTail(Deq, tail, NextOf(s, tail.link).link)
    case DDelinkRead(d) => DDelink(d, NextOf(s, To(d)).counter)
    case DDelink(d, _) => DDone(DataOf(s, d))
    case HSwingTail(op, _, _) => Again(op)
    case HNullTail(op, head, _) => HNullHead(op, head)
    case HNullHead(op, _) => Again(op)
    case HFixHead(op, _, _) => Again(op)
    case _ => pc
  }

  /** The next atomic access of thread `me`. */
  function Next(s: State, me: Tid): State {
    if me !in s.threads then s else
    var pc := s.threads[me];
    State(Update(s.mem, pc), s.threads[me := Continue(s.mem, pc)])
  }

  predicate IsIdle(s: State, me: Tid) {
    me in s.threads ==> s.threads[me].EDone? || s.threads[me].DDone? || s.threads[me].DFalse?
  }

  function Allocated(s: Memory, x: Item): Memory {
    s.(heap := s.heap + [Object(x, Nowhere)])
  }

  /** A call begins; an enqueue first allocates its object. */
  function Begin(s: State, me: Tid, call: Call): State {
    match call
    case Enqueue(x) =>
      State(Allocated(s.mem, x), s.threads[me := Again(Enq(|s.mem.heap|))])
    case Dequeue => s.(threads := s.threads[me := Again(Deq)])
  }

  // ---- The shape of the shared structure ----

  predicate Ends(p: Pointer) {
    p.link == Null && p.mark == ENQ
  }

  predicate Marks(p: Pointer) {
    p.link == Null && p.mark == DEQ
  }

  /** The live objects form one chain, and hold the items the specification says. */
  ghost predicate ChainOk(s: Memory) {
    var q := s.live;
    && (forall i | 0 <= i < |q| :: q[i] < |s.heap|)
    && (forall i, j | 0 <= i < j < |q| :: q[i] != q[j])
    && (forall i, j | 0 <= i && j == i + 1 && j < |q| :: s.heap[q[i]].next.link == To(q[j]))
    && (q != [] ==> Ends(s.heap[q[|q| - 1]].next))
    && |s.added| == s.removed + |q|
    && (forall i | 0 <= i < |q| :: s.heap[q[i]].data == s.added[s.removed + i])
  }

  /** The sole object is marked for dequeuing, and head and tail still point to it. */
  predicate Marked(s: Memory) {
    s.live == [] && s.head.link.To? && s.tail.link == s.head.link
  }

  predicate TailNulled(s: Memory) {
    s.head.link.To? && s.tail.link == Null
  }

  predicate HeadMissing(s: Memory) {
    s.head.link == Null && s.tail.link.To?
  }

  /** Where head and tail stand with respect to the chain. */
  ghost predicate EndsOk(s: Memory) {
    var q := s.live;
    match (s.head.link, s.tail.link)
    case (Null, Null) => q == []
    case (Null, To(y)) => q == [y]
    case (To(h), Null) => q == [] && h < |s.heap| && Marks(s.heap[h].next)
    case (To(h), To(y)) =>
      if q == [] then h == y && h < |s.heap| && Marks(s.heap[h].next)
      else q[0] == h && (y == q[|q| - 1] || (2 <= |q| && y == q[|q| - 2]))
  }

  // ---- What a thread knows ----

  /** p was read earlier from a word that is now cur. */
  predicate PtrLe(p: Pointer, cur: Pointer) {
    p.counter < cur.counter || p == cur
  }

  /** Object y ends the chain, and the tail word is t. */
  predicate AtEnd(s: Memory, t: Pointer, y: nat) {
    s.live != [] && s.live[|s.live| - 1] == y && s.tail == t
  }

  /** The tail lags one behind: it is at y, and z is the last object. */
  predicate Lags(s: Memory, y: nat, z: nat) {
    2 <= |s.live| && s.live[|s.live| - 2] == y && s.live[|s.live| - 1] == z
  }

  /** There are at least two objects and the tail is not at the first. */
  predicate Long(s: Memory) {
    2 <= |s.live| && s.tail.link.To? && s.tail.link != s.head.link
  }

  /** What is known since `next` was read from the object of a tail word that was then current. */
  predicate Seen(s: Memory, tail: Pointer, next: Pointer) {
    tail.link.To? ==>
      && (Ends(next) && NextOf(s, tail.link) == next ==> AtEnd(s, tail, tail.link.id))
      && (next.link.To? && s.tail == tail ==> Lags(s, tail.link.id, next.link.id))
      && (Marks(next) && s.tail == tail ==> Marked(s))
  }

  /** A marked queue is on its way to (null, null). */
  predicate Emptying(s: Memory, tail: Pointer) {
    (Marked(s) && s.tail == tail) || TailNulled(s)
  }

  /** What is known as long as the head word has not changed since the snapshot. */
  predicate Held(s: Memory, head: Pointer, tail: Pointer, next: Pointer) {
    && (head.link.To? && tail.link.To? && head.link != tail.link ==>
          Long(s) && (next.link == Null ==> next.mark == ENQ))
    && (head.link.To? && tail.link == head.link && Marks(next) ==> Emptying(s, tail))
    && (head.link.To? && tail.link == Null ==> TailNulled(s))
    && (head.link == Null && tail.link.To? ==> HeadMissing(s) && s.tail == tail)
  }

  /** The tail word can be followed, and next was read from its object. */
  predicate Followed(s: Memory, tail: Pointer, next: Pointer) {
    tail.link.To? ==> CanFollow(s, tail.link) && PtrLe(next, NextOf(s, tail.link))
  }

  /** o is known to its enqueuer only. */
  predicate Private(s: Memory, o: nat) {
    && o < |s.heap| && o !in s.live && s.heap[o].next == Nowhere
    && s.head.link != To(o) && s.tail.link != To(o)
  }

  predicate OpOk(s: Memory, op: Op) {
    op.Enq? ==> Private(s, op.o)
  }

  /** d has been dequeued, and its next is not one that an append or a mark could expect. */
  predicate Removed(s: Memory, d: nat) {
    d < |s.heap| && d !in s.live && !Ends(s.heap[d].next)
  }

  predicate Knows(s: Memory, pc: Pc) {
    match pc
    // in a snapshot
    case SHead(op, _) => OpOk(s, op)
    case STail(op, head, _) => OpOk(s, op) && PtrLe(head, s.head)
    case SNext(op, head, tail) =>
      OpOk(s, op) && PtrLe(head, s.head) && PtrLe(tail, s.tail) && CanFollow(s, tail.link)
    case SConfirmTail(op, head, tail, next) =>
      && OpOk(s, op) && PtrLe(head, s.head) && PtrLe(tail, s.tail) && Followed(s, tail, next)
      && (s.tail == tail ==> Seen(s, tail, next))
      && ((s.tail == tail && s.head == head && head.link.To? && head.link != tail.link
           && tail.link.To? && next.link == Null) ==> next.mark == ENQ)
    case SConfirmHead(op, head, tail, next) =>
      && OpOk(s, op) && PtrLe(head, s.head) && PtrLe(tail, s.tail) && Followed(s, tail, next)
      && Seen(s, tail, next)
      && (s.head == head ==> Held(s, head, tail, next))
    // in an enqueue
    case EAppend(o, tail, next) =>
      && Private(s, o) && tail.link.To? && Followed(s, tail, next) && Ends(next)
      && (NextOf(s, tail.link) == next ==> AtEnd(s, tail, tail.link.id) && s.head.link.To?)
    case EMoveTail(o, tail) =>
      PtrLe(tail, s.tail) && tail.link.To? && (s.tail == tail ==> Lags(s, tail.link.id, o))
    case EFirstTail(o, head, tail) =>
      && Private(s, o) && PtrLe(head, s.head) && PtrLe(tail, s.tail)
      && head.link == Null && tail.link == Null && (s.tail == tail ==> s.head == head)
    case EFirstHead(o, head) =>
      && PtrLe(head, s.head) && head.link == Null
      && (s.head == head ==> HeadMissing(s) && s.tail.link == To(o))
    // in a dequeue
    case DReadNext(head) =>
      PtrLe(head, s.head) && CanFollow(s, head.link) && (s.head == head ==> Long(s))
    case DShiftHead(head, to) =>
      && PtrLe(head, s.head) && head.link.To?
      && (s.head == head ==> Long(s) && to == To(s.live[1]))
    case DMark(head, tail, next) =>
      && head.link.To? && tail.link == head.link && Followed(s, tail, next) && Ends(next)
      && PtrLe(head, s.head)
      && (NextOf(s, tail.link) == next ==> AtEnd(s, tail, tail.link.id) && s.head == head)
    case DNullTail(d, head, tail) =>
      && Removed(s, d) && head.link == To(d) && PtrLe(head, s.head) && PtrLe(tail, s.tail)
      && (s.tail == tail ==> Marked(s)) && (s.head == head ==> Emptying(s, tail))
      && (s.head.link == To(d) ==> s.head == head) && (s.tail.link == To(d) ==> s.tail == tail)
    case DNullHead(d, head) =>
      && Removed(s, d) && head.link == To(d) && PtrLe(head, s.head)
      && (s.head == head ==> TailNulled(s))
      && (s.head.link == To(d) ==> s.head == head) && s.tail.link != To(d)
    case DReadLag(tail) =>
      && PtrLe(tail, s.tail) && CanFollow(s, tail.link)
      && (s.tail == tail ==> 2 <= |s.live| && s.live[|s.live| - 2] == tail.link.id)
    case DDelinkRead(d) => Removed(s, d) && s.head.link != To(d) && s.tail.link != To(d)
    case DDelink(d, counter) =>
      && Removed(s, d) && s.head.link != To(d) && s.tail.link != To(d)
      && s.heap[d].next.counter == counter
    // helping
    case HSwingTail(op, tail, to) =>
      && OpOk(s, op) && PtrLe(tail, s.tail) && tail.link.To?
      && (s.tail == tail ==> to.To? && Lags(s, tail.link.id, to.id))
    case HNullTail(op, head, tail) =>
      && OpOk(s, op) && PtrLe(head, s.head) && PtrLe(tail, s.tail) && tail.link.To?
      && (s.tail == tail ==> Marked(s)) && (s.head == head ==> Emptying(s, tail))
    case HNullHead(op, head) =>
      OpOk(s, op) && PtrLe(head, s.head) && (s.head == head ==> TailNulled(s))
    case HFixHead(op, head, tail) =>
      && OpOk(s, op) && PtrLe(head, s.head) && head.link == Null && tail.link.To?
      && (s.head == head ==> HeadMissing(s) && s.tail == tail)
    case _ => true
  }

  function OpOwn(op: Op): Link {
    if op.Enq? then To(op.o) else Null
  }

  /** The object only this thread may publish or delink. */
  function Own(pc: Pc): Link {
    match pc
    case SHead(op, _) => OpOwn(op)
    case STail(op, _, _) => OpOwn(op)
    case SNext(op, _, _) => OpOwn(op)
    case SConfirmTail(op, _, _, _) => OpOwn(op)
    case SConfirmHead(op, _, _, _) => OpOwn(op)
    case EAppend(o, _, _) => To(o)
    case EFirstTail(o, _, _) => To(o)
    case HSwingTail(op, _, _) => OpOwn(op)
    case HNullTail(op, _, _) => OpOwn(op)
    case HNullHead(op, _) => OpOwn(op)
    case HFixHead(op, _, _) => OpOwn(op)
    case DNullTail(d, _, _) => To(d)
    case DNullHead(d, _) => To(d)
    case DDelinkRead(d) => To(d)
    case DDelink(d, _) => To(d)
    case _ => Null
  }

  predicate Apart(a: Pc, b: Pc) {
    Own(a).To? ==> Own(a) != Own(b)
  }

  ghost predicate Shape(s: Memory) {
    ChainOk(s) && EndsOk(s)
  }

  ghost predicate Inv(s: State) {
    && Shape(s.mem)
    && (forall b <- s.threads :: Knows(s.mem, s.threads[b]))
    && (forall a, b | a in s.threads && b in s.threads && a != b :: Apart(s.threads[a], s.threads[b]))
  }

  // ---- Each update keeps the shape and what the other threads know ----

  lemma AppendKeepsShape(s: Memory, tail: Pointer, next: Pointer, o: nat)
    requires Shape(s) && s.head.link.To? && tail.link.To? && AtEnd(s, tail, tail.link.id) && Private(s, o)
    ensures Shape(Appended(s, tail.link, o, next))
  {}

  lemma AppendKeepsConfirm(s: Memory, tail: Pointer, next: Pointer, o: nat, pb: Pc)
    requires Shape(s) && s.head.link.To? && tail.link.To? && AtEnd(s, tail, tail.link.id) && Private(s, o)
    requires NextOf(s, tail.link) == next
    requires Knows(s, pb) && Own(pb) != To(o)
    requires pb.SConfirmTail? || pb.SConfirmHead?
    ensures Knows(Appended(s, tail.link, o, next), pb)
  {}

  lemma AppendKeepsWorkOnNext(s: Memory, tail: Pointer, next: Pointer, o: nat, pb: Pc)
    requires Shape(s) && s.head.link.To? && tail.link.To? && AtEnd(s, tail, tail.link.id) && Private(s, o)
    requires NextOf(s, tail.link) == next
    requires Knows(s, pb) && Own(pb) != To(o)
    requires !pb.SConfirmTail? && !pb.SConfirmHead?
    requires pb.EAppend? || pb.DMark?
    ensures Knows(Appended(s, tail.link, o, next), pb)
  {}

  lemma AppendKeepsWorkOnEnds(s: Memory, tail: Pointer, next: Pointer, o: nat, pb: Pc)
    requires Shape(s) && s.head.link.To? && tail.link.To? && AtEnd(s, tail, tail.link.id) && Private(s, o)
    requires NextOf(s, tail.link) == next
    requires Knows(s, pb) && Own(pb) != To(o)
    requires !pb.SConfirmTail? && !pb.SConfirmHead?
    requires !pb.EAppend? && !pb.DMark?
    ensures Knows(Appended(s, tail.link, o, next), pb)
  {}

  lemma AppendKeepsWork(s: Memory, tail: Pointer, next: Pointer, o: nat, pb: Pc)
    requires Shape(s) && s.head.link.To? && tail.link.To? && AtEnd(s, tail, tail.link.id) && Private(s, o)
    requires NextOf(s, tail.link) == next
    requires Knows(s, pb) && Own(pb) != To(o)
    requires !pb.SConfirmTail? && !pb.SConfirmHead?
    ensures Knows(Appended(s, tail.link, o, next), pb)
  {
    if pb.EAppend? || pb.DMark? {
      AppendKeepsWorkOnNext(s, tail, next, o, pb);
    } else {
      AppendKeepsWorkOnEnds(s, tail, next, o, pb);
    }
  }

  lemma MoveTailKeepsShape(s: Memory, y: nat, z: nat)
    requires Shape(s) && Lags(s, y, z) && s.tail.link == To(y)
    ensures Shape(s.(tail := Bump(s.tail, To(z))))
  {}

  lemma MoveTailKeeps(s: Memory, y: nat, z: nat, pb: Pc)
    requires Shape(s) && Lags(s, y, z) && s.tail.link == To(y) && Knows(s, pb)
    ensures Knows(s.(tail := Bump(s.tail, To(z))), pb)
  {}

  lemma FirstPutKeepsShape(s: Memory, o: nat)
    requires Shape(s) && s.head.link == s.tail.link == Null && Private(s, o)
    ensures Shape(FirstPut(s, o))
  {}

  lemma FirstPutKeeps(s: Memory, o: nat, pb: Pc)
    requires Shape(s) && s.head.link == s.tail.link == Null && Private(s, o)
    requires Knows(s, pb) && Own(pb) != To(o)
    ensures Knows(FirstPut(s, o), pb)
  {}

  lemma FixHeadKeeps(s: Memory, pb: Pc)
    requires Shape(s) && HeadMissing(s) && Knows(s, pb)
    ensures Shape(s.(head := Bump(s.head, s.tail.link)))
    ensures Knows(s.(head := Bump(s.head, s.tail.link)), pb)
  {}

  lemma ShiftKeepsChain(s: Memory, to: Link)
    requires ChainOk(s) && 2 <= |s.live|
    ensures ChainOk(Shifted(s, to))
  {
    var s' := Shifted(s, to);
    forall i | 0 <= i < |s'.live|
      ensures s'.live[i] == s.live[i + 1] && s'.heap[s'.live[i]].data == s'.added[s'.removed + i]
    {
      assert s.heap[s.live[i + 1]].data == s.added[s.removed + (i + 1)];
    }
  }

  lemma ShiftKeepsShape(s: Memory)
    requires Shape(s) && Long(s) && s.head.link.To?
    ensures Shape(Shifted(s, To(s.live[1])))
  {
    ShiftKeepsChain(s, To(s.live[1]));
  }

  lemma ShiftKeepsSeen(s: Memory, tail: Pointer, next: Pointer)
    requires Shape(s) && Long(s) && s.head.link.To? && Seen(s, tail, next)
    ensures Seen(Shifted(s, To(s.live[1])), tail, next)
  {}

  lemma ShiftKeepsConfirm(s: Memory, pb: Pc)
    requires Shape(s) && Long(s) && s.head.link.To? && Knows(s, pb)
    requires pb.SConfirmTail? || pb.SConfirmHead?
    ensures Knows(Shifted(s, To(s.live[1])), pb)
  {
    if Seen(s, pb.tail, pb.next) { ShiftKeepsSeen(s, pb.tail, pb.next); }
  }

  lemma ShiftKeepsWork(s: Memory, pb: Pc)
    requires Shape(s) && Long(s) && s.head.link.To? && Knows(s, pb)
    requires !pb.SConfirmTail? && !pb.SConfirmHead?
    ensures Knows(Shifted(s, To(s.live[1])), pb)
  {}

  lemma MarkKeepsShape(s: Memory, tail: Pointer, next: Pointer)
    requires Shape(s) && tail.link.To? && AtEnd(s, tail, tail.link.id) && s.head.link == tail.link
    requires NextOf(s, tail.link) == next
    ensures Shape(MarkPut(s, tail.link, next))
  {}

  lemma MarkKeepsConfirm(s: Memory, tail: Pointer, next: Pointer, pb: Pc)
    requires Shape(s) && tail.link.To? && AtEnd(s, tail, tail.link.id) && s.head.link == tail.link
    requires NextOf(s, tail.link) == next && Knows(s, pb)
    requires pb.SConfirmTail? || pb.SConfirmHead?
    ensures Knows(MarkPut(s, tail.link, next), pb)
  {}

  lemma MarkKeepsWork(s: Memory, tail: Pointer, next: Pointer, pb: Pc)
    requires Shape(s) && tail.link.To? && AtEnd(s, tail, tail.link.id) && s.head.link == tail.link
    requires NextOf(s, tail.link) == next && Knows(s, pb)
    requires !pb.SConfirmTail? && !pb.SConfirmHead?
    ensures Knows(MarkPut(s, tail.link, next), pb)
  {}

  lemma NullTailKeeps(s: Memory, pb: Pc)
    requires Shape(s) && Marked(s) && Knows(s, pb)
    ensures Shape(s.(tail := Bump(s.tail, Null))) && Knows(s.(tail := Bump(s.tail, Null)), pb)
  {}

  lemma NullHeadKeeps(s: Memory, pb: Pc)
    requires Shape(s) && TailNulled(s) && Knows(s, pb)
    ensures Shape(s.(head := Bump(s.head, Null))) && Knows(s.(head := Bump(s.head, Null)), pb)
  {}

  lemma DelinkKeepsShape(s: Memory, d: nat, counter: nat)
    requires Shape(s) && Removed(s, d) && s.head.link != To(d) && s.tail.link != To(d)
    ensures Shape(Delinked(s, d, counter))
  {
    var s' := Delinked(s, d, counter);
    assert forall i | 0 <= i < |s.live| :: s'.heap[s.live[i]] == s.heap[s.live[i]];
  }

  /** Pointers a thread holds to objects other than d lead to the same next as before. */
  lemma DelinkKeepsSeen(s: Memory, d: nat, counter: nat, tail: Pointer, next: Pointer)
    requires Removed(s, d) && s.heap[d].next.counter == counter
    requires Followed(s, tail, next)
    ensures Followed(Delinked(s, d, counter), tail, next)
    ensures Seen(s, tail, next) ==> Seen(Delinked(s, d, counter), tail, next)
    ensures Ends(next) && NextOf(Delinked(s, d, counter), tail.link) == next ==> NextOf(s, tail.link) == next
  {}

  lemma DelinkKeepsConfirm(s: Memory, d: nat, counter: nat, pb: Pc)
    requires Removed(s, d) && s.head.link != To(d) && s.tail.link != To(d)
    requires s.heap[d].next.counter == counter && Knows(s, pb) && Own(pb) != To(d)
    requires pb.SConfirmTail? || pb.SConfirmHead?
    ensures Knows(Delinked(s, d, counter), pb)
  {
    DelinkKeepsSeen(s, d, counter, pb.tail, pb.next);
  }

  lemma DelinkKeepsWork(s: Memory, d: nat, counter: nat, pb: Pc)
    requires Removed(s, d) && s.head.link != To(d) && s.tail.link != To(d)
    requires s.heap[d].next.counter == counter && Knows(s, pb) && Own(pb) != To(d)
    requires !pb.SConfirmTail? && !pb.SConfirmHead?
    ensures Knows(Delinked(s, d, counter), pb)
  {
    if pb.EAppend? || pb.DMark? { DelinkKeepsSeen(s, d, counter, pb.tail, pb.next); }
  }

  // ---- The step of one thread ----

  lemma UpdateKeepsShape(s: Memory, pc: Pc)
    requires Shape(s) && Knows(s, pc)
    ensures Shape(Update(s, pc))
  {
    match pc
    case EAppend(o, tail, next) => if NextOf(s, tail.link) == next { AppendKeepsShape(s, tail, next, o); }
    case EMoveTail(o, tail) => if s.tail == tail { MoveTailKeepsShape(s, tail.link.id, o); }
    case HSwingTail(op, tail, to) => if s.tail == tail { MoveTailKeepsShape(s, tail.link.id, to.id); }
    case EFirstTail(o, head, tail) => if s.tail == tail { FirstPutKeepsShape(s, o); }
    case EFirstHead(o, head) => if s.head == head { FixHeadKeeps(s, pc); }
    case HFixHead(op, head, tail) => if s.head == head { FixHeadKeeps(s, pc); }
    case DShiftHead(head, to) => if s.head == head { ShiftKeepsShape(s); }
    case DMark(head, tail, next) => if NextOf(s, tail.link) == next { MarkKeepsShape(s, tail, next); }
    case DNullTail(d, head, tail) => if s.tail == tail { NullTailKeeps(s, pc); }
    case HNullTail(op, head, tail) => if s.tail == tail { NullTailKeeps(s, pc); }
    case DNullHead(d, head) => if s.head == head { NullHeadKeeps(s, pc); }
    case HNullHead(op, head) => if s.head == head { NullHeadKeeps(s, pc); }
    case DDelink(d, counter) => DelinkKeepsShape(s, d, counter);
    case _ =>
  }

  lemma EnqueueKeepsOther(s: Memory, pc: Pc, pb: Pc)
    requires Shape(s) && Knows(s, pc) && Knows(s, pb) && Apart(pc, pb)
    requires pc.EAppend? || pc.EFirstTail?
    ensures Knows(Update(s, pc), pb)
  {
    if pc.EFirstTail? {
      if s.tail == pc.tail { FirstPutKeeps(s, pc.o, pb); }
    } else if NextOf(s, pc.tail.link) == pc.next {
      if pb.SConfirmTail? || pb.SConfirmHead? {
        AppendKeepsConfirm(s, pc.tail, pc.next, pc.o, pb);
      } else {
        AppendKeepsWork(s, pc.tail, pc.next, pc.o, pb);
      }
    }
  }

  lemma RemovalKeepsOther(s: Memory, pc: Pc, pb: Pc)
    requires Shape(s) && Knows(s, pc) && Knows(s, pb) && Apart(pc, pb)
    requires pc.DShiftHead? || pc.DMark? || pc.DDelink?
    ensures Knows(Update(s, pc), pb)
  {
    var confirm := pb.SConfirmTail? || pb.SConfirmHead?;
    match pc
    case DShiftHead(head, to) =>
      if s.head == head {
        if confirm { ShiftKeepsConfirm(s, pb); } else { ShiftKeepsWork(s, pb); }
      }
    case DMark(head, tail, next) =>
      if NextOf(s, tail.link) == next {
        if confirm { MarkKeepsConfirm(s, tail, next, pb); } else { MarkKeepsWork(s, tail, next, pb); }
      }
    case DDelink(d, counter) =>
      if confirm { DelinkKeepsConfirm(s, d, counter, pb); } else { DelinkKeepsWork(s, d, counter, pb); }
  }

  lemma SwingKeepsOther(s: Memory, pc: Pc, pb: Pc)
    requires Shape(s) && Knows(s, pc) && Knows(s, pb)
    requires pc.EMoveTail? || pc.HSwingTail? || pc.EFirstHead? || pc.HFixHead?
    ensures Knows(Update(s, pc), pb)
  {
    match pc
    case EMoveTail(o, tail) => if s.tail == tail { MoveTailKeeps(s, tail.link.id, o, pb); }
    case HSwingTail(op, tail, to) => if s.tail == tail { MoveTailKeeps(s, tail.link.id, to.id, pb); }
    case EFirstHead(o, head) => if s.head == head { FixHeadKeeps(s, pb); }
    case HFixHead(op, head, tail) => if s.head == head { FixHeadKeeps(s, pb); }
  }

  lemma NullKeepsOther(s: Memory, pc: Pc, pb: Pc)
    requires Shape(s) && Knows(s, pc) && Knows(s, pb)
    requires pc.DNullTail? || pc.HNullTail? || pc.DNullHead? || pc.HNullHead?
    ensures Knows(Update(s, pc), pb)
  {
    if pc.DNullTail? || pc.HNullTail? {
      if s.tail == pc.tail { NullTailKeeps(s, pb); }
    } else {
      if s.head == pc.head { NullHeadKeeps(s, pb); }
    }
  }

  lemma UpdateKeepsOther(s: Memory, pc: Pc, pb: Pc)
    requires Shape(s) && Knows(s, pc) && Knows(s, pb) && Apart(pc, pb)
    ensures Knows(Update(s, pc), pb)
  {
    if pc.EAppend? || pc.EFirstTail? {
      EnqueueKeepsOther(s, pc, pb);
    } else if pc.DShiftHead? || pc.DMark? || pc.DDelink? {
      RemovalKeepsOther(s, pc, pb);
    } else if pc.EMoveTail? || pc.HSwingTail? || pc.EFirstHead? || pc.HFixHead? {
      SwingKeepsOther(s, pc, pb);
    } else if pc.DNullTail? || pc.HNullTail? || pc.DNullHead? || pc.HNullHead? {
      NullKeepsOther(s, pc, pb);
    } else {
      OnlyReads(s, pc);
    }
  }

  lemma OnlyReads(s: Memory, pc: Pc)
    requires !pc.EAppend? && !pc.EFirstTail? && !pc.DShiftHead? && !pc.DMark? && !pc.DDelink?
    requires !pc.EMoveTail? && !pc.HSwingTail? && !pc.EFirstHead? && !pc.HFixHead?
    requires !pc.DNullTail? && !pc.HNullTail? && !pc.DNullHead? && !pc.HNullHead?
    ensures Update(s, pc) == s
  {}

  // ---- What the stepping thread knows afterwards ----

  predicate InSnapshot(pc: Pc) {
    pc.SHead? || pc.STail? || pc.SNext? || pc.SConfirmTail? || pc.SConfirmHead?
  }

  lemma SnapshotKnows(s: Memory, pc: Pc)
    requires Shape(s) && Knows(s, pc) && InSnapshot(pc) && !pc.SConfirmHead?
    ensures Knows(s, Continue(s, pc))
  {}

  lemma HelpDecisionKnows(s: Memory, op: Op, head: Pointer, tail: Pointer, next: Pointer)
    requires Shape(s) && Knows(s, SConfirmHead(op, head, tail, next)) && s.head == head
    requires var state := DetermineState(head, tail, next); state == 4 || state == 6 || state == 8
    ensures Knows(s, Decide(op, head, tail, next))
  {}

  lemma EnqueueDecisionKnows(s: Memory, op: Op, head: Pointer, tail: Pointer, next: Pointer)
    requires Shape(s) && Knows(s, SConfirmHead(op, head, tail, next)) && s.head == head
    requires var state := DetermineState(head, tail, next); state != 4 && state != 6 && state != 8
    requires op.Enq?
    ensures Knows(s, Decide(op, head, tail, next))
  {}

  lemma DequeueDecisionKnows(s: Memory, op: Op, head: Pointer, tail: Pointer, next: Pointer)
    requires Shape(s) && Knows(s, SConfirmHead(op, head, tail, next)) && s.head == head
    requires var state := DetermineState(head, tail, next); state != 4 && state != 6 && state != 8
    requires op.Deq?
    ensures Knows(s, Decide(op, head, tail, next))
  {}

  /** The branch taken on a snapshot rests on facts that still bind the compare-and-swaps it makes. */
  lemma DecisionKnows(s: Memory, op: Op, head: Pointer, tail: Pointer, next: Pointer)
    requires Shape(s) && Knows(s, SConfirmHead(op, head, tail, next)) && s.head == head
    ensures Knows(s, Decide(op, head, tail, next))
  {
    var state := DetermineState(head, tail, next);
    if state == 4 || state == 6 || state == 8 {
      HelpDecisionKnows(s, op, head, tail, next);
    } else if op.Enq? {
      EnqueueDecisionKnows(s, op, head, tail, next);
    } else {
      DequeueDecisionKnows(s, op, head, tail, next);
    }
  }

  lemma EnqueueKnows(s: Memory, pc: Pc)
    requires Shape(s) && Knows(s, pc) && (pc.EAppend? || pc.EMoveTail? || pc.EFirstTail? || pc.EFirstHead?)
    ensures Knows(Update(s, pc), Continue(s, pc))
  {}

  lemma DequeueKnows(s: Memory, pc: Pc)
    requires Shape(s) && Knows(s, pc)
    requires pc.DReadNext? || pc.DShiftHead? || pc.DReadLag? || pc.DDelinkRead? || pc.DDelink?
    ensures Knows(Update(s, pc), Continue(s, pc))
  {}

  lemma MarkKnows(s: Memory, pc: Pc)
    requires Shape(s) && Knows(s, pc) && (pc.DMark? || pc.DNullTail? || pc.DNullHead?)
    ensures Knows(Update(s, pc), Continue(s, pc))
  {}

  lemma HelpKnows(s: Memory, pc: Pc)
    requires Shape(s) && Knows(s, pc)
    requires pc.HSwingTail? || pc.HNullTail? || pc.HNullHead? || pc.HFixHead?
    ensures Knows(Update(s, pc), Continue(s, pc))
  {}

  lemma OwnKnows(s: Memory, pc: Pc)
    requires Shape(s) && Knows(s, pc)
    ensures Knows(Update(s, pc), Continue(s, pc))
  {
    if pc.SConfirmHead? {
      if s.head == pc.head { DecisionKnows(s, pc.op, pc.head, pc.tail, pc.next); }
    } else if InSnapshot(pc) {
      SnapshotKnows(s, pc);
    } else if pc.EAppend? || pc.EMoveTail? || pc.EFirstTail? || pc.EFirstHead? {
      EnqueueKnows(s, pc);
    } else if pc.DReadNext? || pc.DShiftHead? || pc.DReadLag? || pc.DDelinkRead? || pc.DDelink? {
      DequeueKnows(s, pc);
    } else if pc.DMark? || pc.DNullTail? || pc.DNullHead? {
      MarkKnows(s, pc);
    } else if pc.HSwingTail? || pc.HNullTail? || pc.HNullHead? || pc.HFixHead? {
      HelpKnows(s, pc);
    }
  }

  /** An owned object is not live; a thread gains one only by taking the first live object out. */
  lemma OwnedIsNotLive(s: Memory, pc: Pc)
    requires Knows(s, pc) && Own(pc).To?
    ensures Own(pc).id < |s.heap| && Own(pc).id !in s.live
  {}

  lemma OwnAfterDecision(op: Op, head: Pointer, tail: Pointer, next: Pointer)
    ensures Own(Decide(op, head, tail, next)) == OpOwn(op) || Own(Decide(op, head, tail, next)) == Null
  {}

  lemma OwnAfterStep(s: Memory, pc: Pc)
    requires Shape(s) && Knows(s, pc)
    ensures var o := Own(Continue(s, pc)); o == Null || o == Own(pc) || (o.To? && o.id in s.live)
  {
    if pc.SConfirmHead? { OwnAfterDecision(pc.op, pc.head, pc.tail, pc.next); }
  }

  lemma NextKeepsOthersApart(s: State, me: Tid, a: Tid, b: Tid)
    requires Inv(s) && me in s.threads && a in s.threads && b in s.threads && a != b
    ensures Apart(Next(s, me).threads[a], Next(s, me).threads[b])
  {
    assert Apart(s.threads[a], s.threads[b]) && Apart(s.threads[b], s.threads[a]);
    if a == me { StaysApart(s.mem, s.threads[me], s.threads[b]); }
    if b == me { StaysApart(s.mem, s.threads[me], s.threads[a]); }
  }

  lemma NextKeepsInv(s: State, me: Tid)
    requires Inv(s)
    ensures Inv(Next(s, me))
  {
    if me in s.threads {
      var pc, s' := s.threads[me], Next(s, me);
      UpdateKeepsShape(s.mem, pc);
      OwnKnows(s.mem, pc);
      forall b <- s'.threads ensures Knows(s'.mem, s'.threads[b]) {
        if b != me { UpdateKeepsOther(s.mem, pc, s.threads[b]); }
      }
      forall a, b | a in s'.threads && b in s'.threads && a != b
        ensures Apart(s'.threads[a], s'.threads[b])
      {
        NextKeepsOthersApart(s, me, a, b);
      }
    }
  }

  lemma StaysApart(s: Memory, pc: Pc, pb: Pc)
    requires Shape(s) && Knows(s, pc) && Knows(s, pb) && Apart(pc, pb) && Apart(pb, pc)
    ensures Apart(Continue(s, pc), pb) && Apart(pb, Continue(s, pc))
  {
    OwnAfterStep(s, pc);
    if Own(pb).To? { OwnedIsNotLive(s, pb); }
  }

  lemma AllocationKeepsShape(s: Memory, x: Item)
    requires Shape(s)
    ensures Shape(Allocated(s, x))
  {
    forall i | 0 <= i < |s.live| ensures Allocated(s, x).heap[s.live[i]] == s.heap[s.live[i]] {}
  }

  lemma AllocationKeepsNext(s: Memory, x: Item)
    ensures forall i | 0 <= i < |s.heap| :: Allocated(s, x).heap[i] == s.heap[i]
    ensures forall p: Link | CanFollow(s, p) ::
      CanFollow(Allocated(s, x), p) && NextOf(Allocated(s, x), p) == NextOf(s, p)
  {}

  lemma AllocationKeepsConfirm(s: Memory, x: Item, pb: Pc)
    requires Shape(s) && Knows(s, pb) && (pb.SConfirmTail? || pb.SConfirmHead?)
    ensures Knows(Allocated(s, x), pb)
  {
    AllocationKeepsNext(s, x);
  }

  lemma AllocationKeepsWork(s: Memory, x: Item, pb: Pc)
    requires Shape(s) && Knows(s, pb) && !pb.SConfirmTail? && !pb.SConfirmHead?
    ensures Knows(Allocated(s, x), pb)
  {
    AllocationKeepsNext(s, x);
  }

  lemma AllocationKeeps(s: Memory, x: Item, pb: Pc)
    requires Shape(s) && Knows(s, pb)
    ensures Knows(Allocated(s, x), pb)
  {
    if pb.SConfirmTail? || pb.SConfirmHead? {
      AllocationKeepsConfirm(s, x, pb);
    } else {
      AllocationKeepsWork(s, x, pb);
    }
  }

  lemma BeginKeepsInv(s: State, me: Tid, call: Call)
    requires Inv(s) && IsIdle(s, me)
    ensures Inv(Begin(s, me, call))
  {
    var s' := Begin(s, me, call);
    if call.Enqueue? { AllocationKeepsShape(s.mem, call.x); }
    assert Knows(s'.mem, s'.threads[me]);
    forall b <- s'.threads
      ensures Knows(s'.mem, s'.threads[b])
      ensures b != me ==> Apart(s'.threads[me], s'.threads[b]) && Apart(s'.threads[b], s'.threads[me])
    {
      if b != me {
        if call.Enqueue? { AllocationKeeps(s.mem, call.x, s.threads[b]); }
        if Own(s.threads[b]).To? { OwnedIsNotLive(s.mem, s.threads[b]); }
      }
    }
  }

  // ---- Refinement of the atomic queue ----

  /** A dequeue that has confirmed a null tail has seen the queue empty. */
  function AbsPc(s: Memory, pc: Pc): Phase {
    match pc
    case EMoveTail(_, _) => Enqueued
    case EFirstHead(_, _) => Enqueued
    case EDone => Enqueued
    case EAppend(o, _, _) => Enqueueing(DataOf(s, o))
    case EFirstTail(o, _, _) => Enqueueing(DataOf(s, o))
    case SHead(op, _) => AbsOp(s, op, false)
    case STail(op, _, _) => AbsOp(s, op, false)
    case SNext(op, _, _) => AbsOp(s, op, false)
    case SConfirmTail(op, _, _, _) => AbsOp(s, op, false)
    case SConfirmHead(op, _, tail, _) => AbsOp(s, op, tail.link == Null)
    case HSwingTail(op, _, _) => AbsOp(s, op, false)
    case HNullTail(op, _, _) => AbsOp(s, op, false)
    case HNullHead(op, _) => AbsOp(s, op, false)
    case HFixHead(op, _, _) => AbsOp(s, op, false)
    case DNullTail(d, _, _) => Dequeued(DataOf(s, d))
    case DNullHead(d, _) => Dequeued(DataOf(s, d))
    case DDelinkRead(d) => Dequeued(DataOf(s, d))
    case DDelink(d, _) => Dequeued(DataOf(s, d))
    case DDone(x) => Dequeued(x)
    case DFalse => FoundEmpty
    case _ => Dequeueing(false)
  }

  function AbsOp(s: Memory, op: Op, sawEmpty: bool): Phase {
    match op case Enq(o) => Enqueueing(DataOf(s, o)) case Deq => Dequeueing(sawEmpty)
  }

  function Abs(s: State): Queue {
    Queue(s.mem.added, s.mem.removed, map b <- s.threads :: AbsPc(s.mem, s.threads[b]))
  }

  lemma DataIsFixed(s: Memory, pc: Pc, o: nat)
    ensures DataOf(Update(s, pc), o) == DataOf(s, o)
  {}

  lemma PhaseIsFixed(s: Memory, pc: Pc, pb: Pc)
    ensures AbsPc(Update(s, pc), pb) == AbsPc(s, pb)
  {
    forall o ensures DataOf(Update(s, pc), o) == DataOf(s, o) { DataIsFixed(s, pc, o); }
  }

  ghost predicate HasEffect(s: Memory, pc: Pc) {
    Effect(AbsPc(s, pc), AbsPc(s, Continue(s, pc)),
           s.added, s.removed, Update(s, pc).added, Update(s, pc).removed)
  }

  lemma DecisionEffect(s: Memory, pc: Pc)
    requires Knows(s, pc) && pc.SConfirmHead?
    ensures HasEffect(s, pc)
  {}

  lemma SnapshotEffect(s: Memory, pc: Pc)
    requires Shape(s) && Knows(s, pc) && InSnapshot(pc)
    ensures HasEffect(s, pc)
  {
    if pc.SConfirmHead? { DecisionEffect(s, pc); }
  }

  predicate NextToGo(s: Memory, p: Link) {
    s.removed < |s.added| && DataOf(s, IdOf(p)) == s.added[s.removed]
  }

  lemma FirstItem(s: Memory)
    requires Shape(s) && s.live != [] && s.head.link.To?
    ensures NextToGo(s, s.head.link)
  {
    assert s.heap[s.live[0]].data == s.added[s.removed + 0];
  }

  lemma ShiftEffect(s: Memory, head: Pointer, to: Link)
    requires head.link.To? && (s.head == head ==> NextToGo(s, head.link))
    ensures HasEffect(s, DShiftHead(head, to))
  {}

  lemma MarkEffect(s: Memory, head: Pointer, tail: Pointer, next: Pointer)
    requires NextOf(s, tail.link) == next ==> NextToGo(s, head.link)
    ensures HasEffect(s, DMark(head, tail, next))
  {}

  lemma EnqueueEffect(s: Memory, pc: Pc)
    requires Knows(s, pc) && (pc.EAppend? || pc.EMoveTail? || pc.EFirstTail? || pc.EFirstHead? || pc.EDone?)
    ensures HasEffect(s, pc)
  {}

  lemma DequeueEffect(s: Memory, pc: Pc)
    requires !InSnapshot(pc) && !pc.DShiftHead? && !pc.DMark?
    requires !pc.EAppend? && !pc.EMoveTail? && !pc.EFirstTail? && !pc.EFirstHead? && !pc.EDone?
    ensures HasEffect(s, pc)
  {}

  /** The abstract effect of one access: nothing, or exactly the enqueue or dequeue of its thread. */
  lemma AccessEffect(s: Memory, pc: Pc)
    requires Shape(s) && Knows(s, pc)
    ensures HasEffect(s, pc)
  {
    if InSnapshot(pc) { SnapshotEffect(s, pc); }
    else if pc.DShiftHead? {
      if s.head == pc.head { FirstItem(s); }
      ShiftEffect(s, pc.head, pc.to);
    } else if pc.DMark? {
      if NextOf(s, pc.tail.link) == pc.next { FirstItem(s); }
      MarkEffect(s, pc.head, pc.tail, pc.next);
    }
    else if pc.EAppend? || pc.EMoveTail? || pc.EFirstTail? || pc.EFirstHead? || pc.EDone? { EnqueueEffect(s, pc); }
    else { DequeueEffect(s, pc); }
  }

  lemma AbsNext(s: State, me: Tid)
    requires me in s.threads
    ensures Abs(Next(s, me)).threads == Abs(s).threads[me := AbsPc(s.mem, Continue(s.mem, s.threads[me]))]
  {
    var pc := s.threads[me];
    PhaseIsFixed(s.mem, pc, Continue(s.mem, pc));
    forall b <- s.threads ensures AbsPc(Next(s, me).mem, s.threads[b]) == AbsPc(s.mem, s.threads[b]) {
      PhaseIsFixed(s.mem, pc, s.threads[b]);
    }
  }

  lemma RefinesFifo(s: State, me: Tid)
    requires Inv(s)
    ensures Valid(Abs(s)) && Step(Abs(s), Abs(Next(s, me)), me)
  {
    if me in s.threads {
      var pc := s.threads[me];
      AbsNext(s, me);
      AccessEffect(s.mem, pc);
      EffectIsStep(Abs(s), Abs(Next(s, me)), me, AbsPc(s.mem, Continue(s.mem, pc)));
    }
  }

  // ---- Every run ----

  datatype Act = Invoke(me: Tid, call: Call) | Go(me: Tid)

  function Perform(s: State, act: Act): State {
    match act
    case Invoke(me, call) => if IsIdle(s, me) then Begin(s, me, call) else s
    case Go(me) => Next(s, me)
  }

  function Run(schedule: seq<Act>): State {
    if schedule == [] then Init()
    else Perform(Run(schedule[..|schedule| - 1]), schedule[|schedule| - 1])
  }

  lemma {:induction false} EveryRunKeepsInv(schedule: seq<Act>)
    ensures Inv(Run(schedule))
  {
    if schedule != [] {
      var before := schedule[..|schedule| - 1];
      EveryRunKeepsInv(before);
      match schedule[|schedule| - 1]
      case Invoke(me, call) => if IsIdle(Run(before), me) { BeginKeepsInv(Run(before), me, call); }
      case Go(me) => NextKeepsInv(Run(before), me);
    }
  }

  lemma BeginRefines(s: State, me: Tid, call: Call)
    requires (forall b <- s.threads :: Knows(s.mem, s.threads[b])) && IsIdle(s, me)
    ensures Abs(Begin(s, me, call)) == Abs(s).(threads := Abs(s).threads[me := Started(call)])
  {
    forall b <- s.threads | b != me
      ensures AbsPc(Begin(s, me, call).mem, s.threads[b]) == AbsPc(s.mem, s.threads[b])
    {
      if call.Enqueue? { AllocationKeepsPhase(s.mem, call.x, s.threads[b]); }
    }
  }

  lemma AllocationKeepsPhase(s: Memory, x: Item, pb: Pc)
    requires Knows(s, pb)
    ensures AbsPc(Allocated(s, x), pb) == AbsPc(s, pb)
  {
    assert forall o: nat :: o < |s.heap| ==> DataOf(Allocated(s, x), o) == DataOf(s, o);
  }

  lemma IdleRefines(s: State, me: Tid)
    requires IsIdle(s, me)
    ensures Idle(Abs(s), me)
  {}

  /** Each act of a run is a step of the atomic queue. */
  lemma PerformRefines(s: State, act: Act)
    requires Inv(s)
    ensures RunStep(Abs(s), Abs(Perform(s, act)), act.me)
  {
    RefinesFifo(s, act.me);
    if act.Invoke? && IsIdle(s, act.me) {
      BeginRefines(s, act.me, act.call);
      IdleRefines(s, act.me);
    }
  }

  function AbsRun(schedule: seq<Act>): seq<Queue> {
    seq(|schedule| + 1, i requires 0 <= i <= |schedule| => Abs(Run(schedule[..i])))
  }

  function Who(schedule: seq<Act>): seq<Tid> {
    seq(|schedule|, i requires 0 <= i < |schedule| => schedule[i].me)
  }

  /** Every run is a run of the atomic queue, so the lemmas about those apply to it. */
  lemma EveryRunIsFifo(schedule: seq<Act>)
    ensures IsRun(AbsRun(schedule), Who(schedule))
  {
    var run := AbsRun(schedule);
    assert run[0].threads == map[];
    forall i | 0 <= i < |schedule| ensures RunStep(run[i], run[i + 1], schedule[i].me) {
      assert schedule[..i + 1][..i] == schedule[..i];
      EveryRunKeepsInv(schedule[..i]);
      PerformRefines(Run(schedule[..i]), schedule[i]);
    }
  }

  /** Step i of the schedule begins a call of me, and me begins no other call after it. */
  ghost predicate LatestCall(schedule: seq<Act>, me: Tid, i: nat, call: Call) {
    && i < |schedule| && schedule[i] == Invoke(me, call) && IsIdle(Run(schedule[..i]), me)
    && (forall m | i < m < |schedule| :: schedule[m].Invoke? && schedule[m].me == me ==>
          !IsIdle(Run(schedule[..m]), me))
  }

  /** The act at m is by me and takes effect: it adds x to the record, or removes x from the queue. */
  predicate AddsAt(schedule: seq<Act>, me: Tid, m: nat, x: Item) {
    && m < |schedule| && schedule[m].me == me
    && Run(schedule[..m + 1]).mem.added == Run(schedule[..m]).mem.added + [x]
  }

  predicate RemovesAt(schedule: seq<Act>, me: Tid, m: nat, x: Item) {
    && m < |schedule| && schedule[m].me == me
    && var s, s' := Run(schedule[..m]).mem, Run(schedule[..m + 1]).mem;
       s.removed < |s.added| && x == s.added[s.removed] && s'.removed == s.removed + 1
  }

  predicate EmptyAt(schedule: seq<Act>, m: nat) {
    m < |schedule| && var s := Run(schedule[..m]).mem; s.removed == |s.added|
  }

  /** An act that does not begin a call is one step of the atomic queue. */
  lemma ActIsStep(s: State, act: Act)
    requires Inv(s) && !(act.Invoke? && IsIdle(s, act.me))
    ensures Valid(Abs(s)) && Step(Abs(s), Abs(Perform(s, act)), act.me)
  {
    RefinesFifo(s, act.me);
  }

  /** Instant m of the run of the atomic queue. */
  lemma {:induction false} AtInstant(schedule: seq<Act>, m: nat)
    requires m < |schedule|
    ensures AbsRun(schedule)[m] == Abs(Run(schedule[..m]))
    ensures AbsRun(schedule)[m + 1] == Abs(Perform(Run(schedule[..m]), schedule[m]))
  {
    assert schedule[..m + 1][..m] == schedule[..m];
  }

  lemma BeginIsCall(s: State, me: Tid, call: Call)
    requires Inv(s) && IsIdle(s, me)
    ensures Idle(Abs(s), me) && me in Abs(Begin(s, me, call)).threads
    ensures Abs(Begin(s, me, call)).threads[me] ==
      match call case Enqueue(x) => Enqueueing(x) case Dequeue => Dequeueing(false)
  {
    BeginRefines(s, me, call);
    IdleRefines(s, me);
  }

  /** The latest call of a schedule is a call of the run of the atomic queue. */
  lemma {:induction false} CallInRun(schedule: seq<Act>, me: Tid, i: nat, call: Call)
    requires LatestCall(schedule, me, i, call)
    ensures CallFrom(AbsRun(schedule), Who(schedule), me, i, |schedule|)
    ensures AbsRun(schedule)[i + 1].threads[me] ==
      match call case Enqueue(x) => Enqueueing(x) case Dequeue => Dequeueing(false)
  {
    var run := AbsRun(schedule);
    EveryRunKeepsInv(schedule[..i]);
    AtInstant(schedule, i);
    BeginIsCall(Run(schedule[..i]), me, call);
    forall m | i < m < |schedule| && schedule[m].me == me ensures Valid(run[m]) && Step(run[m], run[m + 1], me) {
      AtInstant(schedule, m);
      EveryRunKeepsInv(schedule[..m]);
      ActIsStep(Run(schedule[..m]), schedule[m]);
    }
  }

  /** What happens at an instant of the run of the atomic queue happens at that instant of the schedule. */
  lemma {:induction false} SameInstant(schedule: seq<Act>, me: Tid, m: nat, x: Item)
    requires m < |schedule|
    ensures Adds(AbsRun(schedule), Who(schedule), me, m, x) ==> AddsAt(schedule, me, m, x)
    ensures Removes(AbsRun(schedule), Who(schedule), me, m, x) ==> RemovesAt(schedule, me, m, x)
    ensures Fifo.EmptyAt(AbsRun(schedule), m) ==> EmptyAt(schedule, m)
  {}

  /** The answer a thread shows is the answer of the atomic queue. */
  lemma SameAnswer(s: State, me: Tid)
    requires me in s.threads && IsIdle(s, me)
    ensures match s.threads[me]
            case EDone => Abs(s).threads[me] == Enqueued
            case DDone(x) => Abs(s).threads[me] == Dequeued(x)
            case DFalse => Abs(s).threads[me] == FoundEmpty
            case _ => false
  {}

  /**
   * What a call returns with: an enqueue that has returned has added the item it was called with, a
   * dequeue has removed the item it answers with, each by one access of its own inside the call; and
   * `false` was answered because the queue was empty inside the call.
   */
  lemma {:induction false} CallReturns(schedule: seq<Act>, me: Tid, i: nat, call: Call)
    requires LatestCall(schedule, me, i, call) && IsIdle(Run(schedule), me)
    ensures me in Run(schedule).threads
    ensures match Run(schedule).threads[me]
            case EDone =>
              call.Enqueue? && exists m: nat | i < m < |schedule| :: AddsAt(schedule, me, m, call.x)
            case DDone(x) =>
              call.Dequeue? && exists m: nat | i < m < |schedule| :: RemovesAt(schedule, me, m, x)
            case DFalse =>
              call.Dequeue? && exists m: nat | i < m < |schedule| :: EmptyAt(schedule, m)
            case _ => false
  {
    var run, who := AbsRun(schedule), Who(schedule);
    assert schedule[..|schedule|] == schedule;
    EveryRunIsFifo(schedule);
    CallInRun(schedule, me, i, call);
    CallTakesEffect(run, who, me, i, |schedule|);
    SameAnswer(Run(schedule), me);
    forall m: nat, x | m < |schedule|
      ensures Adds(run, who, me, m, x) ==> AddsAt(schedule, me, m, x)
      ensures Removes(run, who, me, m, x) ==> RemovesAt(schedule, me, m, x)
    {
      SameInstant(schedule, me, m, x);
    }
    forall m: nat | m < |schedule| ensures Fifo.EmptyAt(run, m) ==> EmptyAt(schedule, m) {
      SameInstant(schedule, me, m, 0);
    }
  }

  // ---- The states of Figure 2 ----

  function StateOf(s: Memory): nat {
    DetermineState(s.head, s.tail, NextOf(s, s.tail.link))
  }

  predicate Allowed(a: nat, b: nat) {
    || a == b
    || (a == 7 && b == 8) || (a == 8 && b == 3)
    || (a == 3 && (b == 4 || b == 5))
    || (a == 4 && b == 6) || (a == 6 && b == 7)
    || (a == 5 && b == 1)
    || (a == 1 && (b == 2 || b == 3))
    || (a == 2 && (b == 1 || b == 5))
  }

  lemma ShiftFollowsFigure2(s: Memory)
    requires Shape(s) && Long(s) && s.head.link.To?
    ensures Allowed(StateOf(s), StateOf(Shifted(s, To(s.live[1]))))
  {
    assert 3 <= |s.live| ==> s.heap[s.live[1]].next.link == To(s.live[2]);
  }

  lemma MoveTailFollowsFigure2(s: Memory, y: nat, z: nat)
    requires Shape(s) && Lags(s, y, z) && s.tail.link == To(y)
    ensures Allowed(StateOf(s), StateOf(s.(tail := Bump(s.tail, To(z)))))
  {
    assert Ends(s.heap[s.live[|s.live| - 1]].next);
  }

  lemma HeadShiftFollowsFigure2(s: Memory, pc: Pc)
    requires Shape(s) && Knows(s, pc) && pc.DShiftHead?
    ensures Allowed(StateOf(s), StateOf(Update(s, pc)))
  {
    if s.head == pc.head { ShiftFollowsFigure2(s); }
  }

  lemma TailMoveFollowsFigure2(s: Memory, pc: Pc)
    requires Shape(s) && Knows(s, pc) && (pc.EMoveTail? || pc.HSwingTail?)
    ensures Allowed(StateOf(s), StateOf(Update(s, pc)))
  {
    if s.tail == pc.tail { MoveTailFollowsFigure2(s, pc.tail.link.id, if pc.EMoveTail? then pc.o else pc.to.id); }
  }

  lemma OtherwiseFollowsFigure2(s: Memory, pc: Pc)
    requires Shape(s) && Knows(s, pc) && !pc.DShiftHead? && !pc.EMoveTail? && !pc.HSwingTail?
    ensures Allowed(StateOf(s), StateOf(Update(s, pc)))
  {}

  /** Whatever a thread does, however stale its snapshot, the queue moves along Figure 2. */
  lemma FollowsFigure2(s: Memory, pc: Pc)
    requires Shape(s) && Knows(s, pc)
    ensures Allowed(StateOf(s), StateOf(Update(s, pc)))
  {
    if pc.DShiftHead? {
      HeadShiftFollowsFigure2(s, pc);
    } else if pc.EMoveTail? || pc.HSwingTail? {
      TailMoveFollowsFigure2(s, pc);
    } else {
      OtherwiseFollowsFigure2(s, pc);
    }
  }

  /** The object a thread is about to dereference exists. */
  predicate Dereferences(s: Memory, pc: Pc) {
    match pc
    case SNext(_, _, tail) => CanFollow(s, tail.link)
    case EAppend(_, tail, _) => CanFollow(s, tail.link)
    case DReadNext(head) => CanFollow(s, head.link)
    case DMark(_, tail, _) => CanFollow(s, tail.link)
    case DReadLag(tail) => CanFollow(s, tail.link)
    case DDelinkRead(d) => CanFollow(s, To(d))
    case DDelink(d, _) => CanFollow(s, To(d))
    case _ => true
  }

  /**
   * Re-reading the next of an object that may have been delinked is harmless: null never becomes
   * the head by a shift or the tail by a swing, and the tail becomes null only when the sole object
   * carries a DEQ mark.
   */
  lemma NullOnlyWhenMarked(s: Memory, pc: Pc)
    requires Shape(s) && Knows(s, pc)
    ensures Dereferences(s, pc)
    ensures (pc.DShiftHead? || pc.HSwingTail?) && Update(s, pc) != s ==> pc.to.To?
    ensures s.tail.link.To? && Update(s, pc).tail.link == Null ==>
      s.head.link == s.tail.link && Marks(NextOf(s, s.tail.link)) && s.live == []
    ensures s.head.link.To? && Update(s, pc).head.link == Null ==> s.tail.link == Null
  {}

  // ---- Snapshot ----

  lemma CountersOnlyGrow(s: Memory, pc: Pc)
    ensures PtrLe(s.head, Update(s, pc).head) && PtrLe(s.tail, Update(s, pc).tail)
  {}

  /** Thread me is reading on behalf of the snapshot that has (head, tail) so far. */
  predicate Snapping(s: State, me: Tid, head: Pointer, tail: Pointer) {
    && me in s.threads
    && (s.threads[me].SNext? || s.threads[me].SConfirmTail?)
    && s.threads[me].head == head && s.threads[me].tail == tail
  }

  /** From prefix m of the schedule to its end thread me is inside one snapshot that has read this head. */
  ghost predicate SameSnapshot(schedule: seq<Act>, m: nat, me: Tid, head: Pointer) {
    forall k | m <= k <= |schedule| :: Snaps(Run(schedule[..k]), me, head)
  }

  predicate Snaps(s: State, me: Tid, head: Pointer) {
    && me in s.threads
    && (s.threads[me].SNext? || s.threads[me].SConfirmTail? || s.threads[me].SConfirmHead?)
    && s.threads[me].head == head
  }

  /** At prefix m of the schedule head, tail and next were the shared words, all at once. */
  predicate HeldAt(schedule: seq<Act>, m: nat, me: Tid, head: Pointer, tail: Pointer, next: Pointer) {
    m <= |schedule| &&
    var s := Run(schedule[..m]);
    && s.mem.head == head && s.mem.tail == tail
    && (tail.link.To? ==> NextOf(s.mem, tail.link) == next)
    && Snapping(s, me, head, tail)
  }

  /** The thread is about to confirm a word that has not changed since it was read. */
  predicate Confirms(s: State, me: Tid, head: Pointer, tail: Pointer, next: Pointer) {
    && me in s.threads
    && var pc := s.threads[me];
       (pc.SConfirmHead? || (pc.SConfirmTail? && s.mem.tail == tail)) && s.mem.head == head
       && pc.head == head && pc.tail == tail && pc.next == next
  }

  lemma NotMyStep(s: State, act: Act, me: Tid)
    requires act.me != me
    ensures me in Perform(s, act).threads <==> me in s.threads
    ensures me in s.threads ==> Perform(s, act).threads[me] == s.threads[me]
  {}

  /** Words that have not changed now had not changed before somebody else's act. */
  lemma OthersConfirmLater(s: State, act: Act, me: Tid, head: Pointer, tail: Pointer, next: Pointer)
    requires me in s.threads && Knows(s.mem, s.threads[me]) && act.me != me
    requires Confirms(Perform(s, act), me, head, tail, next)
    ensures Confirms(s, me, head, tail, next)
  {
    if act.Go? && act.me in s.threads { CountersOnlyGrow(s.mem, s.threads[act.me]); }
    NotMyStep(s, act, me);
  }

  lemma MyConfirmation(s: State, me: Tid, head: Pointer, tail: Pointer, next: Pointer)
    requires me in s.threads && Knows(s.mem, s.threads[me]) && Confirms(Next(s, me), me, head, tail, next)
    requires Next(s, me).threads[me].SConfirmTail? ==> tail.link.To?
    ensures Confirms(s, me, head, tail, next)
      || (Snapping(s, me, head, tail) && s.mem.head == head && s.mem.tail == tail
          && NextOf(s.mem, tail.link) == next)
  {}

  lemma ConfirmedBefore(s: State, act: Act, me: Tid, head: Pointer, tail: Pointer, next: Pointer)
    requires Inv(s) && Confirms(Perform(s, act), me, head, tail, next)
    requires Perform(s, act).threads[me].SConfirmTail? ==> tail.link.To?
    ensures Confirms(s, me, head, tail, next)
      || (act == Go(me) && Snapping(s, me, head, tail) && s.mem.head == head && s.mem.tail == tail
          && NextOf(s.mem, tail.link) == next)
  {
    if act.me != me {
      NotMyStep(s, act, me);
      OthersConfirmLater(s, act, me, head, tail, next);
    } else if act.Go? {
      MyConfirmation(s, me, head, tail, next);
    }
  }

  /** A snapshot that goes on for one more act is still the same snapshot. */
  lemma SnapshotGoesOn(schedule: seq<Act>, m: nat, me: Tid, head: Pointer)
    requires schedule != [] && m <= |schedule| && Snaps(Run(schedule), me, head)
    requires m < |schedule| ==> SameSnapshot(schedule[..|schedule| - 1], m, me, head)
    ensures SameSnapshot(schedule, m, me, head)
  {
    var n := |schedule| - 1;
    forall k | m <= k <= |schedule| ensures Snaps(Run(schedule[..k]), me, head) {
      if k <= n { assert schedule[..n][..k] == schedule[..k]; } else { assert schedule[..k] == schedule; }
    }
  }

  /**
   * A snapshot whose head re-read succeeds returns a head, a tail and, when the tail is not null, a
   * next that all held at one instant, and the thread has not left that snapshot since.
   */
  lemma {:induction false} SnapshotIsAtomic(
    schedule: seq<Act>, me: Tid, head: Pointer, tail: Pointer, next: Pointer)
    requires Confirms(Run(schedule), me, head, tail, next)
    ensures exists m: nat :: HeldAt(schedule, m, me, head, tail, next) && SameSnapshot(schedule, m, me, head)
  {
    if Run(schedule).threads[me].SConfirmTail? && tail.link == Null {
      assert schedule[..|schedule|] == schedule;
      assert HeldAt(schedule, |schedule|, me, head, tail, next);
    } else if schedule != [] {
      var n := |schedule| - 1;
      EveryRunKeepsInv(schedule[..n]);
      ConfirmedBefore(Run(schedule[..n]), schedule[n], me, head, tail, next);
      var m: nat := n;
      if Confirms(Run(schedule[..n]), me, head, tail, next) {
        SnapshotIsAtomic(schedule[..n], me, head, tail, next);
        m :| HeldAt(schedule[..n], m, me, head, tail, next) && SameSnapshot(schedule[..n], m, me, head);
        assert schedule[..m] == schedule[..n][..m];
      } else {
        assert schedule[..n][..n] == schedule[..n];
      }
      SnapshotGoesOn(schedule, m, me, head);
      assert HeldAt(schedule, m, me, head, tail, next);
    }
  }

  /** When the snapshot's tail is null, a next left over from an earlier reading changes nothing. */
  lemma StaleNextIsIgnored(op: Op, head: Pointer, tail: Pointer, next: Pointer, stale: Pointer)
    requires tail.link == Null
    ensures DetermineState(head, tail, stale) == DetermineState(head, tail, next)
    ensures Decide(op, head, tail, stale) == Decide(op, head, tail, next)
  {}

  lemma FalseNeedsNulls(s: Memory, pc: Pc)
    requires pc.SConfirmHead? && Continue(s, pc) == DFalse
    ensures s.head == pc.head && pc.head.link == Null && pc.tail.link == Null
  {}

  /**
   * `return false` is honest: the queue was empty at an instant inside the very snapshot that the
   * answer rests on.
   */
  lemma FalseMeansEmpty(schedule: seq<Act>, me: Tid)
    requires me in Run(schedule).threads && Run(schedule).threads[me].SConfirmHead?
    requires Continue(Run(schedule).mem, Run(schedule).threads[me]) == DFalse
    ensures exists m: nat | m <= |schedule| ::
      var past, pc := Run(schedule[..m]), Run(schedule).threads[me];
      && past.mem.live == [] && |past.mem.added| == past.mem.removed
      && Snapping(past, me, pc.head, pc.tail) && SameSnapshot(schedule, m, me, pc.head)
  {
    var pc := Run(schedule).threads[me];
    FalseNeedsNulls(Run(schedule).mem, pc);
    SnapshotIsAtomic(schedule, me, pc.head, pc.tail, pc.next);
    var m: nat :| HeldAt(schedule, m, me, pc.head, pc.tail, pc.next) && SameSnapshot(schedule, m, me, pc.head);
    EveryRunKeepsInv(schedule[..m]);
  }

  // ---- Progress of a thread running alone ----

  /** A state, and how many snapshots the thread has begun while running alone. */
  datatype Solo = Solo(s: State, snapshots: nat)

  function Proceed(t: Solo, me: Tid): Solo {
    Solo(Next(t.s, me), t.snapshots + if me in t.s.threads && t.s.threads[me].SHead? then 1 else 0)
  }

  /** n accesses of me with nobody else running. */
  function Alone(t: Solo, me: Tid, n: nat): Solo {
    if n == 0 then t else Proceed(Alone(t, me, n - 1), me)
  }

  lemma {:induction false} AloneAdd(t: Solo, me: Tid, m: nat, n: nat)
    ensures Alone(Alone(t, me, m), me, n) == Alone(t, me, m + n)
  {
    if n != 0 { AloneAdd(t, me, m, n - 1); }
  }

  lemma {:induction false} AloneKeepsInv(t: Solo, me: Tid, n: nat)
    requires Inv(t.s)
    ensures Inv(Alone(t, me, n).s)
  {
    if n != 0 {
      AloneKeepsInv(t, me, n - 1);
      NextKeepsInv(Alone(t, me, n - 1).s, me);
    }
  }

  /** me is at pc, memory is m, and c snapshots have begun. */
  predicate At(t: Solo, me: Tid, m: Memory, pc: Pc, c: nat) {
    me in t.s.threads && t.s.threads[me] == pc && t.s.mem == m && t.snapshots == c
  }

  predicate Finished(t: Solo, me: Tid) {
    me in t.s.threads && IsIdle(t.s, me)
  }

  lemma NextAlone(t: Solo, me: Tid, n: nat, m: Memory, pc: Pc, c: nat)
    requires At(Alone(t, me, n), me, m, pc, c)
    ensures At(Alone(t, me, n + 1), me, Update(m, pc), Continue(m, pc), if pc.SHead? then c + 1 else c)
  {}

  function SnapshotLength(m: Memory): nat {
    if m.tail.link.To? then 5 else 4
  }

  lemma SnapshotAloneFollowing(t: Solo, me: Tid, m: Memory, op: Op, next: Pointer, c: nat)
    requires At(t, me, m, SHead(op, next), c) && m.tail.link.To?
    ensures At(Alone(t, me, 5), me, m, Decide(op, m.head, m.tail, NextOf(m, m.tail.link)), c + 1)
  {
    var x := NextOf(m, m.tail.link);
    NextAlone(t, me, 0, m, SHead(op, next), c);
    NextAlone(t, me, 1, m, STail(op, m.head, next), c + 1);
    NextAlone(t, me, 2, m, SNext(op, m.head, m.tail), c + 1);
    NextAlone(t, me, 3, m, SConfirmTail(op, m.head, m.tail, x), c + 1);
    NextAlone(t, me, 4, m, SConfirmHead(op, m.head, m.tail, x), c + 1);
  }

  lemma SnapshotAloneNotFollowing(t: Solo, me: Tid, m: Memory, op: Op, next: Pointer, c: nat)
    requires At(t, me, m, SHead(op, next), c) && m.tail.link == Null
    ensures At(Alone(t, me, 4), me, m, Decide(op, m.head, m.tail, next), c + 1)
  {
    NextAlone(t, me, 0, m, SHead(op, next), c);
    NextAlone(t, me, 1, m, STail(op, m.head, next), c + 1);
    NextAlone(t, me, 2, m, SConfirmTail(op, m.head, m.tail, next), c + 1);
    NextAlone(t, me, 3, m, SConfirmHead(op, m.head, m.tail, next), c + 1);
  }

  /** me has just decided, on a snapshot that shows memory as it is. */
  predicate Decided(t: Solo, me: Tid, op: Op, next: Pointer) {
    var m := t.s.mem;
    At(t, me, m, Decide(op, m.head, m.tail, next), t.snapshots)
    && (m.tail.link.To? ==> next == NextOf(m, m.tail.link))
  }

  /** Alone, a snapshot changes nothing and returns the words as they are. */
  lemma SnapshotAlone(t: Solo, me: Tid, op: Op) returns (next: Pointer)
    requires At(t, me, t.s.mem, Again(op), t.snapshots)
    ensures var t' := Alone(t, me, SnapshotLength(t.s.mem));
      t'.s.mem == t.s.mem && t'.snapshots == t.snapshots + 1 && Decided(t', me, op, next)
  {
    var m := t.s.mem;
    if m.tail.link.To? {
      next := NextOf(m, m.tail.link);
      SnapshotAloneFollowing(t, me, m, op, Nowhere, t.snapshots);
    } else {
      next := Nowhere;
      SnapshotAloneNotFollowing(t, me, m, op, Nowhere, t.snapshots);
    }
  }

  /** How many further snapshots the operation may need, beyond the next one. */
  function Rank(op: Op, state: nat): nat {
    match op
    case Enq(_) => if state == 1 || state == 3 || state == 7 then 0 else 1
    case Deq => if state == 1 || state == 2 || state == 3 || state == 7 then 0 else 1
  }

  function WorkLength(op: Op, state: nat): nat {
    match op
    case Enq(_) => if state == 2 || state == 5 || state == 6 || state == 8 then 1 else 2
    case Deq =>
      if state == 1 || state == 2 then 4 else if state == 3 then 5
      else if state == 4 || state == 5 then 2 else if state == 7 then 0 else 1
  }

  /** In n accesses the operation finishes, without another snapshot. */
  predicate FinishesIn(t: Solo, me: Tid, n: nat) {
    Finished(Alone(t, me, n), me) && Alone(t, me, n).snapshots == t.snapshots
  }

  /** From a fresh decision, in a state that needs no help: the enqueue completes. */
  lemma EnqueueAlone(t: Solo, me: Tid, o: nat, next: Pointer)
    requires Shape(t.s.mem) && Decided(t, me, Enq(o), next) && Rank(Enq(o), StateOf(t.s.mem)) == 0
    ensures FinishesIn(t, me, 2)
  {
    var m := t.s.mem;
    var pc := Decide(Enq(o), m.head, m.tail, next);
    NextAlone(t, me, 0, m, pc, t.snapshots);
    NextAlone(t, me, 1, Update(m, pc), Continue(m, pc), t.snapshots);
  }

  /** A dequeuer that has removed its object delinks it and returns. */
  lemma DelinkAlone(t: Solo, me: Tid, m: Memory, d: nat)
    requires At(t, me, m, DDelinkRead(d), t.snapshots)
    ensures FinishesIn(t, me, 2)
  {
    NextAlone(t, me, 0, m, DDelinkRead(d), t.snapshots);
    NextAlone(t, me, 1, m, DDelink(d, NextOf(m, To(d)).counter), t.snapshots);
  }

  /** The dequeue that shifts the head completes. */
  lemma ShiftAlone(t: Solo, me: Tid)
    requires At(t, me, t.s.mem, DReadNext(t.s.mem.head), t.snapshots)
    ensures FinishesIn(t, me, 4)
  {
    var m := t.s.mem;
    var shift := DShiftHead(m.head, NextOf(m, m.head.link).link);
    NextAlone(t, me, 0, m, DReadNext(m.head), t.snapshots);
    NextAlone(t, me, 1, m, shift, t.snapshots);
    DelinkAlone(Alone(t, me, 2), me, Update(m, shift), IdOf(m.head.link));
    AloneAdd(t, me, 2, 2);
  }

  /** The dequeue that marks the only object completes. */
  lemma MarkAlone(t: Solo, me: Tid)
    requires At(t, me, t.s.mem, DMark(t.s.mem.head, t.s.mem.tail, NextOf(t.s.mem, t.s.mem.tail.link)), t.snapshots)
    ensures FinishesIn(t, me, 5)
  {
    var m, d := t.s.mem, IdOf(t.s.mem.head.link);
    var mark := DMark(m.head, m.tail, NextOf(m, m.tail.link));
    var m1 := Update(m, mark);
    var m2 := Update(m1, DNullTail(d, m.head, m.tail));
    NextAlone(t, me, 0, m, mark, t.snapshots);
    NextAlone(t, me, 1, m1, DNullTail(d, m.head, m.tail), t.snapshots);
    NextAlone(t, me, 2, m2, DNullHead(d, m.head), t.snapshots);
    DelinkAlone(Alone(t, me, 3), me, Update(m2, DNullHead(d, m.head)), d);
    AloneAdd(t, me, 3, 2);
  }

  lemma WorkAlone(t: Solo, me: Tid, op: Op, next: Pointer)
    requires Shape(t.s.mem) && Decided(t, me, op, next) && Rank(op, StateOf(t.s.mem)) == 0
    ensures FinishesIn(t, me, WorkLength(op, StateOf(t.s.mem)))
  {
    match op
    case Enq(o) => EnqueueAlone(t, me, o, next);
    case Deq =>
      if StateOf(t.s.mem) == 3 {
        MarkAlone(t, me);
      } else if StateOf(t.s.mem) != 7 {
        ShiftAlone(t, me);
      }
  }

  /** Swinging a lagging tail leads to state 1. */
  lemma SwungTail(m: Memory)
    requires Shape(m) && (StateOf(m) == 2 || StateOf(m) == 5)
    ensures StateOf(m.(tail := Bump(m.tail, NextOf(m, m.tail.link).link))) == 1
  {
    assert Ends(m.heap[m.live[|m.live| - 1]].next);
  }

  /** Nulling the tail of a marked queue leads to state 6, nulling the head from there to state 7. */
  lemma NulledEnds(m: Memory)
    ensures Shape(m) && StateOf(m) == 4 ==> StateOf(m.(tail := Bump(m.tail, Null))) == 6
    ensures Shape(m) && StateOf(m) == 6 ==> StateOf(m.(head := Bump(m.head, Null))) == 7
  {}

  /** Pointing a missing head to the only object leads to state 3. */
  lemma FixedHead(m: Memory)
    requires Shape(m) && StateOf(m) == 8
    ensures StateOf(m.(head := Bump(m.head, m.tail.link))) == 3
  {}

  /** In a marked queue the two updates of a helper lead to state 7. */
  lemma NulledBoth(m: Memory)
    requires Shape(m) && StateOf(m) == 4
    ensures var m1 := m.(tail := Bump(m.tail, Null)); StateOf(m1.(head := Bump(m1.head, Null))) == 7
  {
    NulledEnds(m);
    NullTailKeeps(m, EDone);
    NulledEnds(m.(tail := Bump(m.tail, Null)));
  }

  /** In n accesses, without a snapshot, me is back at the top of its loop, in the given state. */
  predicate HelpsIn(t: Solo, me: Tid, n: nat, op: Op, state: nat) {
    var t' := Alone(t, me, n);
    At(t', me, t'.s.mem, Again(op), t.snapshots) && StateOf(t'.s.mem) == state
  }

  lemma SwingAlone(t: Solo, me: Tid, op: Op, next: Pointer)
    requires Shape(t.s.mem) && Decided(t, me, op, next)
    requires Rank(op, StateOf(t.s.mem)) == 1 && (StateOf(t.s.mem) == 2 || StateOf(t.s.mem) == 5)
    ensures HelpsIn(t, me, WorkLength(op, StateOf(t.s.mem)), op, 1)
  {
    var m := t.s.mem;
    SwungTail(m);
    if op.Deq? {
      NextAlone(t, me, 0, m, DReadLag(m.tail), t.snapshots);
      NextAlone(t, me, 1, m, HSwingTail(op, m.tail, next.link), t.snapshots);
    } else {
      NextAlone(t, me, 0, m, HSwingTail(op, m.tail, next.link), t.snapshots);
    }
  }

  lemma MarkedAlone(t: Solo, me: Tid, op: Op)
    requires Shape(t.s.mem) && StateOf(t.s.mem) == 4
    requires At(t, me, t.s.mem, HNullTail(op, t.s.mem.head, t.s.mem.tail), t.snapshots)
    ensures HelpsIn(t, me, 2, op, 7)
  {
    var m := t.s.mem;
    NulledBoth(m);
    NextAlone(t, me, 0, m, HNullTail(op, m.head, m.tail), t.snapshots);
    NextAlone(t, me, 1, m.(tail := Bump(m.tail, Null)), HNullHead(op, m.head), t.snapshots);
  }

  /** The state that help leads to. */
  function Helped(state: nat): nat {
    if state == 4 || state == 6 then 7 else if state == 8 then 3 else 1
  }

  /** In a state that needs help, helping leads to one that does not. */
  lemma HelpAlone(t: Solo, me: Tid, op: Op, next: Pointer)
    requires Shape(t.s.mem) && Decided(t, me, op, next) && Rank(op, StateOf(t.s.mem)) == 1
    ensures HelpsIn(t, me, WorkLength(op, StateOf(t.s.mem)), op, Helped(StateOf(t.s.mem)))
    ensures Rank(op, Helped(StateOf(t.s.mem))) == 0
  {
    var m := t.s.mem;
    if StateOf(m) == 2 || StateOf(m) == 5 {
      SwingAlone(t, me, op, next);
    } else if StateOf(m) == 4 {
      MarkedAlone(t, me, op);
    } else if StateOf(m) == 6 {
      NulledEnds(m);
      NextAlone(t, me, 0, m, HNullHead(op, m.head), t.snapshots);
    } else {
      FixedHead(m);
      NextAlone(t, me, 0, m, HFixHead(op, m.head, m.tail), t.snapshots);
    }
  }

  /** In n accesses, without a snapshot, me is back at the top of its loop, in a state that needs no help. */
  predicate ReadyIn(t: Solo, me: Tid, n: nat, op: Op) {
    var t' := Alone(t, me, n);
    At(t', me, t'.s.mem, Again(op), t.snapshots) && Rank(op, StateOf(t'.s.mem)) == 0
  }

  /** In n accesses the operation finishes, or reaches a new iteration in a state that needs no help. */
  predicate WorksIn(t: Solo, me: Tid, n: nat, op: Op, state: nat) {
    n <= 5 && if Rank(op, state) == 0 then FinishesIn(t, me, n) else n <= 2 && ReadyIn(t, me, n, op)
  }

  lemma AfterSnapshot(t: Solo, me: Tid, op: Op, next: Pointer)
    requires Shape(t.s.mem) && Decided(t, me, op, next)
    ensures WorksIn(t, me, WorkLength(op, StateOf(t.s.mem)), op, StateOf(t.s.mem))
  {
    if Rank(op, StateOf(t.s.mem)) == 0 {
      WorkAlone(t, me, op, next);
    } else {
      HelpAlone(t, me, op, next);
    }
  }

  /** What one loop iteration of n accesses, started in this state of the queue, leads to. */
  predicate RoundOf(t: Solo, me: Tid, op: Op, state: nat, n: nat) {
    var t' := Alone(t, me, n);
    && t'.snapshots == t.snapshots + 1
    && if Rank(op, state) == 0 then n <= 10 && Finished(t', me) else n <= 7 && ReadyIn(t', me, 0, op)
  }

  /** A snapshot of m accesses, then n accesses of the work or the help that it calls for. */
  lemma SnapshotThenWork(t: Solo, t': Solo, me: Tid, op: Op, state: nat, m: nat, n: nat)
    requires m <= 5 && t' == Alone(t, me, m) && t'.snapshots == t.snapshots + 1
    requires WorksIn(t', me, n, op, state)
    ensures RoundOf(t, me, op, state, m + n)
  {
    AloneAdd(t, me, m, n);
  }

  /** One loop iteration: a snapshot, then the work or the help that it calls for. */
  lemma SoloRound(t: Solo, me: Tid, op: Op) returns (n: nat)
    requires Shape(t.s.mem) && At(t, me, t.s.mem, Again(op), t.snapshots)
    ensures RoundOf(t, me, op, StateOf(t.s.mem), n)
  {
    var next := SnapshotAlone(t, me, op);
    var m := SnapshotLength(t.s.mem);
    AfterSnapshot(Alone(t, me, m), me, op, next);
    var w := WorkLength(op, StateOf(t.s.mem));
    SnapshotThenWork(t, Alone(t, me, m), me, op, StateOf(t.s.mem), m, w);
    n := m + w;
  }

  /** The iteration that follows one of help. */
  lemma SecondRound(t: Solo, t': Solo, me: Tid, op: Op, n: nat) returns (n': nat)
    requires t' == Alone(t, me, n) && Shape(t'.s.mem) && ReadyIn(t', me, 0, op)
    ensures n' <= n + 10 && Finished(Alone(t, me, n'), me) && Alone(t, me, n').snapshots == t'.snapshots + 1
  {
    var k := SoloRound(t', me, op);
    AloneAdd(t, me, n, k);
    n' := n + k;
  }

  /**
   * From every reachable state, a thread that starts a loop iteration and then runs alone completes
   * its operation with at most two snapshots, in at most 17 accesses.
   */
  lemma SoloCompletes(t: Solo, me: Tid, op: Op) returns (n: nat)
    requires Inv(t.s) && me in t.s.threads && t.s.threads[me] == Again(op)
    ensures n <= 17 && Finished(Alone(t, me, n), me)
    ensures Alone(t, me, n).snapshots <= t.snapshots + 2
  {
    n := SoloRound(t, me, op);
    if Rank(op, StateOf(t.s.mem)) != 0 {
      AloneKeepsInv(t, me, n);
      n := SecondRound(t, Alone(t, me, n), me, op, n);
    }
  }
}
