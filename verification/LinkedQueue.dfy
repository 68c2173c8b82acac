/**
 * MSQueue and ValoisQueue: a linked list behind a dummy node, whose tail may lag one node behind.
 *
 * The two differ in three places. MSQueue pairs every pointer with a 32-bit counter that wraps; it
 * tests for a lagging tail before it tests for emptiness; and it leaks the nodes it dequeues.
 * ValoisQueue has bare pointers, tests for emptiness first, and pushes dequeued nodes on a retired
 * stack. `order`, `place`, `added`, `removed` and `stack` are history that no step reads.
 */
module LinkedQueue {
  import opened Fifo

  datatype Variant = MichaelScott | Valois

  datatype Link = Null | To(id: nat)
  datatype Pointer = Pointer(link: Link, count: nat)
  datatype Node = Node(value: Item, next: Pointer, retiredNext: Link)

  const CounterWrap: nat := 0x1_0000_0000

  /** The counter that accompanies a new pointer; ValoisQueue has none. */
  function Count(v: Variant, count: nat): nat {
    if v.MichaelScott? then (count + 1) % CounterWrap else 0
  }

  datatype Pc =
    | EReadTail(o: nat)
    | EReadNext(o: nat, tail: Pointer)
    | EConfirm(o: nat, tail: Pointer, next: Pointer)
    | ELink(o: nat, tail: Pointer, next: Pointer)
    | EHelp(o: nat, tail: Pointer, z: nat)
    | ESwing(o: nat, tail: Pointer)
    | EDone
    | DReadHead
    | DReadTail(head: Pointer)
    | DReadNext(head: Pointer, tail: Pointer)
    | DConfirm(head: Pointer, tail: Pointer, next: Pointer)
    | DHelp(tail: Pointer, z: nat)
    | DReadValue(head: Pointer, to: Link)
    | DShift(head: Pointer, z: nat, x: Item)
    | RLoad(d: nat, x: Item)
    | RStore(d: nat, x: Item, was: Link)
    | RPush(d: nat, x: Item, was: Link)
    | DDone(x: Item)
    | DFalse
    | Crashed
  {
    /** The pointer the next access dereferences. */
    function Follow(): Link {
      match this
      case EReadNext(_, tail) => tail.link
      case ELink(_, tail, _) => tail.link
      case DReadNext(head, _) => head.link
      case DReadValue(_, to) => to
      case RStore(d, _, _) => To(d)
      case _ => Null
    }
  }

  datatype Memory = Memory(
    head: Pointer, tail: Pointer, nodes: seq<Node>, retired: Link,
    order: seq<nat>, place: map<nat, nat>, added: seq<Item>, removed: nat, stack: seq<nat>)

  datatype State = State(mem: Memory, threads: map<Tid, Pc>)

  const Nowhere := Pointer(Null, 0)

  /** One dummy node; head and tail point to it. */
  function Init(): State {
    State(Memory(Pointer(To(0), 0), Pointer(To(0), 0), [Node(0, Nowhere, Null)], Null,
                 [0], map[0 := 0], [], 0, []),
          map[])
  }

  predicate Exists(s: Memory, p: Link) {
    p.To? && p.id < |s.nodes|
  }

  function SwingTail(v: Variant, s: Memory, expected: Pointer, z: nat): Memory {
    if s.tail == expected then s.(tail := Pointer(To(z), Count(v, expected.count))) else s
  }

  /** Node o becomes the successor of the node p points to. */
  function Linked(v: Variant, s: Memory, p: nat, o: nat, next: Pointer): Memory
    requires p < |s.nodes| && o < |s.nodes|
  {
    s.(nodes := s.nodes[p := s.nodes[p].(next := Pointer(To(o), Count(v, next.count)))],
       order := s.order + [o], place := s.place[o := |s.order|], added := s.added + [s.nodes[o].value])
  }

  /** Shared memory after the access a thread at pc makes. */
  function Update(v: Variant, s: Memory, pc: Pc): Memory {
    match pc
    case ELink(o, tail, next) =>
      if Exists(s, tail.link) && o < |s.nodes| && s.nodes[tail.link.id].next == next
      then Linked(v, s, tail.link.id, o, next) else s
    case EHelp(_, tail, z) => SwingTail(v, s, tail, z)
    case ESwing(o, tail) => SwingTail(v, s, tail, o)
    case DHelp(tail, z) => SwingTail(v, s, tail, z)
    case DShift(head, z, _) =>
      if s.head == head then s.(head := Pointer(To(z), Count(v, head.count)), removed := s.removed + 1) else s
    case RStore(d, _, was) =>
      if d < |s.nodes| then s.(nodes := s.nodes[d := s.nodes[d].(retiredNext := was)]) else s
    case RPush(d, _, was) =>
      if s.retired == was then s.(retired := To(d), stack := [d] + s.stack) else s
    case _ => s
  }

  /** What dequeue does with head, tail and next once the head is confirmed. */
  function Decide(v: Variant, head: Pointer, tail: Pointer, next: Pointer): Pc {
    if v.MichaelScott? then
      if head.link == tail.link then
        (match next.link case Null => DFalse case To(z) => DHelp(tail, z))
      else DReadValue(head, next.link)
    else
      match next.link
      case Null => DFalse
      case To(z) => if head.link == tail.link then DHelp(tail, z) else DReadValue(head, next.link)
  }

  /** Where a thread at pc goes after its access; following a null pointer is a crash. */
  function Continue(v: Variant, s: Memory, pc: Pc): Pc {
    match pc
    case EReadTail(o) => EReadNext(o, s.tail)
    case EReadNext(o, tail) =>
      if Exists(s, tail.link) then EConfirm(o, tail, s.nodes[tail.link.id].next) else Crashed
    case EConfirm(o, tail, next) =>
      if s.tail != tail then EReadTail(o)
      else (match next.link case Null => ELink(o, tail, next) case To(z) => EHelp(o, tail, z))
    case ELink(o, tail, next) =>
      if !Exists(s, tail.link) then Crashed
      else if s.nodes[tail.link.id].next == next then ESwing(o, tail) else EReadTail(o)
    case EHelp(o, _, _) => EReadTail(o)
    case ESwing(_, _) => EDone
    case DReadHead => DReadTail(s.head)
    case DReadTail(head) => DReadNext(head, s.tail)
    case DReadNext(head, tail) =>
      if Exists(s, head.link)
      then DConfirm(head, tail, s.nodes[head.link.id].next) else Crashed
    case DConfirm(head, tail, next) => if s.head == head then Decide(v, head, tail, next) else DReadHead
    case DHelp(_, _) => DReadHead
    case DReadValue(head, next) =>
      if Exists(s, next) then DShift(head, next.id, s.nodes[next.id].value) else Crashed
    case DShift(head, _, x) =>
      if s.head != head then DReadHead
      else if v.Valois? && head.link.To? then RLoad(head.link.id, x) else DDone(x)
    case RLoad(d, x) => RStore(d, x, s.retired)
    case RStore(d, x, was) => if d < |s.nodes| then RPush(d, x, was) else Crashed
    case RPush(d, x, was) => if s.retired == was then DDone(x) else RStore(d, x, s.retired)
    case _ => pc
  }

  function Next(v: Variant, s: State, me: Tid): State {
    if me !in s.threads then s else
    var pc := s.threads[me];
    State(Update(v, s.mem, pc), s.threads[me := Continue(v, s.mem, pc)])
  }

  /** The weak compare-and-swap of `retire` may fail for no reason; it then reloads and retries. */
  function FailSpuriously(s: State, me: Tid): State {
    if me in s.threads && s.threads[me].RPush?
    then s.(threads := s.threads[me := RStore(s.threads[me].d, s.threads[me].x, s.mem.retired)]) else s
  }

  predicate IsIdle(s: State, me: Tid) {
    me in s.threads ==> s.threads[me].EDone? || s.threads[me].DDone? || s.threads[me].DFalse?
  }

  function Allocated(s: Memory, x: Item): Memory {
    s.(nodes := s.nodes + [Node(x, Nowhere, Null)])
  }

  function Begin(s: State, me: Tid, call: Call): State {
    match call
    case Enqueue(x) => State(Allocated(s.mem, x), s.threads[me := EReadTail(|s.mem.nodes|)])
    case Dequeue => s.(threads := s.threads[me := DReadHead])
  }

  // ---- The shape of the shared structure ----

  predicate InList(s: Memory, y: nat) {
    y in s.place && s.place[y] < |s.order| && s.order[s.place[y]] == y
  }

  /** p points to a node that has been linked, at or before position i of the list. */
  predicate UpTo(s: Memory, p: Link, i: nat) {
    p.To? && InList(s, p.id) && s.place[p.id] <= i
  }

  /** z is the node after y. */
  predicate Follows(s: Memory, y: Link, z: nat) {
    y.To? && InList(s, y.id) && InList(s, z) && s.place[z] == s.place[y.id] + 1
  }

  ghost predicate ChainOk(s: Memory) {
    && |s.order| == |s.added| + 1
    && (forall i | 0 <= i < |s.order| ::
          s.order[i] < |s.nodes| && s.order[i] in s.place && s.place[s.order[i]] == i)
    && (forall y <- s.place :: InList(s, y))
    && (forall i, j | 0 <= i && j == i + 1 && j < |s.order| :: s.nodes[s.order[i]].next.link == To(s.order[j]))
    && s.nodes[s.order[|s.order| - 1]].next.link == Null
    && (forall i, j | 0 <= i && j == i + 1 && j < |s.order| :: s.nodes[s.order[j]].value == s.added[i])
  }

  /** The head is at position `removed`; the tail is at the last node or the one before, never behind. */
  predicate EndsOk(s: Memory) {
    && s.head.link.To? && InList(s, s.head.link.id) && s.place[s.head.link.id] == s.removed
    && s.tail.link.To? && InList(s, s.tail.link.id)
    && s.removed <= s.place[s.tail.link.id] && |s.order| - 2 <= s.place[s.tail.link.id]
  }

  /** The retired stack: distinct nodes that the head has passed. */
  ghost predicate StackOk(s: Memory) {
    var st := s.stack;
    && s.retired == (if st == [] then Null else To(st[0]))
    && (forall i | 0 <= i < |st| :: InList(s, st[i]) && s.place[st[i]] < s.removed && st[i] < |s.nodes|)
    && (forall i, j | 0 <= i < j < |st| :: st[i] != st[j])
    && (forall i, j | 0 <= i && j == i + 1 && j < |st| :: s.nodes[st[i]].retiredNext == To(st[j]))
    && (st != [] ==> s.nodes[st[|st| - 1]].retiredNext == Null)
  }

  ghost predicate Shape(s: Memory) {
    ChainOk(s) && EndsOk(s) && StackOk(s)
  }

  // ---- What a thread knows ----

  predicate Private(s: Memory, o: nat) {
    o < |s.nodes| && o !in s.place && s.nodes[o].next == Nowhere
  }

  /** d was dequeued by this thread and is not yet on the retired stack. */
  predicate Holds(s: Memory, d: nat) {
    InList(s, d) && s.place[d] < s.removed && d !in s.stack
  }

  function TailPlace(s: Memory): nat
    requires EndsOk(s)
  {
    s.place[s.tail.link.id]
  }

  predicate Knows(s: Memory, pc: Pc)
    requires EndsOk(s)
  {
    match pc
    case EReadTail(o) => Private(s, o)
    case EReadNext(o, tail) => Private(s, o) && UpTo(s, tail.link, TailPlace(s))
    case EConfirm(o, tail, next) =>
      Private(s, o) && UpTo(s, tail.link, TailPlace(s)) && (next.link.To? ==> Follows(s, tail.link, next.link.id))
    case ELink(o, tail, next) => Private(s, o) && UpTo(s, tail.link, TailPlace(s)) && next.link == Null
    case EHelp(o, tail, z) => Private(s, o) && Follows(s, tail.link, z)
    case ESwing(o, tail) => Follows(s, tail.link, o)
    case DReadTail(head) => UpTo(s, head.link, s.removed)
    case DReadNext(head, tail) =>
      && UpTo(s, head.link, s.removed) && UpTo(s, tail.link, TailPlace(s))
      && s.place[head.link.id] <= s.place[tail.link.id]
    case DConfirm(head, tail, next) =>
      && UpTo(s, head.link, s.removed) && UpTo(s, tail.link, TailPlace(s))
      && s.place[head.link.id] <= s.place[tail.link.id]
      && (match next.link
          case Null => head.link == tail.link
          case To(z) => Follows(s, head.link, z))
    case DHelp(tail, z) => Follows(s, tail.link, z)
    case DReadValue(head, next) =>
      && UpTo(s, head.link, s.removed) && next.To? && Follows(s, head.link, next.id)
      && s.place[next.id] <= TailPlace(s)
    case DShift(head, z, x) =>
      && UpTo(s, head.link, s.removed) && Follows(s, head.link, z)
      && s.place[z] <= TailPlace(s) && z < |s.nodes| && s.nodes[z].value == x
    case RLoad(d, _) => Holds(s, d)
    case RStore(d, _, _) => Holds(s, d)
    case RPush(d, _, was) => Holds(s, d) && d < |s.nodes| && s.nodes[d].retiredNext == was
    case Crashed => false
    case _ => true
  }

  /** The node only this thread may link or retire. */
  function Own(pc: Pc): Link {
    match pc
    case EReadTail(o) => To(o)
    case EReadNext(o, _) => To(o)
    case EConfirm(o, _, _) => To(o)
    case ELink(o, _, _) => To(o)
    case EHelp(o, _, _) => To(o)
    case RLoad(d, _) => To(d)
    case RStore(d, _, _) => To(d)
    case RPush(d, _, _) => To(d)
    case _ => Null
  }

  predicate Apart(a: Pc, b: Pc) {
    Own(a).To? ==> Own(a) != Own(b)
  }

  /** A linked node's next is the node after it, or null at the end of the list. */
  lemma NextInList(s: Memory, y: nat)
    requires ChainOk(s) && InList(s, y)
    ensures y < |s.nodes|
    ensures match s.nodes[y].next.link
            case Null => s.place[y] == |s.order| - 1
            case To(z) => Follows(s, To(y), z)
  {
    var i := s.place[y];
    assert s.order[i] == y;
    if i + 1 < |s.order| { assert InList(s, s.order[i + 1]); }
  }

  // ---- Each update keeps the shape and what the other threads know ----

  predicate CanLink(s: Memory, p: nat, o: nat)
    requires EndsOk(s)
  {
    InList(s, p) && s.place[p] == |s.order| - 1 == TailPlace(s) && Private(s, o)
  }

  lemma LinkKeepsChain(v: Variant, s: Memory, p: nat, o: nat, next: Pointer)
    requires Shape(s) && p < |s.nodes| && o < |s.nodes| && CanLink(s, p, o)
    ensures ChainOk(Linked(v, s, p, o, next))
  {}

  lemma LinkKeepsShape(v: Variant, s: Memory, p: nat, o: nat, next: Pointer)
    requires Shape(s) && p < |s.nodes| && o < |s.nodes| && CanLink(s, p, o)
    ensures Shape(Linked(v, s, p, o, next))
  {
    LinkKeepsChain(v, s, p, o, next);
  }

  lemma LinkGrows(v: Variant, s: Memory, p: nat, o: nat, next: Pointer)
    requires EndsOk(s) && p < |s.nodes| && o < |s.nodes| && CanLink(s, p, o)
    ensures forall y {:trigger InList(s, y)} :: InList(s, y) ==>
      InList(Linked(v, s, p, o, next), y) && Linked(v, s, p, o, next).place[y] == s.place[y]
    ensures Follows(Linked(v, s, p, o, next), To(p), o)
  {}

  lemma LinkKeeps(v: Variant, s: Memory, p: nat, o: nat, next: Pointer, pb: Pc)
    requires EndsOk(s) && p < |s.nodes| && o < |s.nodes| && CanLink(s, p, o)
    requires EndsOk(Linked(v, s, p, o, next)) && Knows(s, pb) && Own(pb) != To(o)
    ensures Knows(Linked(v, s, p, o, next), pb)
  {
    LinkGrows(v, s, p, o, next);
  }

  lemma SwingKeepsShape(s: Memory, t: Pointer)
    requires Shape(s) && t.link.To? && Follows(s, s.tail.link, t.link.id)
    ensures Shape(s.(tail := t))
  {}

  lemma SwingKeeps(s: Memory, t: Pointer, pb: Pc)
    requires EndsOk(s) && EndsOk(s.(tail := t)) && Knows(s, pb)
    requires t.link.To? && Follows(s, s.tail.link, t.link.id)
    ensures Knows(s.(tail := t), pb)
  {}

  lemma ShiftKeepsShape(s: Memory, h: Pointer)
    requires Shape(s) && h.link.To? && Follows(s, s.head.link, h.link.id) && s.place[h.link.id] <= TailPlace(s)
    ensures Shape(s.(head := h, removed := s.removed + 1))
  {}

  lemma ShiftKeeps(s: Memory, h: Pointer, pb: Pc)
    requires EndsOk(s) && EndsOk(s.(head := h, removed := s.removed + 1)) && Knows(s, pb)
    ensures Knows(s.(head := h, removed := s.removed + 1), pb)
  {}

  lemma StoreKeepsStack(s: Memory, d: nat, was: Link)
    requires StackOk(s) && d < |s.nodes| && d !in s.stack
    ensures StackOk(s.(nodes := s.nodes[d := s.nodes[d].(retiredNext := was)]))
  {}

  lemma StoreKeepsShape(s: Memory, d: nat, was: Link)
    requires Shape(s) && d < |s.nodes| && Holds(s, d)
    ensures Shape(s.(nodes := s.nodes[d := s.nodes[d].(retiredNext := was)]))
  {
    StoreKeepsStack(s, d, was);
  }

  lemma StoreKeeps(s: Memory, d: nat, was: Link, pb: Pc)
    requires EndsOk(s) && d < |s.nodes| && Knows(s, pb) && Own(pb) != To(d)
    ensures Knows(s.(nodes := s.nodes[d := s.nodes[d].(retiredNext := was)]), pb)
  {}

  lemma PushKeepsStack(s: Memory, d: nat)
    requires StackOk(s) && d < |s.nodes| && Holds(s, d) && s.nodes[d].retiredNext == s.retired
    ensures StackOk(s.(retired := To(d), stack := [d] + s.stack))
  {}

  lemma PushKeepsShape(s: Memory, d: nat)
    requires Shape(s) && d < |s.nodes| && Holds(s, d) && s.nodes[d].retiredNext == s.retired
    ensures Shape(s.(retired := To(d), stack := [d] + s.stack))
  {
    PushKeepsStack(s, d);
  }

  lemma PushKeeps(s: Memory, d: nat, pb: Pc)
    requires EndsOk(s) && Knows(s, pb) && Own(pb) != To(d)
    ensures Knows(s.(retired := To(d), stack := [d] + s.stack), pb)
  {}

  /** A successful compare-and-swap on a null next links at the end, where the tail is too. */
  lemma LinkSite(s: Memory, o: nat, tail: Pointer, next: Pointer)
    requires Shape(s) && Knows(s, ELink(o, tail, next)) && Exists(s, tail.link)
    requires s.nodes[tail.link.id].next == next
    ensures CanLink(s, tail.link.id, o)
  {
    NextInList(s, tail.link.id);
  }

  predicate SwingsTail(pc: Pc) {
    pc.EHelp? || pc.ESwing? || pc.DHelp?
  }

  /** The node a tail swing goes to. */
  function SwingTarget(pc: Pc): nat
    requires SwingsTail(pc)
  {
    if pc.ESwing? then pc.o else pc.z
  }

  lemma SwingUpdateKeepsShape(v: Variant, s: Memory, pc: Pc)
    requires Shape(s) && Knows(s, pc) && SwingsTail(pc)
    ensures Shape(Update(v, s, pc))
  {
    if s.tail == pc.tail { SwingKeepsShape(s, Pointer(To(SwingTarget(pc)), Count(v, pc.tail.count))); }
  }

  lemma RetireKeepsShape(v: Variant, s: Memory, pc: Pc)
    requires Shape(s) && Knows(s, pc) && (pc.RStore? || pc.RPush?)
    ensures Shape(Update(v, s, pc))
  {
    if pc.RStore? && pc.d < |s.nodes| { StoreKeepsShape(s, pc.d, pc.was); }
    if pc.RPush? && s.retired == pc.was { PushKeepsShape(s, pc.d); }
  }

  lemma UpdateKeepsShape(v: Variant, s: Memory, pc: Pc)
    requires Shape(s) && Knows(s, pc)
    ensures Shape(Update(v, s, pc))
  {
    if SwingsTail(pc) {
      SwingUpdateKeepsShape(v, s, pc);
    } else if pc.RStore? || pc.RPush? {
      RetireKeepsShape(v, s, pc);
    } else if pc.ELink? && Exists(s, pc.tail.link) && s.nodes[pc.tail.link.id].next == pc.next {
      LinkSite(s, pc.o, pc.tail, pc.next);
      LinkKeepsShape(v, s, pc.tail.link.id, pc.o, pc.next);
    } else if pc.DShift? && s.head == pc.head {
      ShiftKeepsShape(s, Pointer(To(pc.z), Count(v, pc.head.count)));
    }
  }

  lemma SwingUpdateKeepsOther(v: Variant, s: Memory, pc: Pc, pb: Pc)
    requires EndsOk(s) && EndsOk(Update(v, s, pc)) && Knows(s, pc) && Knows(s, pb) && SwingsTail(pc)
    ensures Knows(Update(v, s, pc), pb)
  {
    if s.tail == pc.tail { SwingKeeps(s, Pointer(To(SwingTarget(pc)), Count(v, pc.tail.count)), pb); }
  }

  lemma RetireKeepsOther(v: Variant, s: Memory, pc: Pc, pb: Pc)
    requires EndsOk(s) && EndsOk(Update(v, s, pc)) && Knows(s, pc) && Knows(s, pb) && Apart(pc, pb)
    requires pc.RStore? || pc.RPush?
    ensures Knows(Update(v, s, pc), pb)
  {
    if pc.RStore? && pc.d < |s.nodes| { StoreKeeps(s, pc.d, pc.was, pb); }
    if pc.RPush? && s.retired == pc.was { PushKeeps(s, pc.d, pb); }
  }

  lemma UpdateKeepsOther(v: Variant, s: Memory, pc: Pc, pb: Pc)
    requires Shape(s) && Shape(Update(v, s, pc)) && Knows(s, pc) && Knows(s, pb) && Apart(pc, pb)
    ensures Knows(Update(v, s, pc), pb)
  {
    if SwingsTail(pc) {
      SwingUpdateKeepsOther(v, s, pc, pb);
    } else if pc.RStore? || pc.RPush? {
      RetireKeepsOther(v, s, pc, pb);
    } else if pc.ELink? && Exists(s, pc.tail.link) && s.nodes[pc.tail.link.id].next == pc.next {
      LinkSite(s, pc.o, pc.tail, pc.next);
      LinkKeeps(v, s, pc.tail.link.id, pc.o, pc.next, pb);
    } else if pc.DShift? && s.head == pc.head {
      ShiftKeeps(s, Pointer(To(pc.z), Count(v, pc.head.count)), pb);
    }
  }

  // ---- What the stepping thread knows afterwards ----

  lemma EnqueueKnows(v: Variant, s: Memory, pc: Pc)
    requires Shape(s) && Knows(s, pc) && EndsOk(Update(v, s, pc))
    requires pc.EReadTail? || pc.EReadNext? || pc.EConfirm? || pc.ELink? || pc.EHelp? || pc.ESwing?
    ensures Knows(Update(v, s, pc), Continue(v, s, pc))
  {
    if (pc.EReadNext? || pc.ELink?) && Exists(s, pc.tail.link) {
      NextInList(s, pc.tail.link.id);
    }
  }

  lemma DequeueReadKnows(v: Variant, s: Memory, pc: Pc)
    requires Shape(s) && Knows(s, pc)
    requires pc.DReadHead? || pc.DReadTail? || pc.DReadNext? || pc.DReadValue?
    ensures Knows(s, Continue(v, s, pc))
  {
    if pc.DReadNext? { NextInList(s, pc.head.link.id); }
    if pc.DReadValue? { NextInList(s, pc.to.id); }
  }

  lemma DequeueDecisionKnows(v: Variant, s: Memory, pc: Pc)
    requires EndsOk(s) && Knows(s, pc) && (pc.DConfirm? || pc.DHelp?) && EndsOk(Update(v, s, pc))
    ensures Knows(Update(v, s, pc), Continue(v, s, pc))
  {}

  lemma RetireKnows(v: Variant, s: Memory, pc: Pc)
    requires Shape(s) && Knows(s, pc) && EndsOk(Update(v, s, pc))
    requires pc.DShift? || pc.RLoad? || pc.RStore? || pc.RPush?
    ensures Knows(Update(v, s, pc), Continue(v, s, pc))
  {
    if pc.RStore? { NextInList(s, pc.d); }
  }

  lemma OwnKnows(v: Variant, s: Memory, pc: Pc)
    requires Shape(s) && Knows(s, pc) && EndsOk(Update(v, s, pc))
    ensures Knows(Update(v, s, pc), Continue(v, s, pc))
  {
    if pc.EReadTail? || pc.EReadNext? || pc.EConfirm? || pc.ELink? || pc.EHelp? || pc.ESwing? {
      EnqueueKnows(v, s, pc);
    } else if pc.DShift? || pc.RLoad? || pc.RStore? || pc.RPush? {
      RetireKnows(v, s, pc);
    } else if pc.DConfirm? || pc.DHelp? {
      DequeueDecisionKnows(v, s, pc);
    } else if !pc.EDone? && !pc.DDone? && !pc.DFalse? {
      DequeueReadKnows(v, s, pc);
    }
  }

  lemma OwnAfterStep(v: Variant, s: Memory, pc: Pc)
    requires EndsOk(s) && Knows(s, pc)
    ensures var o := Own(Continue(v, s, pc)); o == Null || o == Own(pc) || (pc.DShift? && o == s.head.link)
  {}

  lemma HeadIsUnowned(s: Memory, pb: Pc)
    requires EndsOk(s) && Knows(s, pb)
    ensures Own(pb) != s.head.link
  {}

  /** What a thread owns nobody else can come to own: the head's node is neither private nor held. */
  lemma StaysApart(v: Variant, s: Memory, pc: Pc, pb: Pc)
    requires EndsOk(s) && Knows(s, pc) && Knows(s, pb) && Apart(pc, pb) && Apart(pb, pc)
    ensures Apart(Continue(v, s, pc), pb) && Apart(pb, Continue(v, s, pc))
  {
    OwnAfterStep(v, s, pc);
    HeadIsUnowned(s, pb);
  }

  // ---- Dequeued nodes are accounted for ----

  predicate Retiring(pc: Pc, y: nat) {
    (pc.RLoad? || pc.RStore? || pc.RPush?) && pc.d == y
  }

  /** Every node the head has passed is on the retired stack or in the hands of a retiring thread. */
  ghost predicate Partition(s: State) {
    forall y :: InList(s.mem, y) && s.mem.place[y] < s.mem.removed && y !in s.mem.stack ==>
      exists b :: b in s.threads && Retiring(s.threads[b], y)
  }

  ghost predicate Inv(v: Variant, s: State) {
    && Shape(s.mem)
    && (forall b <- s.threads :: Knows(s.mem, s.threads[b]))
    && (forall a, b | a in s.threads && b in s.threads && a != b :: Apart(s.threads[a], s.threads[b]))
    && (v.Valois? ==> Partition(s))
  }

  lemma InitInv(v: Variant)
    ensures Inv(v, Init())
  {}

  lemma NextKeepsPartition(s: State, me: Tid)
    requires Inv(Valois, s)
    ensures Partition(Next(Valois, s, me))
  {
    var s' := Next(Valois, s, me);
    forall y | InList(s'.mem, y) && s'.mem.place[y] < s'.mem.removed && y !in s'.mem.stack
      ensures exists b :: b in s'.threads && Retiring(s'.threads[b], y)
    {
      if me in s.threads && !Retiring(s'.threads[me], y) {
        PassedEarlier(s, me, y);
        var b :| b in s.threads && Retiring(s.threads[b], y);
        assert b in s'.threads && Retiring(s'.threads[b], y);
      }
    }
  }

  /** A node passed after the step and not in me's hands was passed before it. */
  lemma PassedEarlier(s: State, me: Tid, y: nat)
    requires Shape(s.mem) && me in s.threads && Knows(s.mem, s.threads[me])
    requires var s' := Next(Valois, s, me);
      InList(s'.mem, y) && s'.mem.place[y] < s'.mem.removed && y !in s'.mem.stack && !Retiring(s'.threads[me], y)
    ensures InList(s.mem, y) && s.mem.place[y] < s.mem.removed && y !in s.mem.stack
    ensures !Retiring(s.threads[me], y)
  {
    var pc := s.threads[me];
    if pc.ELink? {
      LinkPassesNothing(s.mem, pc, y);
    } else if pc.DShift? {
      ShiftPassesHead(s.mem, pc, y);
    }
  }

  lemma ShiftPassesHead(m: Memory, pc: Pc, y: nat)
    requires Shape(m) && pc.DShift? && Knows(m, pc)
    requires var m' := Update(Valois, m, pc);
      InList(m', y) && m'.place[y] < m'.removed && !Retiring(Continue(Valois, m, pc), y)
    ensures InList(m, y) && m.place[y] < m.removed
  {
    if m.head == pc.head { assert m.order[m.removed] == m.head.link.id; }
  }

  lemma LinkPassesNothing(m: Memory, pc: Pc, y: nat)
    requires Shape(m) && pc.ELink? && Knows(m, pc)
    requires var m' := Update(Valois, m, pc); InList(m', y) && m'.place[y] < m'.removed
    ensures InList(m, y) && m.place[y] < m.removed
  {
    if Exists(m, pc.tail.link) && m.nodes[pc.tail.link.id].next == pc.next {
      LinkSite(m, pc.o, pc.tail, pc.next);
    }
  }

  lemma NextKeepsOthersApart(v: Variant, s: State, me: Tid, a: Tid, b: Tid)
    requires Inv(v, s) && me in s.threads && a in s.threads && b in s.threads && a != b
    ensures Apart(Next(v, s, me).threads[a], Next(v, s, me).threads[b])
  {
    assert Apart(s.threads[a], s.threads[b]) && Apart(s.threads[b], s.threads[a]);
    if a == me { StaysApart(v, s.mem, s.threads[me], s.threads[b]); }
    if b == me { StaysApart(v, s.mem, s.threads[me], s.threads[a]); }
  }

  lemma NextKeepsInv(v: Variant, s: State, me: Tid)
    requires Inv(v, s)
    ensures Inv(v, Next(v, s, me))
  {
    if me in s.threads {
      var pc, s' := s.threads[me], Next(v, s, me);
      UpdateKeepsShape(v, s.mem, pc);
      OwnKnows(v, s.mem, pc);
      forall b <- s'.threads ensures Knows(s'.mem, s'.threads[b]) {
        if b != me { UpdateKeepsOther(v, s.mem, pc, s.threads[b]); }
      }
      forall a, b | a in s'.threads && b in s'.threads && a != b
        ensures Apart(s'.threads[a], s'.threads[b])
      {
        NextKeepsOthersApart(v, s, me, a, b);
      }
      if v.Valois? { NextKeepsPartition(s, me); }
    }
  }

  lemma FailKeepsPartition(s: State, me: Tid)
    requires Partition(s)
    ensures Partition(FailSpuriously(s, me))
  {
    var s' := FailSpuriously(s, me);
    forall y | InList(s'.mem, y) && s'.mem.place[y] < s'.mem.removed && y !in s'.mem.stack
      ensures exists b :: b in s'.threads && Retiring(s'.threads[b], y)
    {
      var b :| b in s.threads && Retiring(s.threads[b], y);
      assert Retiring(s'.threads[b], y);
    }
  }

  lemma FailKeepsKnowledge(s: State, me: Tid, b: Tid)
    requires EndsOk(s.mem) && b in s.threads && Knows(s.mem, s.threads[b])
    ensures var pb := FailSpuriously(s, me).threads[b]; Knows(s.mem, pb) && Own(pb) == Own(s.threads[b])
  {}

  lemma FailKeepsInv(v: Variant, s: State, me: Tid)
    requires Inv(v, s)
    ensures Inv(v, FailSpuriously(s, me))
  {
    var s' := FailSpuriously(s, me);
    if v.Valois? { FailKeepsPartition(s, me); }
    forall b <- s'.threads ensures Knows(s'.mem, s'.threads[b]) && Own(s'.threads[b]) == Own(s.threads[b]) {
      FailKeepsKnowledge(s, me, b);
    }
    forall a, b | a in s'.threads && b in s'.threads && a != b
      ensures Apart(s'.threads[a], s'.threads[b])
    {
      assert Apart(s.threads[a], s.threads[b]);
    }
  }

  lemma AllocationKeepsShape(s: Memory, x: Item)
    requires Shape(s)
    ensures Shape(Allocated(s, x))
  {}

  lemma AllocationKeeps(s: Memory, x: Item, pb: Pc)
    requires EndsOk(s) && EndsOk(Allocated(s, x)) && Knows(s, pb)
    ensures Knows(Allocated(s, x), pb)
  {}

  lemma FreshIsUnowned(s: Memory, pb: Pc)
    requires Shape(s) && Knows(s, pb)
    ensures Own(pb) != To(|s.nodes|) && |s.nodes| !in s.place
  {}

  lemma BeginKeepsOther(s: State, me: Tid, call: Call, b: Tid)
    requires Shape(s.mem) && Shape(Begin(s, me, call).mem) && IsIdle(s, me)
    requires b in s.threads && b != me && Knows(s.mem, s.threads[b])
    ensures var s' := Begin(s, me, call);
      && Knows(s'.mem, s.threads[b])
      && Apart(s'.threads[me], s.threads[b]) && Apart(s.threads[b], s'.threads[me])
  {
    FreshIsUnowned(s.mem, s.threads[b]);
    if call.Enqueue? { AllocationKeeps(s.mem, call.x, s.threads[b]); }
  }

  lemma BeginKeepsPartition(s: State, me: Tid, call: Call)
    requires Partition(s) && IsIdle(s, me)
    ensures Partition(Begin(s, me, call))
  {
    var s' := Begin(s, me, call);
    forall y | InList(s'.mem, y) && s'.mem.place[y] < s'.mem.removed && y !in s'.mem.stack
      ensures exists b :: b in s'.threads && Retiring(s'.threads[b], y)
    {
      assert InList(s.mem, y);
      var b :| b in s.threads && Retiring(s.threads[b], y);
      assert Retiring(s'.threads[b], y);
    }
  }

  lemma BeginKnows(s: State, me: Tid, call: Call)
    requires Shape(s.mem)
    ensures Shape(Begin(s, me, call).mem) && Knows(Begin(s, me, call).mem, Begin(s, me, call).threads[me])
  {
    if call.Enqueue? { AllocationKeepsShape(s.mem, call.x); }
    FreshIsUnowned(s.mem, EDone);
  }

  lemma BeginKeepsInv(v: Variant, s: State, me: Tid, call: Call)
    requires Inv(v, s) && IsIdle(s, me)
    ensures Inv(v, Begin(s, me, call))
  {
    var s' := Begin(s, me, call);
    BeginKnows(s, me, call);
    forall b <- s'.threads
      ensures Knows(s'.mem, s'.threads[b])
      ensures b != me ==> Apart(s'.threads[me], s'.threads[b]) && Apart(s'.threads[b], s'.threads[me])
    {
      if b != me { BeginKeepsOther(s, me, call, b); }
    }
    if v.Valois? { BeginKeepsPartition(s, me, call); }
  }

  // ---- Refinement of the atomic queue ----

  function ValueOf(s: Memory, o: nat): Item {
    if o < |s.nodes| then s.nodes[o].value else 0
  }

  /** A dequeue that has read a null next has seen the queue empty. */
  function AbsPc(s: Memory, pc: Pc): Phase {
    match pc
    case EReadTail(o) => Enqueueing(ValueOf(s, o))
    case EReadNext(o, _) => Enqueueing(ValueOf(s, o))
    case EConfirm(o, _, _) => Enqueueing(ValueOf(s, o))
    case ELink(o, _, _) => Enqueueing(ValueOf(s, o))
    case EHelp(o, _, _) => Enqueueing(ValueOf(s, o))
    case ESwing(_, _) => Enqueued
    case EDone => Enqueued
    case DConfirm(_, _, next) => Dequeueing(next.link == Null)
    case RLoad(_, x) => Dequeued(x)
    case RStore(_, x, _) => Dequeued(x)
    case RPush(_, x, _) => Dequeued(x)
    case DDone(x) => Dequeued(x)
    case DFalse => FoundEmpty
    case _ => Dequeueing(false)
  }

  function Abs(s: State): Queue {
    Queue(s.mem.added, s.mem.removed, map b <- s.threads :: AbsPc(s.mem, s.threads[b]))
  }

  lemma ValuesAreFixed(v: Variant, s: Memory, pc: Pc, pb: Pc)
    ensures AbsPc(Update(v, s, pc), pb) == AbsPc(s, pb)
  {}

  ghost predicate HasEffect(v: Variant, s: Memory, pc: Pc) {
    Effect(AbsPc(s, pc), AbsPc(s, Continue(v, s, pc)),
           s.added, s.removed, Update(v, s, pc).added, Update(v, s, pc).removed)
  }

  lemma ShiftEffect(v: Variant, s: Memory, pc: Pc)
    requires Shape(s) && Knows(s, pc) && pc.DShift?
    ensures HasEffect(v, s, pc)
  {
    if s.head == pc.head {
      assert s.order[s.removed + 1] == pc.z;
      assert s.nodes[s.order[s.removed + 1]].value == s.added[s.removed];
    }
  }

  lemma EnqueueEffect(v: Variant, s: Memory, pc: Pc)
    requires Shape(s) && Knows(s, pc) && pc.ELink?
    ensures HasEffect(v, s, pc)
  {
    NextInList(s, pc.tail.link.id);
  }

  lemma EnqueueReadEffect(v: Variant, s: Memory, pc: Pc)
    requires EndsOk(s) && Knows(s, pc)
    requires pc.EReadTail? || pc.EReadNext? || pc.EConfirm? || pc.EHelp? || pc.ESwing? || pc.EDone?
    requires Exists(s, pc.Follow()) || pc.Follow() == Null
    ensures HasEffect(v, s, pc)
  {}

  lemma DequeueReadEffect(v: Variant, s: Memory, pc: Pc)
    requires EndsOk(s) && Knows(s, pc)
    requires pc.DReadHead? || pc.DReadTail? || pc.DConfirm? || pc.DHelp? || pc.DReadValue?
    requires Exists(s, pc.Follow()) || pc.Follow() == Null
    ensures HasEffect(v, s, pc)
  {}

  lemma NextReadEffect(v: Variant, s: Memory, pc: Pc)
    requires Shape(s) && Knows(s, pc) && pc.DReadNext?
    ensures HasEffect(v, s, pc)
  {
    NextInList(s, pc.head.link.id);
  }

  lemma RetireEffect(v: Variant, s: Memory, pc: Pc)
    requires EndsOk(s) && Knows(s, pc)
    requires pc.RLoad? || pc.RStore? || pc.RPush? || pc.DDone? || pc.DFalse?
    requires Exists(s, pc.Follow()) || pc.Follow() == Null
    ensures HasEffect(v, s, pc)
  {}

  /** The abstract effect of one access: nothing, or exactly the enqueue or dequeue of its thread. */
  lemma AccessEffect(v: Variant, s: Memory, pc: Pc)
    requires Shape(s) && Knows(s, pc)
    ensures HasEffect(v, s, pc)
  {
    if pc.Follow().To? { NextInList(s, pc.Follow().id); }
    match pc
    case DShift(_, _, _) => ShiftEffect(v, s, pc);
    case ELink(_, _, _) => EnqueueEffect(v, s, pc);
    case RLoad(_, _) => RetireEffect(v, s, pc);
    case RStore(_, _, _) => RetireEffect(v, s, pc);
    case RPush(_, _, _) => RetireEffect(v, s, pc);
    case DDone(_) => RetireEffect(v, s, pc);
    case DFalse => RetireEffect(v, s, pc);
    case DReadHead => DequeueReadEffect(v, s, pc);
    case DReadTail(_) => DequeueReadEffect(v, s, pc);
    case DReadNext(_, _) => NextReadEffect(v, s, pc);
    case DConfirm(_, _, _) => DequeueReadEffect(v, s, pc);
    case DHelp(_, _) => DequeueReadEffect(v, s, pc);
    case DReadValue(_, _) => DequeueReadEffect(v, s, pc);
    case Crashed =>
    case _ => EnqueueReadEffect(v, s, pc);
  }

  lemma AbsNext(v: Variant, s: State, me: Tid)
    requires me in s.threads
    ensures var pc := s.threads[me];
      Abs(Next(v, s, me)).threads == Abs(s).threads[me := AbsPc(s.mem, Continue(v, s.mem, pc))]
  {
    var pc := s.threads[me];
    ValuesAreFixed(v, s.mem, pc, Continue(v, s.mem, pc));
    forall b <- s.threads ensures AbsPc(Next(v, s, me).mem, s.threads[b]) == AbsPc(s.mem, s.threads[b]) {
      ValuesAreFixed(v, s.mem, pc, s.threads[b]);
    }
  }

  lemma RefinesFifo(v: Variant, s: State, me: Tid)
    requires Inv(v, s)
    ensures Valid(Abs(s)) && Step(Abs(s), Abs(Next(v, s, me)), me)
  {
    if me in s.threads {
      var pc := s.threads[me];
      AbsNext(v, s, me);
      AccessEffect(v, s.mem, pc);
      EffectIsStep(Abs(s), Abs(Next(v, s, me)), me, AbsPc(s.mem, Continue(v, s.mem, pc)));
    }
  }

  // ---- Every run ----

  datatype Act = Invoke(me: Tid, call: Call) | Go(me: Tid) | Fail(me: Tid)

  function Perform(v: Variant, s: State, act: Act): State {
    match act
    case Invoke(me, call) => if IsIdle(s, me) then Begin(s, me, call) else s
    case Go(me) => Next(v, s, me)
    case Fail(me) => FailSpuriously(s, me)
  }

  function Run(v: Variant, schedule: seq<Act>): State {
    if schedule == [] then Init()
    else Perform(v, Run(v, schedule[..|schedule| - 1]), schedule[|schedule| - 1])
  }

  lemma PerformKeepsInv(v: Variant, s: State, act: Act)
    requires Inv(v, s)
    ensures Inv(v, Perform(v, s, act))
  {
    match act
    case Invoke(me, call) => if IsIdle(s, me) { BeginKeepsInv(v, s, me, call); }
    case Go(me) => NextKeepsInv(v, s, me);
    case Fail(me) => FailKeepsInv(v, s, me);
  }

  lemma {:induction false} EveryRunKeepsInv(v: Variant, schedule: seq<Act>)
    ensures Inv(v, Run(v, schedule))
  {
    if schedule == [] {
      InitInv(v);
    } else {
      EveryRunKeepsInv(v, schedule[..|schedule| - 1]);
      PerformKeepsInv(v, Run(v, schedule[..|schedule| - 1]), schedule[|schedule| - 1]);
    }
  }

  lemma AllocationKeepsPhase(s: Memory, x: Item, pb: Pc)
    requires EndsOk(s) && Knows(s, pb)
    ensures AbsPc(Allocated(s, x), pb) == AbsPc(s, pb)
  {}

  lemma BeginRefines(s: State, me: Tid, call: Call)
    requires EndsOk(s.mem) && (forall b <- s.threads :: Knows(s.mem, s.threads[b])) && IsIdle(s, me)
    ensures Abs(Begin(s, me, call)) == Abs(s).(threads := Abs(s).threads[me := Started(call)])
  {
    forall b <- s.threads | b != me
      ensures AbsPc(Begin(s, me, call).mem, s.threads[b]) == AbsPc(s.mem, s.threads[b])
    {
      if call.Enqueue? { AllocationKeepsPhase(s.mem, call.x, s.threads[b]); }
    }
  }

  lemma FailRefines(s: State, me: Tid)
    ensures Abs(FailSpuriously(s, me)) == Abs(s)
  {
    assert Abs(FailSpuriously(s, me)).threads == Abs(s).threads;
  }

  lemma IdleRefines(s: State, me: Tid)
    requires IsIdle(s, me)
    ensures Idle(Abs(s), me)
  {}

  /** Each act of a run is a step of the atomic queue. */
  lemma PerformRefines(v: Variant, s: State, act: Act)
    requires Inv(v, s)
    ensures RunStep(Abs(s), Abs(Perform(v, s, act)), act.me)
  {
    RefinesFifo(v, s, act.me);
    match act
    case Invoke(me, call) =>
      if IsIdle(s, me) {
        BeginRefines(s, me, call);
        IdleRefines(s, me);
      }
    case Go(me) =>
    case Fail(me) => FailRefines(s, me);
  }

  function AbsRun(v: Variant, schedule: seq<Act>): seq<Queue> {
    seq(|schedule| + 1, i requires 0 <= i <= |schedule| => Abs(Run(v, schedule[..i])))
  }

  function Who(schedule: seq<Act>): seq<Tid> {
    seq(|schedule|, i requires 0 <= i < |schedule| => schedule[i].me)
  }

  /** Every run is a run of the atomic queue, so the lemmas about those apply to it. */
  lemma EveryRunIsFifo(v: Variant, schedule: seq<Act>)
    ensures IsRun(AbsRun(v, schedule), Who(schedule))
  {
    var run := AbsRun(v, schedule);
    assert run[0].threads == map[];
    forall i | 0 <= i < |schedule| ensures RunStep(run[i], run[i + 1], schedule[i].me) {
      assert schedule[..i + 1][..i] == schedule[..i];
      EveryRunKeepsInv(v, schedule[..i]);
      PerformRefines(v, Run(v, schedule[..i]), schedule[i]);
    }
  }

  /** Step i of the schedule begins a call of me, and me begins no other call after it. */
  ghost predicate LatestCall(v: Variant, schedule: seq<Act>, me: Tid, i: nat, call: Call) {
    && i < |schedule| && schedule[i] == Invoke(me, call) && IsIdle(Run(v, schedule[..i]), me)
    && (forall m | i < m < |schedule| :: schedule[m].Invoke? && schedule[m].me == me ==>
          !IsIdle(Run(v, schedule[..m]), me))
  }

  /** The act at m is by me and takes effect: it adds x to the record, or removes x from the queue. */
  predicate AddsAt(v: Variant, schedule: seq<Act>, me: Tid, m: nat, x: Item) {
    && m < |schedule| && schedule[m].me == me
    && Run(v, schedule[..m + 1]).mem.added == Run(v, schedule[..m]).mem.added + [x]
  }

  predicate RemovesAt(v: Variant, schedule: seq<Act>, me: Tid, m: nat, x: Item) {
    && m < |schedule| && schedule[m].me == me
    && var s, s' := Run(v, schedule[..m]).mem, Run(v, schedule[..m + 1]).mem;
       s.removed < |s.added| && x == s.added[s.removed] && s'.removed == s.removed + 1
  }

  predicate EmptyAt(v: Variant, schedule: seq<Act>, m: nat) {
    m < |schedule| && var s := Run(v, schedule[..m]).mem; s.removed == |s.added|
  }

  /** An act that does not begin a call is one step of the atomic queue. */
  lemma ActIsStep(v: Variant, s: State, act: Act)
    requires Inv(v, s) && !(act.Invoke? && IsIdle(s, act.me))
    ensures Valid(Abs(s)) && Step(Abs(s), Abs(Perform(v, s, act)), act.me)
  {
    RefinesFifo(v, s, act.me);
    if act.Fail? { FailRefines(s, act.me); }
  }

  /** Instant m of the run of the atomic queue. */
  lemma {:induction false} AtInstant(v: Variant, schedule: seq<Act>, m: nat)
    requires m < |schedule|
    ensures AbsRun(v, schedule)[m] == Abs(Run(v, schedule[..m]))
    ensures AbsRun(v, schedule)[m + 1] == Abs(Perform(v, Run(v, schedule[..m]), schedule[m]))
  {
    assert schedule[..m + 1][..m] == schedule[..m];
  }

  lemma BeginIsCall(v: Variant, s: State, me: Tid, call: Call)
    requires Inv(v, s) && IsIdle(s, me)
    ensures Idle(Abs(s), me) && me in Abs(Begin(s, me, call)).threads
    ensures Abs(Begin(s, me, call)).threads[me] ==
      match call case Enqueue(x) => Enqueueing(x) case Dequeue => Dequeueing(false)
  {
    BeginRefines(s, me, call);
    IdleRefines(s, me);
  }

  /** The latest call of a schedule is a call of the run of the atomic queue. */
  lemma {:induction false} CallInRun(v: Variant, schedule: seq<Act>, me: Tid, i: nat, call: Call)
    requires LatestCall(v, schedule, me, i, call)
    ensures CallFrom(AbsRun(v, schedule), Who(schedule), me, i, |schedule|)
    ensures AbsRun(v, schedule)[i + 1].threads[me] ==
      match call case Enqueue(x) => Enqueueing(x) case Dequeue => Dequeueing(false)
  {
    var run := AbsRun(v, schedule);
    EveryRunKeepsInv(v, schedule[..i]);
    AtInstant(v, schedule, i);
    BeginIsCall(v, Run(v, schedule[..i]), me, call);
    forall m | i < m < |schedule| && schedule[m].me == me ensures Valid(run[m]) && Step(run[m], run[m + 1], me) {
      AtInstant(v, schedule, m);
      EveryRunKeepsInv(v, schedule[..m]);
      ActIsStep(v, Run(v, schedule[..m]), schedule[m]);
    }
  }

  /** What happens at an instant of the run of the atomic queue happens at that instant of the schedule. */
  lemma {:induction false} SameInstant(v: Variant, schedule: seq<Act>, me: Tid, m: nat, x: Item)
    requires m < |schedule|
    ensures Adds(AbsRun(v, schedule), Who(schedule), me, m, x) ==> AddsAt(v, schedule, me, m, x)
    ensures Removes(AbsRun(v, schedule), Who(schedule), me, m, x) ==> RemovesAt(v, schedule, me, m, x)
    ensures Fifo.EmptyAt(AbsRun(v, schedule), m) ==> EmptyAt(v, schedule, m)
  {}

  /** The answer a thread shows is the answer of the atomic queue. */
  lemma SameAnswer(s: State, me: Tid)
    requires me in s.threads && IsIdle(s, me)
    ensures match s.threads[me]
            case EDone => Abs(s).threads[me] == Enqueued
            case DDone(x) => Abs(s).threads[me] == Dequeued(x)
            case DFalse => Abs(s).threads[me] == FoundEmpty
            case _ => false
  {}

  /**
   * What a call returns with: an enqueue that has returned has added the item it was called with, a
   * dequeue has removed the item it answers with, each by one access of its own inside the call; and
   * `false` was answered because the queue was empty inside the call.
   */
  lemma {:induction false} CallReturns(v: Variant, schedule: seq<Act>, me: Tid, i: nat, call: Call)
    requires LatestCall(v, schedule, me, i, call) && IsIdle(Run(v, schedule), me)
    ensures me in Run(v, schedule).threads
    ensures match Run(v, schedule).threads[me]
            case EDone =>
              call.Enqueue? && exists m: nat | i < m < |schedule| :: AddsAt(v, schedule, me, m, call.x)
            case DDone(x) =>
              call.Dequeue? && exists m: nat | i < m < |schedule| :: RemovesAt(v, schedule, me, m, x)
            case DFalse =>
              call.Dequeue? && exists m: nat | i < m < |schedule| :: EmptyAt(v, schedule, m)
            case _ => false
  {
    var run, who := AbsRun(v, schedule), Who(schedule);
    assert schedule[..|schedule|] == schedule;
    EveryRunIsFifo(v, schedule);
    CallInRun(v, schedule, me, i, call);
    CallTakesEffect(run, who, me, i, |schedule|);
    SameAnswer(Run(v, schedule), me);
    forall m: nat, x | m < |schedule|
      ensures Adds(run, who, me, m, x) ==> AddsAt(v, schedule, me, m, x)
      ensures Removes(run, who, me, m, x) ==> RemovesAt(v, schedule, me, m, x)
    {
      SameInstant(v, schedule, me, m, x);
    }
    forall m: nat | m < |schedule| ensures Fifo.EmptyAt(run, m) ==> EmptyAt(v, schedule, m) {
      SameInstant(v, schedule, me, m, 0);
    }
  }

  // ---- Head and tail ----

  /** The access of a thread at pc follows only nodes that exist. */
  predicate Dereferences(s: Memory, pc: Pc) {
    && (pc.EReadNext? || pc.ELink? || pc.DReadNext? || pc.DReadValue? || pc.RStore? ==> Exists(s, pc.Follow()))
    && (pc.DShift? ==> pc.head.link.To?)
    && pc != Crashed
  }

  /** No reachable access follows a null pointer; in particular `next` is not null at D12. */
  lemma NeverFollowsNull(s: Memory, pc: Pc)
    requires Shape(s) && Knows(s, pc)
    ensures Dereferences(s, pc)
  {
    if pc.Follow().To? { NextInList(s, pc.Follow().id); }
  }

  /** Where the end pointer p stands in the list. */
  function PlaceOf(s: Memory, p: Pointer): nat {
    if p.link.To? && p.link.id in s.place then s.place[p.link.id] else 0
  }

  lemma PlacesStay(v: Variant, s: Memory, pc: Pc, p: Pointer)
    requires Shape(s) && Knows(s, pc) && p.link.To? && InList(s, p.link.id)
    ensures PlaceOf(Update(v, s, pc), p) == PlaceOf(s, p)
  {
    if pc.ELink? && Exists(s, pc.tail.link) && s.nodes[pc.tail.link.id].next == pc.next {
      LinkSite(s, pc.o, pc.tail, pc.next);
    }
  }

  /**
   * Head and tail advance one link at a time, the head never passes the tail, and the tail is at
   * most one node behind the last, although the counters wrap.
   */
  lemma EndsAdvance(v: Variant, s: Memory, pc: Pc)
    requires Shape(s) && Knows(s, pc)
    ensures var s' := Update(v, s, pc);
      && (PlaceOf(s', s'.head) == PlaceOf(s, s.head) || PlaceOf(s', s'.head) == PlaceOf(s, s.head) + 1)
      && (PlaceOf(s', s'.tail) == PlaceOf(s, s.tail) || PlaceOf(s', s'.tail) == PlaceOf(s, s.tail) + 1)
      && PlaceOf(s', s'.head) <= PlaceOf(s', s'.tail) && |s'.order| - 2 <= PlaceOf(s', s'.tail) < |s'.order|
  {
    UpdateKeepsShape(v, s, pc);
    PlacesStay(v, s, pc, s.head);
    PlacesStay(v, s, pc, s.tail);
  }

  // ---- Reclamation in ValoisQueue ----

  predicate Quiescent(s: State) {
    forall b <- s.threads :: IsIdle(s, b)
  }

  lemma LiveNode(m: Memory, i: nat)
    requires Shape(m) && i < |m.order[m.removed..]|
    ensures m.order[m.removed..][i] == m.order[m.removed + i] && InList(m, m.order[m.removed + i])
    ensures m.place[m.order[m.removed + i]] == m.removed + i
  {}

  lemma NotLiveIsPassed(m: Memory, y: nat)
    requires Shape(m) && InList(m, y)
    ensures y in m.order[m.removed..] || m.place[y] < m.removed
  {
    if m.removed <= m.place[y] {
      assert m.order[m.removed..][m.place[y] - m.removed] == y;
    }
  }

  lemma TraversalsDisjoint(m: Memory, i: nat, j: nat)
    requires Shape(m) && i < j < |m.order[m.removed..]| + |m.stack|
    ensures (m.order[m.removed..] + m.stack)[i] != (m.order[m.removed..] + m.stack)[j]
  {
    var n := |m.order[m.removed..]|;
    if i < n { LiveNode(m, i); }
    if j < n { LiveNode(m, j); } else { assert (m.order[m.removed..] + m.stack)[j] == m.stack[j - n]; }
  }

  lemma PassedNodesAreRetired(s: State, y: nat)
    requires Inv(Valois, s) && Quiescent(s) && InList(s.mem, y) && s.mem.place[y] < s.mem.removed
    ensures y in s.mem.stack
  {}

  /**
   * The two traversals of the destructor free every node that was ever in the list, each exactly
   * once, when no operation is running.
   */
  lemma DestructorFreesEachNodeOnce(s: State)
    requires Inv(Valois, s) && Quiescent(s)
    ensures var freed := s.mem.order[s.mem.removed..] + s.mem.stack;
      && (forall i, j | 0 <= i < j < |freed| :: freed[i] != freed[j])
      && (forall y :: y in freed <==> InList(s.mem, y))
  {
    var m := s.mem;
    var live, freed := m.order[m.removed..], m.order[m.removed..] + m.stack;
    forall i, j | 0 <= i < j < |freed| ensures freed[i] != freed[j] {
      TraversalsDisjoint(m, i, j);
    }
    forall y ensures y in freed <==> InList(m, y) {
      if y in live {
        var i :| 0 <= i < |live| && live[i] == y;
        LiveNode(m, i);
      } else if InList(m, y) {
        NotLiveIsPassed(m, y);
        PassedNodesAreRetired(s, y);
      }
    }
  }
}
