/**
 * TwoLockQueue: a dummy-headed list with one lock for each end, whose dequeuer deletes the old dummy
 * after releasing its lock. Touching or deleting a deleted node leads to `Crashed`.
 */
module TwoLockQueue {
  import opened Fifo

  datatype Link = Null | To(id: nat)
  datatype Lock = Free | HeldBy(owner: Tid)
  datatype Node = Node(item: Item, next: Link)

  datatype Pc =
    | ELock(o: nat)
    | ELinkNode(o: nat)
    | ESetTail(o: nat)
    | EUnlock
    | EDone
    | DLock
    | DReadHead
    | DReadNext(d: nat)
    | DUnlockEmpty
    | DReadItem(d: nat, n: nat)
    | DSetHead(d: nat, n: nat, x: Item)
    | DUnlock(d: nat, x: Item)
    | DDelete(d: nat, x: Item)
    | DDone(x: Item)
    | DFalse
    | Crashed

  /** `order`, `added` and `removed` are history: the nodes ever linked, and the record of items. */
  datatype Memory = Memory(
    head: nat, tail: nat, nodes: seq<Node>, freed: set<nat>, headLock: Lock, tailLock: Lock,
    order: seq<nat>, added: seq<Item>, removed: nat)

  datatype State = State(mem: Memory, threads: map<Tid, Pc>)

  function Init(): State {
    State(Memory(0, 0, [Node(0, Null)], {}, Free, Free, [0], [], 0), map[])
  }

  /** The node exists and has not been deleted. */
  predicate Live(s: Memory, y: nat) {
    y < |s.nodes| && y !in s.freed
  }

  function Update(s: Memory, me: Tid, pc: Pc): Memory {
    match pc
    case ELock(_) => if s.tailLock.Free? then s.(tailLock := HeldBy(me)) else s
    case ELinkNode(o) =>
      if Live(s, s.tail) && o < |s.nodes|
      then s.(nodes := s.nodes[s.tail := s.nodes[s.tail].(next := To(o))],
              order := s.order + [o], added := s.added + [s.nodes[o].item])
      else s
    case ESetTail(o) => s.(tail := o)
    case EUnlock => s.(tailLock := Free)
    case DLock => if s.headLock.Free? then s.(headLock := HeldBy(me)) else s
    case DUnlockEmpty => s.(headLock := Free)
    case DSetHead(_, n, _) => s.(head := n, removed := s.removed + 1)
    case DUnlock(_, _) => s.(headLock := Free)
    case DDelete(d, _) => s.(freed := s.freed + {d})
    case _ => s
  }

  function Continue(s: Memory, pc: Pc): Pc {
    match pc
    case ELock(o) => if s.tailLock.Free? then ELinkNode(o) else pc
    case ELinkNode(o) => if Live(s, s.tail) then ESetTail(o) else Crashed
    case ESetTail(_) => EUnlock
    case EUnlock => EDone
    case DLock => if s.headLock.Free? then DReadHead else pc
    case DReadHead => DReadNext(s.head)
    case DReadNext(d) =>
      if !Live(s, d) then Crashed
      else (match s.nodes[d].next case Null => DUnlockEmpty case To(n) => DReadItem(d, n))
    case DUnlockEmpty => DFalse
    case DReadItem(d, n) => if Live(s, n) then DSetHead(d, n, s.nodes[n].item) else Crashed
    case DSetHead(d, _, x) => DUnlock(d, x)
    case DUnlock(d, x) => DDelete(d, x)
    case DDelete(d, x) => if Live(s, d) then DDone(x) else Crashed
    case _ => pc
  }

  function Next(s: State, me: Tid): State {
    if me !in s.threads then s else
    var pc := s.threads[me];
    State(Update(s.mem, me, pc), s.threads[me := Continue(s.mem, pc)])
  }

  predicate IsIdle(s: State, me: Tid) {
    me in s.threads ==> s.threads[me].EDone? || s.threads[me].DDone? || s.threads[me].DFalse?
  }

  function Allocated(s: Memory, x: Item): Memory {
    s.(nodes := s.nodes + [Node(x, Null)])
  }

  function Begin(s: State, me: Tid, call: Call): State {
    match call
    case Enqueue(x) => State(Allocated(s.mem, x), s.threads[me := ELock(|s.mem.nodes|)])
    case Dequeue => s.(threads := s.threads[me := DLock])
  }

  // ---- The invariant ----

  function Last(s: Memory): nat
    requires s.order != []
  {
    s.order[|s.order| - 1]
  }

  ghost predicate Shape(s: Memory) {
    && |s.order| == |s.added| + 1 && s.removed <= |s.added|
    && (forall i | 0 <= i < |s.order| :: s.order[i] < |s.nodes|)
    && (forall i, j | 0 <= i < j < |s.order| :: s.order[i] != s.order[j])
    && (forall i, j | 0 <= i && j == i + 1 && j < |s.order| :: s.nodes[s.order[i]].next == To(s.order[j]))
    && s.nodes[Last(s)].next == Null
    && (forall i, j | 0 <= i && j == i + 1 && j < |s.order| :: s.nodes[s.order[j]].item == s.added[i])
    && s.head == s.order[s.removed]
    && (forall i | s.removed <= i < |s.order| :: s.order[i] !in s.freed)
    && (forall y <- s.freed :: y in s.order)
    && (s.tailLock.Free? ==> s.tail == Last(s))
  }

  predicate Private(s: Memory, o: nat) {
    o < |s.nodes| && o !in s.order && s.nodes[o].next == Null
  }

  /** d was unlinked by this thread and is for it to delete. */
  predicate Holds(s: Memory, d: nat) {
    Live(s, d) && d in s.order && forall i | s.removed <= i < |s.order| :: s.order[i] != d
  }

  ghost predicate Knows(s: Memory, b: Tid, pc: Pc)
    requires Shape(s)
  {
    match pc
    case ELock(o) => Private(s, o)
    case ELinkNode(o) => Private(s, o) && s.tailLock == HeldBy(b) && s.tail == Last(s)
    case ESetTail(o) =>
      && s.tailLock == HeldBy(b) && o == Last(s)
      && 2 <= |s.order| && s.tail == s.order[|s.order| - 2]
    case EUnlock => s.tailLock == HeldBy(b) && s.tail == Last(s)
    case DReadHead => s.headLock == HeldBy(b)
    case DReadNext(d) => s.headLock == HeldBy(b) && d == s.head
    case DUnlockEmpty => s.headLock == HeldBy(b)
    case DReadItem(d, n) =>
      s.headLock == HeldBy(b) && d == s.head && s.removed < |s.added| && n == s.order[s.removed + 1]
    case DSetHead(d, n, x) =>
      && s.headLock == HeldBy(b) && d == s.head && s.removed < |s.added|
      && n == s.order[s.removed + 1] && x == s.added[s.removed]
    case DUnlock(d, _) => s.headLock == HeldBy(b) && Holds(s, d)
    case DDelete(d, _) => Holds(s, d)
    case Crashed => false
    case _ => true
  }

  function Own(pc: Pc): Link {
    match pc
    case ELock(o) => To(o)
    case ELinkNode(o) => To(o)
    case DUnlock(d, _) => To(d)
    case DDelete(d, _) => To(d)
    case _ => Null
  }

  predicate Apart(a: Pc, b: Pc) {
    Own(a).To? ==> Own(a) != Own(b)
  }

  /** Every node the head has passed is deleted or in the hands of the dequeuer that will delete it. */
  ghost predicate Partition(s: State) {
    forall i | 0 <= i < s.mem.removed && i < |s.mem.order| && s.mem.order[i] !in s.mem.freed ::
      exists b :: b in s.threads && Deleting(s.threads[b], s.mem.order[i])
  }

  predicate Deleting(pc: Pc, y: nat) {
    (pc.DUnlock? || pc.DDelete?) && pc.d == y
  }

  predicate InTailSection(pc: Pc) {
    pc.ELinkNode? || pc.ESetTail? || pc.EUnlock?
  }

  predicate InHeadSection(pc: Pc) {
    pc.DReadHead? || pc.DReadNext? || pc.DUnlockEmpty? || pc.DReadItem? || pc.DSetHead? || pc.DUnlock?
  }

  /** A lock that is held is held by a thread inside its section, which will release it. */
  predicate LocksOk(s: State) {
    && (s.mem.tailLock.HeldBy? ==>
          s.mem.tailLock.owner in s.threads && InTailSection(s.threads[s.mem.tailLock.owner]))
    && (s.mem.headLock.HeldBy? ==>
          s.mem.headLock.owner in s.threads && InHeadSection(s.threads[s.mem.headLock.owner]))
  }

  ghost predicate Inv(s: State) {
    && Shape(s.mem)
    && (forall b <- s.threads :: Knows(s.mem, b, s.threads[b]))
    && (forall a, b | a in s.threads && b in s.threads && a != b :: Apart(s.threads[a], s.threads[b]))
    && Partition(s) && LocksOk(s)
  }

  /** The link store touches only the last node. */
  lemma LinkTouchesLast(s: Memory, me: Tid, o: nat, i: nat)
    requires Shape(s) && Knows(s, me, ELinkNode(o)) && i < |s.order|
    ensures var s' := Update(s, me, ELinkNode(o));
      && s'.order[i] == s.order[i] != o && s'.nodes[s.order[i]].item == s.nodes[s.order[i]].item
      && (i + 1 < |s.order| ==> s'.nodes[s.order[i]].next == s.nodes[s.order[i]].next)
  {}

  lemma LinkKeepsChain(s: Memory, me: Tid, o: nat)
    requires Shape(s) && Knows(s, me, ELinkNode(o))
    ensures var s' := Update(s, me, ELinkNode(o));
      && (forall i, j | 0 <= i && j == i + 1 && j < |s'.order| :: s'.nodes[s'.order[i]].next == To(s'.order[j]))
      && (forall i, j | 0 <= i && j == i + 1 && j < |s'.order| :: s'.nodes[s'.order[j]].item == s'.added[i])
  {
    forall i | 0 <= i < |s.order|
      ensures var s' := Update(s, me, ELinkNode(o));
        && s'.order[i] == s.order[i] && s'.nodes[s.order[i]].item == s.nodes[s.order[i]].item
        && (i + 1 < |s.order| ==> s'.nodes[s.order[i]].next == s.nodes[s.order[i]].next)
    {
      LinkTouchesLast(s, me, o, i);
    }
  }

  lemma LinkKeepsShape(s: Memory, me: Tid, o: nat)
    requires Shape(s) && Knows(s, me, ELinkNode(o))
    ensures Shape(Update(s, me, ELinkNode(o)))
  {
    LinkKeepsChain(s, me, o);
  }

  lemma UpdateKeepsShape(s: Memory, me: Tid, pc: Pc)
    requires Shape(s) && Knows(s, me, pc)
    ensures Shape(Update(s, me, pc))
  {
    if pc.ELinkNode? { LinkKeepsShape(s, me, pc.o); }
  }

  predicate Enqueues(pc: Pc) {
    pc.ELock? || pc.ELinkNode? || pc.ESetTail? || pc.EUnlock?
  }

  lemma EnqueuerKeepsOther(s: Memory, me: Tid, pc: Pc, b: Tid, pb: Pc)
    requires Shape(s) && Shape(Update(s, me, pc)) && Knows(s, me, pc) && Knows(s, b, pb) && b != me
    requires Apart(pc, pb) && Enqueues(pc)
    ensures Knows(Update(s, me, pc), b, pb)
  {}

  lemma DequeuerKeepsOther(s: Memory, me: Tid, pc: Pc, b: Tid, pb: Pc)
    requires Shape(s) && Shape(Update(s, me, pc)) && Knows(s, me, pc) && Knows(s, b, pb) && b != me
    requires Apart(pc, pb) && !Enqueues(pc)
    ensures Knows(Update(s, me, pc), b, pb)
  {}

  lemma UpdateKeepsOther(s: Memory, me: Tid, pc: Pc, b: Tid, pb: Pc)
    requires Shape(s) && Shape(Update(s, me, pc)) && Knows(s, me, pc) && Knows(s, b, pb) && b != me
    requires Apart(pc, pb)
    ensures Knows(Update(s, me, pc), b, pb)
  {
    if Enqueues(pc) { EnqueuerKeepsOther(s, me, pc, b, pb); } else { DequeuerKeepsOther(s, me, pc, b, pb); }
  }

  lemma EnqueuerKnows(s: Memory, me: Tid, pc: Pc)
    requires Shape(s) && Shape(Update(s, me, pc)) && Knows(s, me, pc)
    requires Enqueues(pc)
    ensures Knows(Update(s, me, pc), me, Continue(s, pc))
  {}

  lemma DequeuerKnows(s: Memory, me: Tid, pc: Pc)
    requires Shape(s) && Shape(Update(s, me, pc)) && Knows(s, me, pc)
    requires !Enqueues(pc)
    ensures Knows(Update(s, me, pc), me, Continue(s, pc))
  {}

  /** No access of a reachable state touches or deletes a deleted node. */
  lemma NoAccessToDeletedNodes(s: Memory, me: Tid, pc: Pc)
    requires Shape(s) && Knows(s, me, pc)
    ensures !Continue(s, pc).Crashed?
    ensures s.tailLock.Free? ==> Live(s, s.tail)
    ensures Live(s, s.head)
  {}

  lemma StaysApart(s: Memory, me: Tid, pc: Pc, b: Tid, pb: Pc)
    requires Shape(s) && Knows(s, me, pc) && Knows(s, b, pb) && Apart(pc, pb) && Apart(pb, pc)
    ensures Apart(Continue(s, pc), pb) && Apart(pb, Continue(s, pc))
  {
    var o := Own(Continue(s, pc));
    assert o == Null || o == Own(pc) || (pc.DSetHead? && o == To(s.head));
    assert Own(pb) != To(s.head);
  }

  lemma NextKeepsPartition(s: State, me: Tid, i: nat)
    requires Inv(s) && me in s.threads
    requires var m := Next(s, me).mem; i < m.removed && i < |m.order| && m.order[i] !in m.freed
    ensures exists b :: b in Next(s, me).threads && Deleting(Next(s, me).threads[b], Next(s, me).mem.order[i])
  {
    var pc, s' := s.threads[me], Next(s, me);
    var y := s'.mem.order[i];
    assert Knows(s.mem, me, pc);
    if !Deleting(s'.threads[me], y) {
      assert i < s.mem.removed && s.mem.order[i] == y;
      var b :| b in s.threads && Deleting(s.threads[b], y);
      assert b in s'.threads && Deleting(s'.threads[b], y);
    }
  }

  lemma OwnKnows(s: Memory, me: Tid, pc: Pc)
    requires Shape(s) && Shape(Update(s, me, pc)) && Knows(s, me, pc)
    ensures Knows(Update(s, me, pc), me, Continue(s, pc))
  {
    if Enqueues(pc) {
      EnqueuerKnows(s, me, pc);
    } else {
      DequeuerKnows(s, me, pc);
    }
  }

  lemma NextKeepsLocks(s: State, me: Tid)
    requires Shape(s.mem) && LocksOk(s) && me in s.threads && Knows(s.mem, me, s.threads[me])
    ensures LocksOk(Next(s, me))
  {}

  lemma NextKeepsInv(s: State, me: Tid)
    requires Inv(s)
    ensures Inv(Next(s, me))
  {
    if me in s.threads {
      var pc, s' := s.threads[me], Next(s, me);
      NextKeepsLocks(s, me);
      UpdateKeepsShape(s.mem, me, pc);
      OwnKnows(s.mem, me, pc);
      forall b <- s'.threads ensures Knows(s'.mem, b, s'.threads[b]) {
        if b != me { UpdateKeepsOther(s.mem, me, pc, b, s.threads[b]); }
      }
      forall a, b | a in s'.threads && b in s'.threads && a != b
        ensures Apart(s'.threads[a], s'.threads[b])
      {
        if a == me { StaysApart(s.mem, me, pc, b, s.threads[b]); }
        if b == me { StaysApart(s.mem, me, pc, a, s.threads[a]); }
      }
      forall i | 0 <= i < s'.mem.removed && i < |s'.mem.order| && s'.mem.order[i] !in s'.mem.freed
        ensures exists b :: b in s'.threads && Deleting(s'.threads[b], s'.mem.order[i])
      {
        NextKeepsPartition(s, me, i);
      }
    }
  }

  lemma AllocationKeeps(s: Memory, x: Item, b: Tid, pb: Pc)
    requires Shape(s) && Knows(s, b, pb)
    ensures Shape(Allocated(s, x)) && Knows(Allocated(s, x), b, pb)
    ensures Own(pb) != To(|s.nodes|) && |s.nodes| !in s.order
  {}

  lemma BeginKeepsOther(s: State, me: Tid, call: Call, b: Tid)
    requires Shape(s.mem) && Shape(Begin(s, me, call).mem) && b in s.threads && b != me
    requires Knows(s.mem, b, s.threads[b])
    ensures var s' := Begin(s, me, call);
      && Knows(s'.mem, b, s.threads[b])
      && Apart(s'.threads[me], s.threads[b]) && Apart(s.threads[b], s'.threads[me])
  {
    if call.Enqueue? { AllocationKeeps(s.mem, call.x, b, s.threads[b]); }
  }

  lemma BeginKeepsPartition(s: State, me: Tid, call: Call)
    requires Partition(s) && LocksOk(s) && IsIdle(s, me)
    ensures Partition(Begin(s, me, call)) && LocksOk(Begin(s, me, call))
  {
    var s' := Begin(s, me, call);
    forall i | 0 <= i < s'.mem.removed && i < |s'.mem.order| && s'.mem.order[i] !in s'.mem.freed
      ensures exists b :: b in s'.threads && Deleting(s'.threads[b], s'.mem.order[i])
    {
      var b :| b in s.threads && Deleting(s.threads[b], s.mem.order[i]);
      assert Deleting(s'.threads[b], s'.mem.order[i]);
    }
  }

  lemma BeginKeepsInv(s: State, me: Tid, call: Call)
    requires Inv(s) && IsIdle(s, me)
    ensures Inv(Begin(s, me, call))
  {
    var s' := Begin(s, me, call);
    if call.Enqueue? { AllocationKeeps(s.mem, call.x, me, EDone); }
    forall b <- s'.threads
      ensures Knows(s'.mem, b, s'.threads[b])
      ensures b != me ==> Apart(s'.threads[me], s'.threads[b]) && Apart(s'.threads[b], s'.threads[me])
    {
      if b != me { BeginKeepsOther(s, me, call, b); }
    }
    BeginKeepsPartition(s, me, call);
  }

  // ---- Refinement of the atomic queue ----

  function ItemOf(s: Memory, o: nat): Item {
    if o < |s.nodes| then s.nodes[o].item else 0
  }

  /** `return false` takes effect when next is read as null; the lock is released afterwards. */
  function AbsPc(s: Memory, pc: Pc): Phase {
    match pc
    case ELock(o) => Enqueueing(ItemOf(s, o))
    case ELinkNode(o) => Enqueueing(ItemOf(s, o))
    case ESetTail(_) => Enqueued
    case EUnlock => Enqueued
    case EDone => Enqueued
    case DUnlockEmpty => Dequeueing(true)
    case DUnlock(_, x) => Dequeued(x)
    case DDelete(_, x) => Dequeued(x)
    case DDone(x) => Dequeued(x)
    case DFalse => FoundEmpty
    case _ => Dequeueing(false)
  }

  function Abs(s: State): Queue {
    Queue(s.mem.added, s.mem.removed, map b <- s.threads :: AbsPc(s.mem, s.threads[b]))
  }

  lemma ItemsAreFixed(s: Memory, me: Tid, pc: Pc, pb: Pc)
    ensures AbsPc(Update(s, me, pc), pb) == AbsPc(s, pb)
  {}

  lemma AccessEffect(s: Memory, me: Tid, pc: Pc)
    requires Shape(s) && Knows(s, me, pc)
    ensures Effect(AbsPc(s, pc), AbsPc(s, Continue(s, pc)),
                   s.added, s.removed, Update(s, me, pc).added, Update(s, me, pc).removed)
  {
    if pc.DReadNext? && s.removed < |s.added| {
      assert s.nodes[s.order[s.removed]].next == To(s.order[s.removed + 1]);
    }
  }

  lemma AbsNext(s: State, me: Tid)
    requires me in s.threads
    ensures Abs(Next(s, me)).threads == Abs(s).threads[me := AbsPc(s.mem, Continue(s.mem, s.threads[me]))]
  {
    var pc := s.threads[me];
    ItemsAreFixed(s.mem, me, pc, Continue(s.mem, pc));
    forall b <- s.threads ensures AbsPc(Next(s, me).mem, s.threads[b]) == AbsPc(s.mem, s.threads[b]) {
      ItemsAreFixed(s.mem, me, pc, s.threads[b]);
    }
  }

  lemma RefinesFifo(s: State, me: Tid)
    requires Inv(s)
    ensures Valid(Abs(s)) && Step(Abs(s), Abs(Next(s, me)), me)
  {
    if me in s.threads {
      var pc := s.threads[me];
      AbsNext(s, me);
      AccessEffect(s.mem, me, pc);
      EffectIsStep(Abs(s), Abs(Next(s, me)), me, AbsPc(s.mem, Continue(s.mem, pc)));
    }
  }

  lemma AllocationKeepsPhase(s: Memory, x: Item, b: Tid, pb: Pc)
    requires Shape(s) && Knows(s, b, pb)
    ensures AbsPc(Allocated(s, x), pb) == AbsPc(s, pb)
  {}

  lemma BeginRefines(s: State, me: Tid, call: Call)
    requires Shape(s.mem) && (forall b <- s.threads :: Knows(s.mem, b, s.threads[b])) && IsIdle(s, me)
    ensures Abs(Begin(s, me, call)) == Abs(s).(threads := Abs(s).threads[me := Started(call)])
  {
    forall b <- s.threads | b != me
      ensures AbsPc(Begin(s, me, call).mem, s.threads[b]) == AbsPc(s.mem, s.threads[b])
    {
      if call.Enqueue? { AllocationKeepsPhase(s.mem, call.x, b, s.threads[b]); }
    }
  }

  lemma IdleRefines(s: State, me: Tid)
    requires IsIdle(s, me)
    ensures Idle(Abs(s), me)
  {}

  // ---- Every run ----

  datatype Act = Invoke(me: Tid, call: Call) | Go(me: Tid)

  function Perform(s: State, act: Act): State {
    match act
    case Invoke(me, call) => if IsIdle(s, me) then Begin(s, me, call) else s
    case Go(me) => Next(s, me)
  }

  function Run(schedule: seq<Act>): State {
    if schedule == [] then Init()
    else Perform(Run(schedule[..|schedule| - 1]), schedule[|schedule| - 1])
  }

  lemma {:induction false} EveryRunKeepsInv(schedule: seq<Act>)
    ensures Inv(Run(schedule))
  {
    if schedule != [] {
      var before := schedule[..|schedule| - 1];
      EveryRunKeepsInv(before);
      match schedule[|schedule| - 1]
      case Invoke(me, call) => if IsIdle(Run(before), me) { BeginKeepsInv(Run(before), me, call); }
      case Go(me) => NextKeepsInv(Run(before), me);
    }
  }

  /** Each act of a run is a step of the atomic queue. */
  lemma PerformRefines(s: State, act: Act)
    requires Inv(s)
    ensures RunStep(Abs(s), Abs(Perform(s, act)), act.me)
  {
    RefinesFifo(s, act.me);
    if act.Invoke? && IsIdle(s, act.me) {
      BeginRefines(s, act.me, act.call);
      IdleRefines(s, act.me);
    }
  }

  function AbsRun(schedule: seq<Act>): seq<Queue> {
    seq(|schedule| + 1, i requires 0 <= i <= |schedule| => Abs(Run(schedule[..i])))
  }

  function Who(schedule: seq<Act>): seq<Tid> {
    seq(|schedule|, i requires 0 <= i < |schedule| => schedule[i].me)
  }

  /** Every run is a run of the atomic queue, so the lemmas about those apply to it. */
  lemma EveryRunIsFifo(schedule: seq<Act>)
    ensures IsRun(AbsRun(schedule), Who(schedule))
  {
    var run := AbsRun(schedule);
    assert run[0].threads == map[];
    forall i | 0 <= i < |schedule| ensures RunStep(run[i], run[i + 1], schedule[i].me) {
      assert schedule[..i + 1][..i] == schedule[..i];
      EveryRunKeepsInv(schedule[..i]);
      PerformRefines(Run(schedule[..i]), schedule[i]);
    }
  }

  /** Step i of the schedule begins a call of me, and me begins no other call after it. */
  ghost predicate LatestCall(schedule: seq<Act>, me: Tid, i: nat, call: Call) {
    && i < |schedule| && schedule[i] == Invoke(me, call) && IsIdle(Run(schedule[..i]), me)
    && (forall m | i < m < |schedule| :: schedule[m].Invoke? && schedule[m].me == me ==>
          !IsIdle(Run(schedule[..m]), me))
  }

  /** The act at m is by me and takes effect: it adds x to the record, or removes x from the queue. */
  predicate AddsAt(schedule: seq<Act>, me: Tid, m: nat, x: Item) {
    && m < |schedule| && schedule[m].me == me
    && Run(schedule[..m + 1]).mem.added == Run(schedule[..m]).mem.added + [x]
  }

  predicate RemovesAt(schedule: seq<Act>, me: Tid, m: nat, x: Item) {
    && m < |schedule| && schedule[m].me == me
    && var s, s' := Run(schedule[..m]).mem, Run(schedule[..m + 1]).mem;
       s.removed < |s.added| && x == s.added[s.removed] && s'.removed == s.removed + 1
  }

  predicate EmptyAt(schedule: seq<Act>, m: nat) {
    m < |schedule| && var s := Run(schedule[..m]).mem; s.removed == |s.added|
  }

  /** An act that does not begin a call is one step of the atomic queue. */
  lemma ActIsStep(s: State, act: Act)
    requires Inv(s) && !(act.Invoke? && IsIdle(s, act.me))
    ensures Valid(Abs(s)) && Step(Abs(s), Abs(Perform(s, act)), act.me)
  {
    RefinesFifo(s, act.me);
  }

  /** Instant m of the run of the atomic queue. */
  lemma {:induction false} AtInstant(schedule: seq<Act>, m: nat)
    requires m < |schedule|
    ensures AbsRun(schedule)[m] == Abs(Run(schedule[..m]))
    ensures AbsRun(schedule)[m + 1] == Abs(Perform(Run(schedule[..m]), schedule[m]))
  {
    assert schedule[..m + 1][..m] == schedule[..m];
  }

  lemma BeginIsCall(s: State, me: Tid, call: Call)
    requires Inv(s) && IsIdle(s, me)
    ensures Idle(Abs(s), me) && me in Abs(Begin(s, me, call)).threads
    ensures Abs(Begin(s, me, call)).threads[me] ==
      match call case Enqueue(x) => Enqueueing(x) case Dequeue => Dequeueing(false)
  {
    BeginRefines(s, me, call);
    IdleRefines(s, me);
  }

  /** The latest call of a schedule is a call of the run of the atomic queue. */
  lemma {:induction false} CallInRun(schedule: seq<Act>, me: Tid, i: nat, call: Call)
    requires LatestCall(schedule, me, i, call)
    ensures CallFrom(AbsRun(schedule), Who(schedule), me, i, |schedule|)
    ensures AbsRun(schedule)[i + 1].threads[me] ==
      match call case Enqueue(x) => Enqueueing(x) case Dequeue => Dequeueing(false)
  {
    var run := AbsRun(schedule);
    EveryRunKeepsInv(schedule[..i]);
    AtInstant(schedule, i);
    BeginIsCall(Run(schedule[..i]), me, call);
    forall m | i < m < |schedule| && schedule[m].me == me ensures Valid(run[m]) && Step(run[m], run[m + 1], me) {
      AtInstant(schedule, m);
      EveryRunKeepsInv(schedule[..m]);
      ActIsStep(Run(schedule[..m]), schedule[m]);
    }
  }

  /** What happens at an instant of the run of the atomic queue happens at that instant of the schedule. */
  lemma {:induction false} SameInstant(schedule: seq<Act>, me: Tid, m: nat, x: Item)
    requires m < |schedule|
    ensures Adds(AbsRun(schedule), Who(schedule), me, m, x) ==> AddsAt(schedule, me, m, x)
    ensures Removes(AbsRun(schedule), Who(schedule), me, m, x) ==> RemovesAt(schedule, me, m, x)
    ensures Fifo.EmptyAt(AbsRun(schedule), m) ==> EmptyAt(schedule, m)
  {}

  /** The answer a thread shows is the answer of the atomic queue. */
  lemma SameAnswer(s: State, me: Tid)
    requires me in s.threads && IsIdle(s, me)
    ensures match s.threads[me]
            case EDone => Abs(s).threads[me] == Enqueued
            case DDone(x) => Abs(s).threads[me] == Dequeued(x)
            case DFalse => Abs(s).threads[me] == FoundEmpty
            case _ => false
  {}

  /**
   * What a call returns with: an enqueue that has returned has added the item it was called with, a
   * dequeue has removed the item it answers with, each by one access of its own inside the call; and
   * `false` was answered because the queue was empty inside the call.
   */
  lemma {:induction false} CallReturns(schedule: seq<Act>, me: Tid, i: nat, call: Call)
    requires LatestCall(schedule, me, i, call) && IsIdle(Run(schedule), me)
    ensures me in Run(schedule).threads
    ensures match Run(schedule).threads[me]
            case EDone =>
              call.Enqueue? && exists m: nat | i < m < |schedule| :: AddsAt(schedule, me, m, call.x)
            case DDone(x) =>
              call.Dequeue? && exists m: nat | i < m < |schedule| :: RemovesAt(schedule, me, m, x)
            case DFalse =>
              call.Dequeue? && exists m: nat | i < m < |schedule| :: EmptyAt(schedule, m)
            case _ => false
  {
    var run, who := AbsRun(schedule), Who(schedule);
    assert schedule[..|schedule|] == schedule;
    EveryRunIsFifo(schedule);
    CallInRun(schedule, me, i, call);
    CallTakesEffect(run, who, me, i, |schedule|);
    SameAnswer(Run(schedule), me);
    forall m: nat, x | m < |schedule|
      ensures Adds(run, who, me, m, x) ==> AddsAt(schedule, me, m, x)
      ensures Removes(run, who, me, m, x) ==> RemovesAt(schedule, me, m, x)
    {
      SameInstant(schedule, me, m, x);
    }
    forall m: nat | m < |schedule| ensures Fifo.EmptyAt(run, m) ==> EmptyAt(schedule, m) {
      SameInstant(schedule, me, m, 0);
    }
  }

  // ---- Deleting nodes ----

  /** At most one thread at a time is between taking and releasing a lock. */
  lemma MutualExclusion(s: State, a: Tid, b: Tid)
    requires Inv(s) && a in s.threads && b in s.threads && a != b
    ensures !(InTailSection(s.threads[a]) && InTailSection(s.threads[b]))
    ensures !(InHeadSection(s.threads[a]) && InHeadSection(s.threads[b]))
  {
    assert Knows(s.mem, a, s.threads[a]) && Knows(s.mem, b, s.threads[b]);
  }

  /** `tail_` dangles at most while the thread that holds the tail lock has linked its node but not moved it. */
  lemma TailDanglesOnlyBeforeUpdate(s: State)
    requires Inv(s) && !Live(s.mem, s.mem.tail)
    ensures s.mem.tailLock.HeldBy? && s.mem.tailLock.owner in s.threads
    ensures s.threads[s.mem.tailLock.owner].ESetTail?
  {
    assert Live(s.mem, Last(s.mem));
    var b := s.mem.tailLock.owner;
    assert Knows(s.mem, b, s.threads[b]);
  }

  /**
   * Exactly when `tail_` dangles: an enqueuer has linked its node and not yet moved the tail, that node
   * has been dequeued already, and its dequeuer has deleted the old dummy.
   */
  lemma TailDanglesIff(s: State)
    requires Inv(s)
    ensures s.mem.tail in s.mem.freed <==>
      && s.mem.tailLock.HeldBy? && s.mem.tailLock.owner in s.threads
      && s.threads[s.mem.tailLock.owner].ESetTail? && s.mem.removed == |s.mem.added|
      && forall b <- s.threads :: !Deleting(s.threads[b], s.mem.tail)
  {
    var m := s.mem;
    if m.tail in m.freed {
      TailDanglesOnlyBeforeUpdate(s);
      assert Knows(m, m.tailLock.owner, s.threads[m.tailLock.owner]);
      forall b <- s.threads ensures !Deleting(s.threads[b], m.tail) {
        assert Knows(m, b, s.threads[b]);
      }
    } else if m.tailLock.HeldBy? && m.tailLock.owner in s.threads && s.threads[m.tailLock.owner].ESetTail? {
      assert Knows(m, m.tailLock.owner, s.threads[m.tailLock.owner]);
      var i := |m.order| - 2;
      if i < m.removed { assert exists b :: b in s.threads && Deleting(s.threads[b], m.order[i]); }
    }
  }

  lemma RunOn(schedule: seq<Act>, act: Act)
    ensures Run(schedule + [act]) == Perform(Run(schedule), act)
  {
    assert (schedule + [act])[..|schedule|] == schedule;
  }

  const EnqueuerLinks: seq<Act> := [Invoke(0, Enqueue(7)), Go(0), Go(0)]

  /** An enqueuer that has linked its node and not yet moved the tail. */
  lemma LinkedNotMoved()
    ensures Run(EnqueuerLinks) ==
      State(Memory(0, 0, [Node(0, To(1)), Node(7, Null)], {}, Free, HeldBy(0), [0, 1], [7], 0),
            map[0 := ESetTail(1)])
  {
    RunOn([], Invoke(0, Enqueue(7)));
    RunOn([Invoke(0, Enqueue(7))], Go(0));
    RunOn([Invoke(0, Enqueue(7)), Go(0)], Go(0));
    assert EnqueuerLinks == [Invoke(0, Enqueue(7)), Go(0)] + [Go(0)];
    assert [Invoke(0, Enqueue(7)), Go(0)] == [Invoke(0, Enqueue(7))] + [Go(0)];
    assert [Invoke(0, Enqueue(7))] == [] + [Invoke(0, Enqueue(7))];
  }

  /** The stalled enqueuer 0, and dequeuer 1 at pc. */
  function Stage(m: Memory, pc: Pc): State {
    State(m, map[0 := ESetTail(1), 1 := pc])
  }

  lemma DequeuerMoves(schedule: seq<Act>, m: Memory, pc: Pc)
    requires Run(schedule) == Stage(m, pc)
    ensures Run(schedule + [Go(1)]) == Stage(Update(m, 1, pc), Continue(m, pc))
  {
    RunOn(schedule, Go(1));
  }

  function StalledMemory(head: nat, freed: set<nat>, headLock: Lock, removed: nat): Memory {
    Memory(head, 0, [Node(0, To(1)), Node(7, Null)], freed, headLock, HeldBy(0), [0, 1], [7], removed)
  }

  lemma DequeuerLocks() returns (schedule: seq<Act>)
    ensures Run(schedule) == Stage(StalledMemory(0, {}, HeldBy(1), 0), DReadHead)
  {
    LinkedNotMoved();
    RunOn(EnqueuerLinks, Invoke(1, Dequeue));
    schedule := EnqueuerLinks + [Invoke(1, Dequeue)];
    DequeuerMoves(schedule, StalledMemory(0, {}, Free, 0), DLock);
    schedule := schedule + [Go(1)];
  }

  lemma DequeuerTakesItem() returns (schedule: seq<Act>)
    ensures Run(schedule) == Stage(StalledMemory(0, {}, HeldBy(1), 0), DSetHead(0, 1, 7))
  {
    schedule := DequeuerLocks();
    var locked := StalledMemory(0, {}, HeldBy(1), 0);
    DequeuerMoves(schedule, locked, DReadHead);
    schedule := schedule + [Go(1)];
    DequeuerMoves(schedule, locked, DReadNext(0));
    schedule := schedule + [Go(1)];
    DequeuerMoves(schedule, locked, DReadItem(0, 1));
    schedule := schedule + [Go(1)];
  }

  /** `tail_` does dangle: a dequeuer can delete the old dummy while `tail_` still points to it. */
  lemma TailDoesDangle()
    ensures exists schedule :: var s := Run(schedule); s.mem.tail in s.mem.freed
  {
    var schedule := DequeuerTakesItem();
    DequeuerMoves(schedule, StalledMemory(0, {}, HeldBy(1), 0), DSetHead(0, 1, 7));
    schedule := schedule + [Go(1)];
    DequeuerMoves(schedule, StalledMemory(1, {}, HeldBy(1), 1), DUnlock(0, 7));
    schedule := schedule + [Go(1)];
    DequeuerMoves(schedule, StalledMemory(1, {}, Free, 1), DDelete(0, 7));
    schedule := schedule + [Go(1)];
    assert Run(schedule).mem == StalledMemory(1, {0}, Free, 1);
  }

  /** When no operation is running, exactly the nodes the head has passed have been deleted. */
  lemma QuiescentReclamation(s: State, i: nat)
    requires Inv(s) && (forall b <- s.threads :: IsIdle(s, b)) && i < |s.mem.order|
    ensures s.mem.order[i] in s.mem.freed <==> i < s.mem.removed
  {}
}
