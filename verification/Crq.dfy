/**
 * CRQ, the ring of LCRQueue, as a state machine over atomic accesses.
 *
 * A node is a (safe, index) word and a value, read one after the other but changed together by a
 * double-word compare-and-swap. `ledger` is history that no step reads.
 */
module Crq {
  import opened RingGeometry
  import opened TicketRing

  datatype Stamp = Stamp(safe: bool, idx: nat)
  datatype Value = Null | Full(x: Item)
  datatype Node = Node(stamp: Stamp, value: Value)

  const StarvingThreshold: nat := R

  datatype Pc =
    | EDraw(x: Item, iteration: nat)
    | EReadValue(x: Item, iteration: nat, t: nat)
    | EReadStamp(x: Item, iteration: nat, t: nat, v: Value)
    | EReadHead(x: Item, iteration: nat, t: nat, r: Stamp)
    | EDeposit(x: Item, iteration: nat, t: nat, r: Stamp)
    | EOverflow(x: Item, iteration: nat, t: nat)
    | EClose(x: Item)
    | EOk(x: Item, t: nat)
    | EClosed(x: Item)
    | DDraw
    | DReadValue(h: nat)
    | DReadStamp(h: nat, v: Value)
    | DTake(h: nat, r: Stamp, v: Value)
    | DMarkUnsafe(h: nat, r: Stamp, v: Value)
    | DAdvance(h: nat, r: Stamp)
    | DReadTail(h: nat)
    | FReadHead
    | FReadTail(h: nat)
    | FConfirmTail(h: nat, closed: bool, t: nat)
    | FRaiseTail(h: nat, t: nat)
    | DGot(h: nat, x: Item)
    | DEmpty
  {
    function Ticket(): nat {
      match this
      case EReadValue(_, _, t) => t
      case EReadStamp(_, _, t, _) => t
      case EReadHead(_, _, t, _) => t
      case EDeposit(_, _, t, _) => t
      case EOverflow(_, _, t) => t
      case EOk(_, t) => t
      case DReadValue(h) => h
      case DReadStamp(h, _) => h
      case DTake(h, _, _) => h
      case DMarkUnsafe(h, _, _) => h
      case DAdvance(h, _) => h
      case DReadTail(h) => h
      case DGot(h, _) => h
      case _ => 0
    }

    predicate AtNode() {
      EReadValue? || EReadStamp? || EDeposit? || AtDequeue()
    }

    predicate AtDequeue() {
      DReadValue? || DReadStamp? || DTake? || DMarkUnsafe? || DAdvance?
    }
  }

  datatype State = State(
    head: nat, tail: nat, closed: bool, nodes: seq<Node>, threads: map<Tid, Pc>, ledger: Ledger)

  predicate WellFormed(s: State) {
    |s.nodes| == R
  }

  function Init(): State {
    State(0, 0, false, seq(R, i requires 0 <= i => Node(Stamp(true, i), Null)), map[], Blank)
  }

  function At(s: State, t: nat): Node
    requires WellFormed(s)
  {
    s.nodes[Slot(t)]
  }

  datatype Access = Access(node: Node, pc: Pc)

  function EnqueuerAccess(n: Node, pc: Pc): Access
    requires pc.AtNode() && !pc.AtDequeue()
  {
    match pc
    case EReadValue(x, k, t) => Access(n, EReadStamp(x, k, t, n.value))
    case EReadStamp(x, k, t, v) =>
      var r := n.stamp;
      Access(n,
        if v.Full? || t < r.idx then EOverflow(x, k, t)
        else if r.safe then EDeposit(x, k, t, r)
        else EReadHead(x, k, t, r))
    case EDeposit(x, k, t, r) =>
      if n == Node(r, Null) then Access(Node(Stamp(true, t), Full(x)), EOk(x, t))
      else Access(n, EOverflow(x, k, t))
  }

  function DequeuerAccess(n: Node, pc: Pc): Access
    requires pc.AtDequeue()
  {
    match pc
    case DReadValue(h) => Access(n, DReadStamp(h, n.value))
    case DReadStamp(h, v) =>
      var r := n.stamp;
      Access(n,
        if h < r.idx then DReadTail(h)
        else if v.Null? then DAdvance(h, r)
        else if r.idx == h then DTake(h, r, v)
        else DMarkUnsafe(h, r, v))
    case DTake(h, r, v) =>
      if n == Node(Stamp(r.safe, h), v) && v.Full?
      then Access(Node(Stamp(r.safe, h + R), Null), DGot(h, v.x))
      else Access(n, DReadValue(h))
    case DMarkUnsafe(h, r, v) =>
      if n == Node(r, v) then Access(Node(Stamp(false, r.idx), v), DReadTail(h))
      else Access(n, DReadValue(h))
    case DAdvance(h, r) =>
      if n == Node(r, Null) then Access(Node(Stamp(r.safe, h + R), Null), DReadTail(h))
      else Access(n, DReadValue(h))
  }

  function NodeAccess(n: Node, pc: Pc): (a: Access)
    requires pc.AtNode()
    ensures a.pc.Ticket() == pc.Ticket()
  {
    if pc.AtDequeue() then DequeuerAccess(n, pc) else EnqueuerAccess(n, pc)
  }

  /** History: an answer or a retirement is written down when the thread reaches it. */
  function Record(l: Ledger, pc: Pc, pc': Pc): Ledger {
    if pc.EDeposit? && pc'.EOk? then l.(deposited := l.deposited[pc.t := pc.x])
    else if pc.AtDequeue() && pc'.DGot? then l.(taken := l.taken + {pc.Ticket()})
    else if pc.AtDequeue() && pc'.DReadTail? then l.(retired := l.retired + {pc.Ticket()})
    else l
  }

  /** `t - head >= R` on 64-bit unsigned words: it also holds when the head has passed t. */
  predicate Overflows(t: nat, head: nat) {
    t < head || R <= t - head
  }

  /**
   * An access to the head or the tail word. The tail word is a (closed, ticket) pair whose closed
   * bit weighs more than any ticket, so `h <= word` holds of every closed word.
   */
  function CounterAccess(s: State, me: Tid, pc: Pc): State {
    match pc
    case EDraw(x, k) =>
      s.(tail := s.tail + 1,
         threads := s.threads[me := if s.closed then EClosed(x) else EReadValue(x, k, s.tail)])
    case EReadHead(x, k, t, r) =>
      s.(threads := s.threads[me :=
           if s.head <= t then EDeposit(x, k, t, r) else EOverflow(x, k, t)])
    case EOverflow(x, k, t) =>
      s.(threads := s.threads[me :=
           if Overflows(t, s.head) || StarvingThreshold < k then EClose(x) else EDraw(x, k + 1)])
    case EClose(x) => s.(closed := true, threads := s.threads[me := EClosed(x)])
    case DDraw => s.(head := s.head + 1, threads := s.threads[me := DReadValue(s.head)])
    case DReadTail(h) =>
      s.(threads := s.threads[me := if s.tail <= h + 1 then FReadHead else DDraw])
    case FReadHead => s.(threads := s.threads[me := FReadTail(s.head)])
    case FReadTail(h) => s.(threads := s.threads[me := FConfirmTail(h, s.closed, s.tail)])
    case FConfirmTail(h, closed, t) =>
      s.(threads := s.threads[me :=
           if s.closed != closed || s.tail != t then FReadHead
           else if closed || h <= t then DEmpty
           else FRaiseTail(h, t)])
    case FRaiseTail(h, t) =>
      if !s.closed && s.tail == t then s.(tail := h, threads := s.threads[me := DEmpty])
      else s.(threads := s.threads[me := FReadHead])
    case _ => s
  }

  /** The next atomic access of thread `me`. */
  function Next(s: State, me: Tid): (s': State)
    requires WellFormed(s)
    ensures WellFormed(s') && s'.threads.Keys == s.threads.Keys
  {
    if me !in s.threads then s else
    var pc := s.threads[me];
    if !pc.AtNode() then CounterAccess(s, me, pc) else
    var a := NodeAccess(At(s, pc.Ticket()), pc);
    s.(nodes := s.nodes[Slot(pc.Ticket()) := a.node],
       threads := s.threads[me := a.pc],
       ledger := Record(s.ledger, pc, a.pc))
  }

  // ---- The abstract ring behind a state ----

  function AbsPc(pc: Pc): Phase {
    match pc
    case EDraw(x, _) => Enqueueing(x)
    case EReadValue(x, _, t) => Holding(x, t)
    case EReadStamp(x, _, t, _) => Holding(x, t)
    case EReadHead(x, _, t, _) => Holding(x, t)
    case EDeposit(x, _, t, _) => Holding(x, t)
    case EOverflow(x, _, _) => Enqueueing(x)
    case EClose(x) => Enqueueing(x)
    case EOk(x, t) => Accepted(x, t)
    case EClosed(x) => Refused(x)
    case DDraw => Dequeueing
    case DReadTail(h) => Checking(h)
    case FReadHead => Repairing
    case FReadTail(_) => Repairing
    case FConfirmTail(_, _, _) => Repairing
    case FRaiseTail(_, _) => Repairing
    case DGot(h, x) => Got(h, x)
    case DEmpty => Empty
    case _ => Visiting(pc.Ticket())
  }

  function Abs(s: State): Ring {
    Ring(0, s.head, s.tail, s.closed, s.ledger, map b <- s.threads :: AbsPc(s.threads[b]))
  }

  // ---- The invariant, one node at a time ----

  /** t is later than every retired ticket of its node that is not yet behind the index. */
  ghost predicate LaterThanRetired(retired: set<nat>, t: nat, idx: nat) {
    forall u <- retired :: Slot(u) == Slot(t) && idx <= u ==> u < t
  }

  /** What a thread at pc knows about its node n. */
  ghost predicate Knows(n: Node, retired: set<nat>, pc: Pc) {
    match pc
    case EReadHead(_, _, t, r) => r.idx <= n.stamp.idx && r.idx <= t && !r.safe
    case EDeposit(_, _, t, r) =>
      && r.idx <= n.stamp.idx && r.idx <= t
      && (!r.safe && n == Node(r, Null) ==> LaterThanRetired(retired, t, r.idx))
    case DTake(h, r, v) => r.idx == h && v.Full?
    case DMarkUnsafe(h, r, v) => r.idx < h && v.Full?
    case DAdvance(h, r) => r.idx <= h
    case _ => true
  }

  /** t holds an item that has not been taken yet. */
  predicate Pending(l: Ledger, t: nat) {
    t in l.deposited && t !in l.taken
  }

  /** Node i holds exactly the pending item of its tickets, if any, and turns retired tickets away. */
  ghost predicate NodeOk(n: Node, l: Ledger, i: nat) {
    && Slot(n.stamp.idx) == i
    && (forall t :: Pending(l, t) && Slot(t) == i ==>
          n.stamp.idx == t && n.value == Full(l.deposited[t]))
    && (n.value.Full? ==> Pending(l, n.stamp.idx))
    && (forall t <- l.retired :: Slot(t) == i ==> t < n.stamp.idx || !n.stamp.safe)
  }

  /** What the abstract ring knows about the ticket of a thread at its node. */
  predicate TicketOk(l: Ledger, pc: Pc) {
    var t := pc.Ticket();
    && (pc.EDeposit? ==> t !in l.deposited && t !in l.taken)
    && (pc.AtDequeue() ==> t !in l.taken && t !in l.retired)
  }

  lemma AccessKeepsOwn(n: Node, l: Ledger, pc: Pc)
    requires pc.AtNode() && Knows(n, l.retired, pc)
    ensures var a := NodeAccess(n, pc); Knows(a.node, Record(l, pc, a.pc).retired, a.pc)
  {}

  lemma AccessKeepsOther(n: Node, l: Ledger, pc: Pc, pb: Pc)
    requires pc.AtNode() && Slot(pc.Ticket()) == Slot(pb.Ticket())
    requires Knows(n, l.retired, pc) && Knows(n, l.retired, pb)
    ensures var a := NodeAccess(n, pc); Knows(a.node, Record(l, pc, a.pc).retired, pb)
  {}

  /** A deposit lands only under a ticket that its dequeuer has not retired. */
  lemma DepositedTicketIsOpen(n: Node, l: Ledger, pc: Pc)
    requires pc.EDeposit? && Knows(n, l.retired, pc) && NodeOk(n, l, Slot(pc.t))
    requires NodeAccess(n, pc).pc.EOk?
    ensures pc.t !in l.retired
  {}

  lemma RetiredHasNoItem(n: Node, l: Ledger, pc: Pc)
    requires pc.AtDequeue() && NodeOk(n, l, Slot(pc.Ticket())) && TicketOk(l, pc)
    requires Knows(n, l.retired, pc) && NodeAccess(n, pc).pc.DReadTail?
    ensures pc.Ticket() !in l.deposited
  {
    assert !Pending(l, pc.Ticket());
  }

  lemma AccessKeepsNode(n: Node, l: Ledger, pc: Pc)
    requires pc.AtNode() && NodeOk(n, l, Slot(pc.Ticket())) && TicketOk(l, pc)
    requires Knows(n, l.retired, pc)
    requires forall t <- l.taken :: t in l.deposited
    ensures var a := NodeAccess(n, pc); NodeOk(a.node, Record(l, pc, a.pc), Slot(pc.Ticket()))
  {
    var a, i := NodeAccess(n, pc), Slot(pc.Ticket());
    var l' := Record(l, pc, a.pc);
    NextRound(pc.Ticket());
    forall t | Pending(l', t) && Slot(t) == i
      ensures a.node.stamp.idx == t && a.node.value == Full(l'.deposited[t])
    {
      assert (a.pc.EOk? && t == pc.t) || Pending(l, t);
    }
  }

  // ---- The whole ring ----

  ghost predicate KnowsAt(s: State, pc: Pc)
    requires WellFormed(s)
  {
    Knows(At(s, pc.Ticket()), s.ledger.retired, pc)
  }

  ghost predicate NodeAt(s: State, i: nat)
    requires WellFormed(s) && i < R
  {
    NodeOk(s.nodes[i], s.ledger, i)
  }

  /** The head a repairing thread has read, and will raise the tail to, is never ahead of the head. */
  predicate RepairOk(s: State, pc: Pc) {
    (pc.FReadTail? || pc.FConfirmTail? || pc.FRaiseTail?) ==>
      pc.h <= s.head && (pc.FRaiseTail? ==> pc.t < pc.h)
  }

  ghost predicate Inv(s: State) {
    && WellFormed(s) && Valid(Abs(s))
    && (forall i | 0 <= i < R :: NodeAt(s, i))
    && (forall b <- s.threads :: KnowsAt(s, s.threads[b]))
    && (forall b <- s.threads :: RepairOk(s, s.threads[b]))
  }

  lemma InitInv()
    ensures Inv(Init()) && Abs(Init()) == Fresh(0)
  {
    assert Abs(Init()).threads == map[];
    FreshIsValid(0);
    forall i | 0 <= i < R ensures Slot(i) == i {}
  }

  // ---- Every access refines one step of the ticket ring ----

  lemma TicketFacts(s: State, b: Tid)
    requires Valid(Abs(s)) && b in s.threads
    ensures PhaseOk(Abs(s), AbsPc(s.threads[b])) && LedgerOk(Abs(s))
    ensures s.threads[b].AtNode() ==> TicketOk(s.ledger, s.threads[b])
  {
    assert Abs(s).threads[b] == AbsPc(s.threads[b]);
    assert PhaseOk(Abs(s), AbsPc(s.threads[b]));
  }

  lemma AbsNext(s: State, me: Tid)
    requires WellFormed(s) && me in s.threads
    ensures Next(s, me).threads == s.threads[me := Next(s, me).threads[me]]
    ensures Abs(Next(s, me)).threads == Abs(s).threads[me := AbsPc(Next(s, me).threads[me])]
  {}

  lemma RepairAccessRefines(s: State, me: Tid, pc: Pc)
    requires WellFormed(s) && me in s.threads && pc == s.threads[me] && RepairOk(s, pc)
    requires pc.FReadHead? || pc.FReadTail? || pc.FConfirmTail? || pc.FRaiseTail?
    ensures Step(Abs(s), Abs(Next(s, me)), me)
  {
    AbsNext(s, me);
    if AbsPc(pc) == AbsPc(Next(s, me).threads[me]) { assert Abs(Next(s, me)).threads == Abs(s).threads; }
  }

  lemma DrawRefines(s: State, me: Tid, pc: Pc)
    requires WellFormed(s) && me in s.threads && pc == s.threads[me] && !pc.AtNode()
    requires !pc.FReadHead? && !pc.FReadTail? && !pc.FConfirmTail? && !pc.FRaiseTail?
    ensures Step(Abs(s), Abs(Next(s, me)), me)
  {
    AbsNext(s, me);
    if AbsPc(pc) == AbsPc(Next(s, me).threads[me]) { assert Abs(Next(s, me)).threads == Abs(s).threads; }
  }

  lemma CounterAccessRefines(s: State, me: Tid, pc: Pc)
    requires WellFormed(s) && me in s.threads && pc == s.threads[me] && !pc.AtNode() && RepairOk(s, pc)
    ensures Step(Abs(s), Abs(Next(s, me)), me)
  {
    if pc.FReadHead? || pc.FReadTail? || pc.FConfirmTail? || pc.FRaiseTail? {
      RepairAccessRefines(s, me, pc);
    } else {
      DrawRefines(s, me, pc);
    }
  }

  /** The abstract ring after thread me has gone from pc to pc' at its node. */
  function RingAfter(r: Ring, me: Tid, pc: Pc, pc': Pc): Ring {
    r.(ledger := Record(r.ledger, pc, pc'), threads := r.threads[me := AbsPc(pc')])
  }

  lemma AbsNodeAccess(s: State, me: Tid, pc: Pc)
    requires WellFormed(s) && me in s.threads && pc == s.threads[me] && pc.AtNode()
    ensures Abs(Next(s, me)) == RingAfter(Abs(s), me, pc, NodeAccess(At(s, pc.Ticket()), pc).pc)
  {
    AbsNext(s, me);
  }

  lemma StaysInPhase(r: Ring, me: Tid, pc: Pc, pc': Pc)
    requires me in r.threads && r.threads[me] == AbsPc(pc) == AbsPc(pc') && Record(r.ledger, pc, pc') == r.ledger
    ensures RingAfter(r, me, pc, pc') == r
  {
    assert r.threads[me := AbsPc(pc')] == r.threads;
  }

  lemma EnqueuerAccessRefines(r: Ring, n: Node, me: Tid, pc: Pc)
    requires pc.AtNode() && !pc.AtDequeue() && me in r.threads && r.threads[me] == AbsPc(pc)
    requires TicketOk(r.ledger, pc) && Knows(n, r.ledger.retired, pc) && NodeOk(n, r.ledger, Slot(pc.Ticket()))
    ensures Step(r, RingAfter(r, me, pc, NodeAccess(n, pc).pc), me)
  {
    var pc' := NodeAccess(n, pc).pc;
    if pc'.EOk? { DepositedTicketIsOpen(n, r.ledger, pc); }
    if AbsPc(pc) == AbsPc(pc') { StaysInPhase(r, me, pc, pc'); }
  }

  lemma RetiringRefines(r: Ring, me: Tid, pc: Pc, pc': Pc)
    requires pc.AtDequeue() && me in r.threads && r.threads[me] == AbsPc(pc)
    requires pc'.DReadTail? && pc'.h == pc.Ticket() && pc.Ticket() !in r.ledger.deposited
    ensures Step(r, RingAfter(r, me, pc, pc'), me)
  {}

  lemma TakingRefines(r: Ring, me: Tid, pc: Pc, pc': Pc)
    requires pc.AtDequeue() && me in r.threads && r.threads[me] == AbsPc(pc)
    requires Pending(r.ledger, pc.Ticket()) && pc' == DGot(pc.Ticket(), r.ledger.deposited[pc.Ticket()])
    ensures Step(r, RingAfter(r, me, pc, pc'), me)
  {}

  lemma DequeuerAccessRefines(r: Ring, n: Node, me: Tid, pc: Pc)
    requires pc.AtDequeue() && me in r.threads && r.threads[me] == AbsPc(pc)
    requires NodeOk(n, r.ledger, Slot(pc.Ticket())) && TicketOk(r.ledger, pc) && Knows(n, r.ledger.retired, pc)
    ensures Step(r, RingAfter(r, me, pc, NodeAccess(n, pc).pc), me)
  {
    var pc' := NodeAccess(n, pc).pc;
    if pc'.DGot? {
      TakingRefines(r, me, pc, pc');
    } else if pc'.DReadTail? {
      RetiredHasNoItem(n, r.ledger, pc);
      RetiringRefines(r, me, pc, pc');
    } else {
      StaysInPhase(r, me, pc, pc');
    }
  }

  lemma RefinesRing(s: State, me: Tid)
    requires Inv(s)
    ensures Step(Abs(s), Abs(Next(s, me)), me)
  {
    if me in s.threads {
      var pc := s.threads[me];
      TicketFacts(s, me);
      if !pc.AtNode() {
        CounterAccessRefines(s, me, pc);
      } else {
        assert KnowsAt(s, pc) && NodeAt(s, Slot(pc.Ticket()));
        AbsNodeAccess(s, me, pc);
        if pc.AtDequeue() {
          DequeuerAccessRefines(Abs(s), At(s, pc.Ticket()), me, pc);
        } else {
          EnqueuerAccessRefines(Abs(s), At(s, pc.Ticket()), me, pc);
        }
      }
    }
  }

  // ---- Every access keeps the invariant ----

  lemma OtherNodeKept(n: Node, l: Ledger, pc: Pc, pc': Pc, i: nat)
    requires NodeOk(n, l, i) && i != Slot(pc.Ticket())
    ensures NodeOk(n, Record(l, pc, pc'), i)
  {
    assert forall t :: Pending(Record(l, pc, pc'), t) && Slot(t) == i ==> Pending(l, t);
  }

  lemma DistantKnowledgeKept(n: Node, l: Ledger, pc: Pc, pc': Pc, pb: Pc)
    requires Knows(n, l.retired, pb) && Slot(pb.Ticket()) != Slot(pc.Ticket())
    ensures Knows(n, Record(l, pc, pc').retired, pb)
  {}

  lemma NextKeepsNode(s: State, me: Tid, i: nat)
    requires Inv(s) && me in s.threads && i < R
    ensures NodeAt(Next(s, me), i)
  {
    var pc := s.threads[me];
    assert NodeAt(s, i);
    if pc.AtNode() {
      TicketFacts(s, me);
      assert KnowsAt(s, pc);
      if i == Slot(pc.Ticket()) {
        AccessKeepsNode(s.nodes[i], s.ledger, pc);
      } else {
        OtherNodeKept(s.nodes[i], s.ledger, pc, NodeAccess(At(s, pc.Ticket()), pc).pc, i);
      }
    }
  }

  lemma CounterAccessKeepsKnowledge(s: State, me: Tid, pc: Pc)
    requires WellFormed(s) && me in s.threads && pc == s.threads[me] && !pc.AtNode() && KnowsAt(s, pc)
    requires forall t <- s.ledger.retired :: t < s.head
    ensures KnowsAt(Next(s, me), Next(s, me).threads[me])
  {}

  lemma NextKeepsKnowledge(s: State, me: Tid, b: Tid)
    requires Inv(s) && me in s.threads && b in s.threads
    ensures KnowsAt(Next(s, me), Next(s, me).threads[b])
  {
    var pc, pb := s.threads[me], s.threads[b];
    assert KnowsAt(s, pc) && KnowsAt(s, pb);
    TicketFacts(s, me);
    var n := At(s, pc.Ticket());
    if !pc.AtNode() {
      if b == me { CounterAccessKeepsKnowledge(s, me, pc); }
    } else if b == me {
      AccessKeepsOwn(n, s.ledger, pc);
    } else if Slot(pb.Ticket()) == Slot(pc.Ticket()) {
      AccessKeepsOther(n, s.ledger, pc, pb);
    } else {
      DistantKnowledgeKept(At(s, pb.Ticket()), s.ledger, pc, NodeAccess(n, pc).pc, pb);
    }
  }

  lemma NextKeepsRepair(s: State, me: Tid, b: Tid)
    requires WellFormed(s) && me in s.threads && b in s.threads
    requires RepairOk(s, s.threads[me]) && RepairOk(s, s.threads[b])
    ensures RepairOk(Next(s, me), Next(s, me).threads[b])
  {}

  lemma NextKeepsInv(s: State, me: Tid)
    requires Inv(s)
    ensures Inv(Next(s, me))
  {
    if me in s.threads {
      var s' := Next(s, me);
      RefinesRing(s, me);
      StepKeepsValid(Abs(s), Abs(s'), me);
      forall i | 0 <= i < R ensures NodeAt(s', i) { NextKeepsNode(s, me, i); }
      forall b <- s'.threads ensures KnowsAt(s', s'.threads[b]) { NextKeepsKnowledge(s, me, b); }
      forall b <- s'.threads ensures RepairOk(s', s'.threads[b]) { NextKeepsRepair(s, me, b); }
    }
  }

  // ---- Every run ----

  predicate IsIdle(s: State, me: Tid) {
    me in s.threads ==> Answered(AbsPc(s.threads[me]))
  }

  function Begin(s: State, me: Tid, call: Call): State {
    s.(threads := s.threads[me := match call case Enqueue(x) => EDraw(x, 0) case Dequeue => DDraw])
  }

  lemma BeginRefines(s: State, me: Tid, call: Call)
    requires WellFormed(s) && IsIdle(s, me)
    ensures Idle(Abs(s), me) && Abs(Begin(s, me, call)) == Start(Abs(s), me, call)
  {
    assert Abs(Begin(s, me, call)).threads == Start(Abs(s), me, call).threads;
  }

  lemma BeginKeepsInv(s: State, me: Tid, call: Call)
    requires Inv(s) && IsIdle(s, me)
    ensures Inv(Begin(s, me, call))
  {
    var s' := Begin(s, me, call);
    BeginRefines(s, me, call);
    StartKeepsValid(Abs(s), me, call);
    forall i | 0 <= i < R ensures NodeAt(s', i) { assert NodeAt(s, i); }
    forall b <- s'.threads ensures KnowsAt(s', s'.threads[b]) {
      if b != me { assert KnowsAt(s, s.threads[b]); }
    }
    assert forall b <- s'.threads :: b != me ==> RepairOk(s, s.threads[b]);
  }

  datatype Act = Invoke(me: Tid, call: Call) | Go(me: Tid)

  function Perform(s: State, act: Act): (s': State)
    requires WellFormed(s)
    ensures WellFormed(s')
  {
    match act
    case Invoke(me, call) => if IsIdle(s, me) then Begin(s, me, call) else s
    case Go(me) => Next(s, me)
  }

  function Run(schedule: seq<Act>): (s: State)
    ensures WellFormed(s)
  {
    if schedule == [] then Init()
    else Perform(Run(schedule[..|schedule| - 1]), schedule[|schedule| - 1])
  }

  lemma {:induction false} EveryRunKeepsInv(schedule: seq<Act>)
    ensures Inv(Run(schedule))
  {
    if schedule == [] {
      InitInv();
    } else {
      var before := schedule[..|schedule| - 1];
      EveryRunKeepsInv(before);
      match schedule[|schedule| - 1]
      case Invoke(me, call) => if IsIdle(Run(before), me) { BeginKeepsInv(Run(before), me, call); }
      case Go(me) => NextKeepsInv(Run(before), me);
    }
  }

  // ---- A fresh ring takes its first item ----

  /** A ring in which `me` has enqueued x before anybody else could see it. */
  function FreshWith(me: Tid, x: Item): State {
    var i := Init();
    State(0, 1, false, i.nodes[Slot(0) := Node(Stamp(true, 0), Full(x))],
          map[me := EOk(x, 0)], Ledger(map[0 := x], {}, {}))
  }

  /** n accesses of `me` with nobody else running. */
  function Alone(s: State, me: Tid, n: nat): (s': State)
    requires WellFormed(s)
    ensures WellFormed(s')
  {
    if n == 0 then s else Next(Alone(s, me, n - 1), me)
  }

  lemma {:induction false} AloneKeepsInv(s: State, me: Tid, n: nat)
    requires Inv(s)
    ensures Inv(Alone(s, me, n))
  {
    if n != 0 {
      AloneKeepsInv(s, me, n - 1);
      NextKeepsInv(Alone(s, me, n - 1), me);
    }
  }

  /** The first three accesses only read. */
  lemma FreshEnqueueReads(me: Tid, x: Item)
    ensures Alone(Begin(Init(), me, Enqueue(x)), me, 3) ==
      State(0, 1, false, Init().nodes, map[me := EDeposit(x, 0, 0, Stamp(true, 0))], Blank)
  {
    var n0 := Init().nodes;
    assert Slot(0) == 0 && n0[0] == Node(Stamp(true, 0), Null);
    var s0 := Begin(Init(), me, Enqueue(x));
    assert Alone(s0, me, 1) == State(0, 1, false, n0, map[me := EReadValue(x, 0, 0)], Blank);
    assert Alone(s0, me, 2) == State(0, 1, false, n0, map[me := EReadStamp(x, 0, 0, Null)], Blank);
  }

  /** `newcrq->enqueue(x)` never answers CLOSED: four accesses alone deposit x under ticket 0. */
  lemma FreshEnqueueSucceeds(me: Tid, x: Item)
    ensures Alone(Begin(Init(), me, Enqueue(x)), me, 4) == FreshWith(me, x)
  {
    FreshEnqueueReads(me, x);
    assert Slot(0) == 0 && Init().nodes[0] == Node(Stamp(true, 0), Null);
  }

  lemma FreshWithAbs(me: Tid, x: Item)
    ensures Abs(FreshWith(me, x)) ==
      Ring(0, 0, 1, false, Ledger(map[0 := x], {}, {}), map[me := Accepted(x, 0)])
  {
    assert Abs(FreshWith(me, x)).threads == map[me := Accepted(x, 0)];
  }

  lemma FreshWithInv(me: Tid, x: Item)
    ensures Inv(FreshWith(me, x))
  {
    InitInv();
    BeginKeepsInv(Init(), me, Enqueue(x));
    AloneKeepsInv(Begin(Init(), me, Enqueue(x)), me, 4);
    FreshEnqueueSucceeds(me, x);
  }
}
