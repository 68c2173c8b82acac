/**
 * A thread that runs alone on a CRQ: it is answered, whatever the others have left undone; and when
 * nobody else is at work the answer is that of a bounded first-in-first-out queue.
 */
module CrqAlone {
  import opened RingGeometry
  import opened TicketRing
  import opened Crq
  import opened CrqCalls

  // ---- Every call that runs alone is answered ----

  /** The attempts an enqueue has left after its attempt number k. */
  function AttemptsLeft(k: nat): nat {
    if k <= StarvingThreshold then StarvingThreshold + 1 - k else 0
  }

  function Ahead(s: State): nat {
    if s.head < s.tail then s.tail - s.head else 0
  }

  function DrawCost(s: State): nat {
    12 * Ahead(s) + 12
  }

  /** The accesses a dequeuer may need from its tail check on. */
  function CheckCost(s: State, h: nat): nat {
    if s.tail <= h + 1 then 5 else 1 + DrawCost(s)
  }

  /** The accesses to its node; a dequeuer whose swap will fail has to look once more. */
  function NodeCost(n: Node, pc: Pc): nat {
    match pc
    case DReadValue(_) => 4
    case DReadStamp(_, v) => if v == n.value then 2 else 6
    case DTake(h, r, v) => if n == Node(Stamp(r.safe, h), v) && v.Full? then 1 else 5
    case DMarkUnsafe(_, r, v) => if n == Node(r, v) then 1 else 5
    case DAdvance(_, r) => if n == Node(r, Null) then 1 else 5
    case _ => 0
  }

  /** A bound on the accesses that a call needs when its thread runs alone from here. */
  function Cost(s: State, pc: Pc): nat
    requires WellFormed(s)
  {
    match pc
    case EDraw(_, k) => 10 * AttemptsLeft(k) + 7
    case EReadValue(_, k, _) => 10 * AttemptsLeft(k) + 6
    case EReadStamp(_, k, _, _) => 10 * AttemptsLeft(k) + 5
    case EReadHead(_, k, _, _) => 10 * AttemptsLeft(k) + 4
    case EDeposit(_, k, _, _) => 10 * AttemptsLeft(k) + 3
    case EOverflow(_, k, _) => 10 * AttemptsLeft(k) + 2
    case EClose(_) => 1
    case DDraw => DrawCost(s)
    case DReadTail(h) => CheckCost(s, h)
    case FReadHead => 4
    case FReadTail(_) => 3
    case FConfirmTail(_, closed, t) => if s.closed == closed && s.tail == t then 2 else 5
    case FRaiseTail(_, t) => if !s.closed && s.tail == t then 1 else 5
    case _ => if pc.AtDequeue() then NodeCost(At(s, pc.Ticket()), pc) + CheckCost(s, pc.Ticket()) else 0
  }

  lemma NodeCostFalls(n: Node, pc: Pc)
    requires pc.AtDequeue()
    ensures var a := NodeAccess(n, pc);
      a.pc.DGot? || (NodeCost(a.node, a.pc) < NodeCost(n, pc) && (a.pc.AtDequeue() || a.pc.DReadTail?))
  {}

  lemma DequeuerCostFalls(s: State, me: Tid)
    requires WellFormed(s) && me in s.threads && s.threads[me].AtDequeue()
    ensures Cost(Next(s, me), Next(s, me).threads[me]) < Cost(s, s.threads[me])
  {
    var pc := s.threads[me];
    NodeCostFalls(At(s, pc.Ticket()), pc);
  }

  lemma EnqueuerCostFalls(s: State, me: Tid)
    requires WellFormed(s) && me in s.threads
    requires AbsPc(s.threads[me]).Enqueueing? || AbsPc(s.threads[me]).Holding?
    ensures Cost(Next(s, me), Next(s, me).threads[me]) < Cost(s, s.threads[me])
  {}

  lemma CheckCostFalls(s: State, me: Tid)
    requires WellFormed(s) && me in s.threads && (s.threads[me].DDraw? || s.threads[me].DReadTail?)
    ensures Cost(Next(s, me), Next(s, me).threads[me]) < Cost(s, s.threads[me])
  {}

  lemma RepairCostFalls(s: State, me: Tid)
    requires WellFormed(s) && me in s.threads && AbsPc(s.threads[me]).Repairing?
    ensures Cost(Next(s, me), Next(s, me).threads[me]) < Cost(s, s.threads[me])
  {}

  /** Every access of a running call brings its answer nearer. */
  lemma CostFalls(s: State, me: Tid)
    requires WellFormed(s) && me in s.threads && !IsIdle(s, me)
    ensures Cost(Next(s, me), Next(s, me).threads[me]) < Cost(s, s.threads[me])
  {
    var pc := s.threads[me];
    if pc.AtDequeue() {
      DequeuerCostFalls(s, me);
    } else if pc.DDraw? || pc.DReadTail? {
      CheckCostFalls(s, me);
    } else if AbsPc(pc).Repairing? {
      RepairCostFalls(s, me);
    } else {
      EnqueuerCostFalls(s, me);
    }
  }

  lemma AnswerStays(s: State, me: Tid)
    requires WellFormed(s) && IsIdle(s, me)
    ensures Next(s, me) == s
  {
    if me in s.threads { assert s.threads[me := s.threads[me]] == s.threads; }
  }

  lemma {:induction false} CostOfAccesses(s: State, me: Tid, n: nat)
    requires WellFormed(s) && me in s.threads
    ensures var s' := Alone(s, me, n);
      me in s'.threads && (IsIdle(s', me) || n + Cost(s', s'.threads[me]) <= Cost(s, s.threads[me]))
  {
    if n != 0 {
      CostOfAccesses(s, me, n - 1);
      var m := Alone(s, me, n - 1);
      if IsIdle(m, me) {
        AnswerStays(m, me);
      } else {
        CostFalls(m, me);
      }
    }
  }

  /** From any state, whatever the other threads have left undone, a thread running alone is answered. */
  lemma AloneIsAnswered(s: State, me: Tid, n: nat)
    requires WellFormed(s) && me in s.threads && Cost(s, s.threads[me]) <= n
    ensures me in Alone(s, me, n).threads && IsIdle(Alone(s, me, n), me)
  {
    CostOfAccesses(s, me, n);
    if !IsIdle(Alone(s, me, n), me) { CostFalls(Alone(s, me, n), me); }
  }

  // ---- Indices stay behind the tickets to come ----

  /** The node of a ticket that neither side has drawn is not past that ticket. */
  ghost predicate IndexBehind(s: State, t: nat)
    requires WellFormed(s)
  {
    s.head <= t && s.tail <= t ==> At(s, t).stamp.idx <= t
  }

  ghost predicate IndicesBehind(s: State)
    requires WellFormed(s)
  {
    forall t: nat :: IndexBehind(s, t)
  }

  lemma LaterInSlot(u: nat, t: nat)
    requires Slot(u) == Slot(t) && u < t
    ensures u + R <= t
  {
    assert u == R * Cycle(u) + Slot(u) && t == R * Cycle(t) + Slot(t);
    MulOrder(Cycle(u), Cycle(t));
  }

  lemma AccessIndexBehind(n: Node, pc: Pc, t: nat)
    requires pc.AtNode() && Slot(pc.Ticket()) == Slot(t) && pc.Ticket() < t && n.stamp.idx <= t
    ensures NodeAccess(n, pc).node.stamp.idx <= t
  {
    LaterInSlot(pc.Ticket(), t);
  }

  lemma NodeIndexBehind(s: State, me: Tid, t: nat)
    requires WellFormed(s) && me in s.threads && s.threads[me].AtNode() && IndexBehind(s, t)
    requires s.threads[me].Ticket() < s.head || s.threads[me].Ticket() < s.tail
    ensures IndexBehind(Next(s, me), t)
  {
    var pc := s.threads[me];
    if Slot(pc.Ticket()) == Slot(t) && s.head <= t && s.tail <= t { AccessIndexBehind(At(s, t), pc, t); }
  }

  lemma CounterIndexBehind(s: State, me: Tid, t: nat)
    requires Inv(s) && me in s.threads && !s.threads[me].AtNode() && IndexBehind(s, t)
    ensures IndexBehind(Next(s, me), t)
  {
    assert RepairOk(s, s.threads[me]);
  }

  lemma NextIndexBehind(s: State, me: Tid, t: nat)
    requires Inv(s) && IndexBehind(s, t)
    ensures IndexBehind(Next(s, me), t)
  {
    if me in s.threads {
      TicketFacts(s, me);
      if s.threads[me].AtNode() { NodeIndexBehind(s, me, t); } else { CounterIndexBehind(s, me, t); }
    }
  }

  /** What every reachable ring keeps, besides Inv. */
  ghost predicate Fit(s: State) {
    Inv(s) && TailMinded(s) && IndicesBehind(s)
  }

  lemma NextFits(s: State, me: Tid)
    requires Fit(s)
    ensures Fit(Next(s, me))
  {
    NextKeepsInv(s, me);
    NextMinds(s, me);
    forall t: nat ensures IndexBehind(Next(s, me), t) {
      assert IndexBehind(s, t);
      NextIndexBehind(s, me, t);
    }
  }

  lemma BeginFits(s: State, me: Tid, call: Call)
    requires Fit(s) && IsIdle(s, me)
    ensures Fit(Begin(s, me, call))
  {
    BeginKeepsInv(s, me, call);
    BeginMinds(s, me, call);
    forall t: nat ensures IndexBehind(Begin(s, me, call), t) { assert IndexBehind(s, t); }
  }

  lemma InitFits()
    ensures Fit(Init())
  {
    InitInv();
    forall t: nat ensures IndexBehind(Init(), t) {
      assert t == R * Cycle(t) + Slot(t);
      MulMonotone(0, Cycle(t));
    }
  }

  lemma {:induction false} EveryRunFits(schedule: seq<Act>)
    ensures Fit(Run(schedule))
  {
    if schedule == [] {
      InitFits();
    } else {
      var before := schedule[..|schedule| - 1];
      EveryRunFits(before);
      RunUnfolds(schedule);
      match schedule[|schedule| - 1]
      case Go(me) => NextFits(Run(before), me);
      case Invoke(me, call) => if IsIdle(Run(before), me) { BeginFits(Run(before), me, call); }
    }
  }

  lemma {:induction false} AloneFits(s: State, me: Tid, n: nat)
    requires Fit(s)
    ensures Fit(Alone(s, me, n))
  {
    if n != 0 {
      AloneFits(s, me, n - 1);
      NextFits(Alone(s, me, n - 1), me);
    }
  }

  // ---- Calls on a ring where nobody else is at work ----

  /** Nobody is at work. */
  predicate Quiescent(s: State) {
    forall b <- s.threads :: IsIdle(s, b)
  }

  /** Ticket t's node still holds an item of an earlier round. */
  predicate SlotTaken(s: State, t: nat)
    requires WellFormed(s)
  {
    At(s, t).value.Full?
  }

  /** The tail of an open ring is not behind its head, and its node is ready for it unless it is full. */
  lemma TailNode(s: State)
    requires Fit(s) && Quiescent(s) && !s.closed
    ensures s.head <= s.tail && At(s, s.tail).stamp.idx <= s.tail
    ensures SlotTaken(s, s.tail) ==> s.head + R <= s.tail
    ensures SlotTaken(s, s.tail) <==> exists u :: Pending(s.ledger, u) && Slot(u) == Slot(s.tail)
  {
    assert IndexBehind(s, s.tail) && NodeAt(s, Slot(s.tail));
    if SlotTaken(s, s.tail) {
      var u := At(s, s.tail).stamp.idx;
      assert Pending(s.ledger, u) && Slot(u) == Slot(s.tail);
      PendingIsAhead(s, u);
      LaterInSlot(u, s.tail);
    }
  }

  lemma PendingIsAhead(s: State, u: nat)
    requires Inv(s) && Quiescent(s) && Pending(s.ledger, u)
    ensures s.head <= u < s.tail
  {
    var r := Abs(s);
    assert forall b <- r.threads :: r.threads[b] == AbsPc(s.threads[b]) && IsIdle(s, b);
    assert forall b :: !Visits(r, b, u);
    PendingIsVisitedIffPassed(r, u);
  }

  /** Alone, an enqueue draws the tail and reads its node. */
  lemma EnqueueReads(s: State, me: Tid, x: Item)
    requires WellFormed(s) && !s.closed && At(s, s.tail).stamp.idx <= s.tail
    ensures var n := At(s, s.tail);
      Alone(Begin(s, me, Enqueue(x)), me, 3) == s.(tail := s.tail + 1, threads := s.threads[me :=
        if n.value.Full? then EOverflow(x, 0, s.tail)
        else if n.stamp.safe then EDeposit(x, 0, s.tail, n.stamp)
        else EReadHead(x, 0, s.tail, n.stamp)])
  {
    var t, n, s0 := s.tail, At(s, s.tail), Begin(s, me, Enqueue(x));
    var s1 := s.(tail := t + 1, threads := s.threads[me := EReadValue(x, 0, t)]);
    var s2 := s1.(threads := s.threads[me := EReadStamp(x, 0, t, n.value)]);
    assert Alone(s0, me, 0) == s0;
    assert Alone(s0, me, 1) == s1;
    assert s1.nodes[Slot(t) := n] == s.nodes;
    assert Alone(s0, me, 2) == s2;
  }

  /** A thread at pc while nothing else changes. */
  function AtPc(s: State, me: Tid, pc: Pc): State {
    s.(threads := s.threads[me := pc])
  }

  lemma DepositSucceeds(s: State, me: Tid, x: Item, t: nat)
    requires WellFormed(s) && !At(s, t).value.Full?
    ensures Next(AtPc(s, me, EDeposit(x, 0, t, At(s, t).stamp)), me) ==
      AtPc(s, me, EOk(x, t)).(nodes := s.nodes[Slot(t) := Node(Stamp(true, t), Full(x))],
                              ledger := s.ledger.(deposited := s.ledger.deposited[t := x]))
  {}

  lemma HeadCheckSucceeds(s: State, me: Tid, x: Item, t: nat, r: Stamp)
    requires WellFormed(s) && s.head <= t
    ensures Next(AtPc(s, me, EReadHead(x, 0, t, r)), me) == AtPc(s, me, EDeposit(x, 0, t, r))
  {}

  lemma OneMore(s0: State, me: Tid, m: nat, s: State)
    requires WellFormed(s0) && Alone(s0, me, m) == s
    ensures Alone(s0, me, m + 1) == Next(s, me)
  {}

  lemma OverflowCloses(s: State, me: Tid, x: Item, t: nat)
    requires WellFormed(s) && Overflows(t, s.head)
    ensures Next(AtPc(s, me, EOverflow(x, 0, t)), me) == AtPc(s, me, EClose(x))
    ensures Next(AtPc(s, me, EClose(x)), me) == AtPc(s, me, EClosed(x)).(closed := true)
  {}

  lemma ClosingFollows(s0: State, s: State, me: Tid, x: Item, t: nat, m: nat)
    requires WellFormed(s0) && WellFormed(s) && Overflows(t, s.head)
    requires Alone(s0, me, m) == AtPc(s, me, EOverflow(x, 0, t))
    ensures Alone(s0, me, m + 2) == AtPc(s, me, EClosed(x)).(closed := true)
  {
    OverflowCloses(s, me, x, t);
    OneMore(s0, me, m, AtPc(s, me, EOverflow(x, 0, t)));
    OneMore(s0, me, m + 1, AtPc(s, me, EClose(x)));
  }

  /** A ring that cannot take x: it is closed, or full at the node of its tail. */
  predicate Refuses(s: State)
    requires WellFormed(s)
  {
    s.closed || SlotTaken(s, s.tail)
  }

  lemma OpenEnqueue(s: State, me: Tid, x: Item) returns (n: nat)
    requires Fit(s) && Quiescent(s) && !s.closed && !SlotTaken(s, s.tail)
    ensures n <= 5
    ensures var e := Alone(Begin(s, me, Enqueue(x)), me, n);
      && e.threads == s.threads[me := EOk(x, s.tail)] && e.closed == s.closed && e.head == s.head
      && e.ledger == s.ledger.(deposited := s.ledger.deposited[s.tail := x])
  {
    TailNode(s);
    EnqueueReads(s, me, x);
    var t, r, s0 := s.tail, At(s, s.tail).stamp, Begin(s, me, Enqueue(x));
    var d := s.(tail := t + 1);
    DepositSucceeds(d, me, x, t);
    if r.safe {
      n := 4;
    } else {
      HeadCheckSucceeds(d, me, x, t, r);
      n := 5;
      assert Alone(s0, me, 4) == AtPc(d, me, EDeposit(x, 0, t, r));
    }
  }

  lemma ClosedEnqueue(s: State, me: Tid, x: Item)
    requires WellFormed(s) && s.closed
    ensures Alone(Begin(s, me, Enqueue(x)), me, 1) == AtPc(s, me, EClosed(x)).(tail := s.tail + 1)
  {
    assert Alone(Begin(s, me, Enqueue(x)), me, 0) == Begin(s, me, Enqueue(x));
  }

  lemma FullEnqueue(s: State, me: Tid, x: Item)
    requires WellFormed(s) && !s.closed && At(s, s.tail).stamp.idx <= s.tail
    requires SlotTaken(s, s.tail) && s.head + R <= s.tail
    ensures Alone(Begin(s, me, Enqueue(x)), me, 5) ==
      AtPc(s, me, EClosed(x)).(tail := s.tail + 1, closed := true)
  {
    EnqueueReads(s, me, x);
    ClosingFollows(Begin(s, me, Enqueue(x)), s.(tail := s.tail + 1), me, x, s.tail, 3);
  }

  lemma RefusedEnqueue(s: State, me: Tid, x: Item) returns (n: nat)
    requires Fit(s) && Quiescent(s) && Refuses(s)
    ensures n <= 5
    ensures var e := Alone(Begin(s, me, Enqueue(x)), me, n);
      e.threads == s.threads[me := EClosed(x)] && e.closed && e.head == s.head && e.ledger == s.ledger
  {
    if s.closed {
      n := 1;
      ClosedEnqueue(s, me, x);
    } else {
      n := 5;
      TailNode(s);
      FullEnqueue(s, me, x);
    }
  }

  /** The state e in which an enqueue of x that ran alone from s has been answered. */
  ghost predicate EnqueueAnswered(s: State, e: State, me: Tid, x: Item) {
    && Fit(e) && Quiescent(e) && me in e.threads && e.head == s.head
    && if s.closed || exists u :: Pending(s.ledger, u) && Slot(u) == Slot(s.tail)
       then e.threads[me] == EClosed(x) && e.closed && e.ledger == s.ledger
       else e.threads[me] == EOk(x, s.tail) && !e.closed
            && e.ledger == s.ledger.(deposited := s.ledger.deposited[s.tail := x])
  }

  lemma EnqueueFits(s: State, me: Tid, x: Item, n: nat)
    requires Fit(s) && IsIdle(s, me)
    ensures Fit(Alone(Begin(s, me, Enqueue(x)), me, n))
  {
    BeginFits(s, me, Enqueue(x));
    AloneFits(Begin(s, me, Enqueue(x)), me, n);
  }

  lemma StillQuiescent(s: State, e: State, me: Tid, pc: Pc)
    requires Quiescent(s) && e.threads == s.threads[me := pc] && Answered(AbsPc(pc))
    ensures Quiescent(e)
  {
    forall b <- e.threads ensures IsIdle(e, b) { assert b != me ==> IsIdle(s, b); }
  }

  /**
   * With nobody else at work, an enqueue deposits its item under the tail's ticket if the ring is open
   * and no item waits in that node, and otherwise answers CLOSED; in at most five accesses.
   */
  lemma EnqueueAlone(s: State, me: Tid, x: Item) returns (n: nat)
    requires Fit(s) && Quiescent(s)
    ensures n <= 5 && EnqueueAnswered(s, Alone(Begin(s, me, Enqueue(x)), me, n), me, x)
  {
    if !s.closed { TailNode(s); }
    if Refuses(s) {
      n := RefusedEnqueue(s, me, x);
      StillQuiescent(s, Alone(Begin(s, me, Enqueue(x)), me, n), me, EClosed(x));
    } else {
      n := OpenEnqueue(s, me, x);
      StillQuiescent(s, Alone(Begin(s, me, Enqueue(x)), me, n), me, EOk(x, s.tail));
    }
    EnqueueFits(s, me, x, n);
  }

  lemma DequeueBegins(s: State, me: Tid)
    requires WellFormed(s) && Quiescent(s)
    ensures DequeuedAlone(Abs(s), Abs(Begin(s, me, Dequeue)), me)
  {
    var r := Abs(Begin(s, me, Dequeue));
    assert r.threads[me] == Dequeueing;
    forall b <- r.threads | b != me ensures Answered(r.threads[b]) {
      assert b in s.threads && r.threads[b] == AbsPc(s.threads[b]) && IsIdle(s, b);
    }
  }

  /** s is what a dequeue of me, running alone, has made of the quiescent ring r0. */
  ghost predicate DequeuedFrom(r0: Ring, s: State, me: Tid) {
    Inv(s) && DequeuedAlone(r0, Abs(s), me)
  }

  lemma DequeueGoesOn(r0: Ring, s: State, s': State, me: Tid)
    requires DequeuedFrom(r0, s, me) && s' == Next(s, me)
    ensures DequeuedFrom(r0, s', me)
  {
    NextKeepsInv(s, me);
    RefinesRing(s, me);
    DequeuesOnAlone(r0, Abs(s), Abs(s'), me);
  }

  /** What each access of me keeps, any number of them keep. */
  lemma {:induction false} AloneKeeps(keeps: State -> bool, s: State, me: Tid, n: nat)
    requires keeps(s) && forall t :: keeps(t) ==> WellFormed(t) && keeps(Next(t, me))
    ensures WellFormed(s) && keeps(Alone(s, me, n))
  {
    if n != 0 { AloneKeeps(keeps, s, me, n - 1); }
  }

  lemma DequeueStaysAlone(r0: Ring, s: State, me: Tid, n: nat)
    requires DequeuedFrom(r0, s, me)
    ensures DequeuedFrom(r0, Alone(s, me, n), me)
  {
    forall t | DequeuedFrom(r0, t, me) ensures DequeuedFrom(r0, Next(t, me), me) {
      DequeueGoesOn(r0, t, Next(t, me), me);
    }
    AloneKeeps(t => DequeuedFrom(r0, t, me), s, me, n);
  }

  /** n accesses of a dequeue that starts when nobody is at work. */
  lemma DequeueRuns(s: State, me: Tid, n: nat)
    requires Fit(s) && Quiescent(s)
    ensures Fit(Alone(Begin(s, me, Dequeue), me, n))
    ensures DequeuedAlone(Abs(s), Abs(Alone(Begin(s, me, Dequeue), me, n)), me)
  {
    BeginFits(s, me, Dequeue);
    AloneFits(Begin(s, me, Dequeue), me, n);
    DequeueBegins(s, me);
    DequeueStaysAlone(Abs(s), Begin(s, me, Dequeue), me, n);
  }

  /** The state e in which a dequeue that ran alone from s has been answered. */
  ghost predicate DequeueAnswered(s: State, e: State, me: Tid) {
    && Fit(e) && Quiescent(e) && me in e.threads && e.closed == s.closed
    && e.ledger.deposited == s.ledger.deposited
    && match e.threads[me]
       case DGot(h, x) =>
         && Pending(s.ledger, h) && x == s.ledger.deposited[h] && e.ledger.taken == s.ledger.taken + {h}
         && (forall t :: Pending(s.ledger, t) ==> h <= t)
       case DEmpty => e.ledger.taken == s.ledger.taken && forall t :: !Pending(s.ledger, t)
       case _ => false
  }

  lemma AnswerIsOldest(s: State, e: State, me: Tid)
    requires Inv(s) && Fit(e) && DequeuedAlone(Abs(s), Abs(e), me) && IsIdle(e, me)
    ensures DequeueAnswered(s, e, me)
  {
    assert Abs(e).threads[me] == AbsPc(e.threads[me]);
    AloneGetsOldest(Abs(s), Abs(e), me);
    assert forall t :: Untaken(Abs(s), t) <==> Pending(s.ledger, t);
    forall b <- e.threads ensures IsIdle(e, b) { assert Abs(e).threads[b] == AbsPc(e.threads[b]); }
  }

  /** With nobody else at work, a dequeue answers with the oldest item, or EMPTY if there is none. */
  lemma DequeueAlone(s: State, me: Tid, n: nat)
    requires Fit(s) && Quiescent(s) && DrawCost(s) <= n
    ensures DequeueAnswered(s, Alone(Begin(s, me, Dequeue), me, n), me)
  {
    AloneIsAnswered(Begin(s, me, Dequeue), me, n);
    DequeueRuns(s, me, n);
    AnswerIsOldest(s, Alone(Begin(s, me, Dequeue), me, n), me);
  }

  /** When a dequeue alone has answered EMPTY on an open ring, an enqueue alone is answered OK. */
  lemma EmptyRingAccepts(s: State, e: State, me: Tid, b: Tid, x: Item) returns (k: nat)
    requires DequeueAnswered(s, e, me) && e.threads[me].DEmpty? && !s.closed
    ensures k <= 5 && Alone(Begin(e, b, Enqueue(x)), b, k).threads == e.threads[b := EOk(x, e.tail)]
  {
    TailNode(e);
    assert forall u :: Pending(e.ledger, u) <==> Pending(s.ledger, u);
    k := OpenEnqueue(e, b, x);
  }

  /** The same of a dequeue that starts when nobody is at work: this is what `fixState` is for. */
  lemma EmptyThenEnqueue(s: State, me: Tid, n: nat, b: Tid, x: Item) returns (k: nat)
    requires Fit(s) && Quiescent(s) && !s.closed
    requires var e := Alone(Begin(s, me, Dequeue), me, n); me in e.threads && e.threads[me].DEmpty?
    ensures k <= 5
    ensures var e := Alone(Begin(s, me, Dequeue), me, n);
      Alone(Begin(e, b, Enqueue(x)), b, k).threads == e.threads[b := EOk(x, e.tail)]
  {
    DequeueRuns(s, me, n);
    AnswerIsOldest(s, Alone(Begin(s, me, Dequeue), me, n), me);
    k := EmptyRingAccepts(s, Alone(Begin(s, me, Dequeue), me, n), me, b, x);
  }
}
