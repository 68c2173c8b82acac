/**
 * A thread that runs alone on a PRQ: it is answered, whatever the others have left undone; and when
 * nobody else is at work the answer is that of a bounded first-in-first-out queue, which also refuses
 * items once its head has passed its tail.
 */
module PrqAlone {
  import opened RingGeometry
  import opened TicketRing
  import opened Prq
  import opened PrqCalls

  // ---- Every call that runs alone is answered ----

  /** The attempts an enqueue has left after its attempt number k. */
  function AttemptsLeft(k: nat): nat {
    if k <= StarvingThreshold then StarvingThreshold + 1 - k else 0
  }

  function Ahead(s: State): nat {
    if s.head < s.tail then s.tail - s.head else 0
  }

  function DrawCost(s: State): nat {
    14 * Ahead(s) + 14
  }

  /** The accesses a dequeuer may need from its tail check on. */
  function CheckCost(s: State, h: nat): nat {
    if s.tail <= h + 1 then 1 else 1 + DrawCost(s)
  }

  /** The accesses to its cell; a dequeuer whose swap or confirmation will fail has to look once more. */
  function CellCost(c: Cell, pc: Pc): nat {
    match pc
    case DReadStamp(_) => 5
    case DReadValue(_, r) => if c.stamp == r then 4 else 8
    case DConfirm(_, r, v) => if c == Cell(r, v) then 3 else 7
    case DClear(_, _) => 1
    case DKillToken(_, r, v) => if c == Cell(r, v) then 2 else if c.value == v then 7 else 6
    case DAdvance(_, r) => if c.stamp == r then 1 else 6
    case DMarkUnsafe(_, r) => if c.stamp == r then 1 else 6
    case _ => 0
  }

  /** A bound on the accesses that a call needs when its thread runs alone from here. */
  function Cost(s: State, pc: Pc): nat
    requires WellFormed(s)
  {
    match pc
    case EDraw(_, k) => 10 * AttemptsLeft(k) + 9
    case EReadStamp(_, k, _) => 10 * AttemptsLeft(k) + 8
    case EReadValue(_, k, _, _) => 10 * AttemptsLeft(k) + 7
    case EReadHead(_, k, _, _, _) => 10 * AttemptsLeft(k) + 6
    case EPlaceToken(_, k, _, _, _) => 10 * AttemptsLeft(k) + 5
    case EStamp(_, k, _, _) => 10 * AttemptsLeft(k) + 4
    case EWithdraw(_, k, _) => 10 * AttemptsLeft(k) + 3
    case EDeposit(_, k, _) => 10 * AttemptsLeft(k) + 3
    case EOverflow(_, k, _) => 10 * AttemptsLeft(k) + 2
    case EClose(_) => 1
    case DDraw => DrawCost(s)
    case DReadTail(h) => CheckCost(s, h)
    case _ => if pc.AtDequeue() then CellCost(At(s, pc.Ticket()), pc) + CheckCost(s, pc.Ticket()) else 0
  }

  lemma CellCostFalls(c: Cell, me: Tid, pc: Pc)
    requires pc.AtDequeue()
    ensures var a := CellAccess(c, me, pc);
      a.pc.DGot? || (CellCost(a.cell, a.pc) < CellCost(c, pc) && (a.pc.AtDequeue() || a.pc.DReadTail?))
  {}

  lemma DequeuerCostFalls(s: State, me: Tid)
    requires WellFormed(s) && me in s.threads && s.threads[me].AtDequeue()
    ensures Cost(Next(s, me), Next(s, me).threads[me]) < Cost(s, s.threads[me])
  {
    var pc := s.threads[me];
    CellCostFalls(At(s, pc.Ticket()), me, pc);
  }

  lemma EnqueuerCostFalls(s: State, me: Tid)
    requires WellFormed(s) && me in s.threads
    requires AbsPc(s.threads[me]).Enqueueing? || AbsPc(s.threads[me]).Holding?
    ensures Cost(Next(s, me), Next(s, me).threads[me]) < Cost(s, s.threads[me])
  {}

  lemma CheckCostFalls(s: State, me: Tid)
    requires WellFormed(s) && me in s.threads && (s.threads[me].DDraw? || s.threads[me].DReadTail?)
    ensures Cost(Next(s, me), Next(s, me).threads[me]) < Cost(s, s.threads[me])
  {}

  /** Every access of a running call brings its answer nearer. */
  lemma CostFalls(s: State, me: Tid)
    requires WellFormed(s) && me in s.threads && !IsIdle(s, me)
    ensures Cost(Next(s, me), Next(s, me).threads[me]) < Cost(s, s.threads[me])
  {
    var pc := s.threads[me];
    if pc.AtDequeue() {
      DequeuerCostFalls(s, me);
    } else if pc.DDraw? || pc.DReadTail? {
      CheckCostFalls(s, me);
    } else {
      EnqueuerCostFalls(s, me);
    }
  }

  lemma AnswerStays(s: State, me: Tid)
    requires WellFormed(s) && IsIdle(s, me)
    ensures Next(s, me) == s
  {
    if me in s.threads { assert s.threads[me := s.threads[me]] == s.threads; }
  }

  lemma {:induction false} CostOfAccesses(s: State, me: Tid, n: nat)
    requires WellFormed(s) && me in s.threads
    ensures var s' := Alone(s, me, n);
      me in s'.threads && (IsIdle(s', me) || n + Cost(s', s'.threads[me]) <= Cost(s, s.threads[me]))
  {
    if n != 0 {
      CostOfAccesses(s, me, n - 1);
      var m := Alone(s, me, n - 1);
      if IsIdle(m, me) {
        AnswerStays(m, me);
      } else {
        CostFalls(m, me);
      }
    }
  }

  /** From any state, whatever the other threads have left undone, a thread running alone is answered. */
  lemma AloneIsAnswered(s: State, me: Tid, n: nat)
    requires WellFormed(s) && me in s.threads && Cost(s, s.threads[me]) <= n
    ensures me in Alone(s, me, n).threads && IsIdle(Alone(s, me, n), me)
  {
    CostOfAccesses(s, me, n);
    if !IsIdle(Alone(s, me, n), me) { CostFalls(Alone(s, me, n), me); }
  }

  // ---- Epochs stay behind the rounds to come ----

  /** The cell of a ticket that neither side has drawn has not seen that ticket's round. */
  ghost predicate EpochBehind(s: State, t: nat)
    requires WellFormed(s)
  {
    s.head <= t && s.tail <= t ==> At(s, t).stamp.epoch < Cycle(t)
  }

  ghost predicate EpochsBehind(s: State)
    requires WellFormed(s)
  {
    forall t: nat :: EpochBehind(s, t)
  }

  lemma LaterInSlot(u: nat, t: nat)
    requires Slot(u) == Slot(t) && u < t
    ensures u + R <= t && Cycle(u) < Cycle(t)
  {
    assert u == R * Cycle(u) + Slot(u) && t == R * Cycle(t) + Slot(t);
    MulOrder(Cycle(u), Cycle(t));
  }

  lemma AccessEpochBehind(c: Cell, me: Tid, pc: Pc, t: nat)
    requires pc.AtCell() && Slot(pc.Ticket()) == Slot(t) && c.stamp.epoch < Cycle(t)
    requires pc.EStamp? || pc.DAdvance? ==> pc.Ticket() < t
    ensures CellAccess(c, me, pc).cell.stamp.epoch < Cycle(t)
  {
    if pc.EStamp? || pc.DAdvance? { LaterInSlot(pc.Ticket(), t); }
  }

  lemma CellEpochBehind(s: State, me: Tid, t: nat)
    requires WellFormed(s) && me in s.threads && s.threads[me].AtCell() && EpochBehind(s, t)
    requires var pc := s.threads[me]; pc.EStamp? || pc.DAdvance? ==> pc.Ticket() < s.head || pc.Ticket() < s.tail
    ensures EpochBehind(Next(s, me), t)
  {
    var pc := s.threads[me];
    if Slot(pc.Ticket()) == Slot(t) && s.head <= t && s.tail <= t { AccessEpochBehind(At(s, t), me, pc, t); }
  }

  lemma CounterEpochBehind(s: State, me: Tid, t: nat)
    requires WellFormed(s) && me in s.threads && !s.threads[me].AtCell() && EpochBehind(s, t)
    ensures EpochBehind(Next(s, me), t)
  {}

  lemma NextEpochBehind(s: State, me: Tid, t: nat)
    requires Inv(s) && EpochBehind(s, t)
    ensures EpochBehind(Next(s, me), t)
  {
    if me in s.threads {
      TicketFacts(s, me);
      if s.threads[me].AtCell() { CellEpochBehind(s, me, t); } else { CounterEpochBehind(s, me, t); }
    }
  }

  /** What every reachable ring keeps, besides Inv. */
  ghost predicate Fit(s: State) {
    Inv(s) && EpochsBehind(s)
  }

  lemma NextFits(s: State, me: Tid)
    requires Fit(s)
    ensures Fit(Next(s, me))
  {
    NextKeepsInv(s, me);
    forall t: nat ensures EpochBehind(Next(s, me), t) {
      assert EpochBehind(s, t);
      NextEpochBehind(s, me, t);
    }
  }

  lemma BeginFits(s: State, me: Tid, call: Call)
    requires Fit(s) && IsIdle(s, me)
    ensures Fit(Begin(s, me, call))
  {
    BeginKeepsInv(s, me, call);
    forall t: nat ensures EpochBehind(Begin(s, me, call), t) { assert EpochBehind(s, t); }
  }

  lemma InitFits()
    ensures Fit(Init())
  {
    InitInv();
    forall t: nat ensures EpochBehind(Init(), t) {
      if R <= t { assert t == R * Cycle(t) + Slot(t) && Slot(t) < R; }
    }
  }

  lemma {:induction false} EveryRunFits(schedule: seq<Act>)
    ensures Fit(Run(schedule))
  {
    if schedule == [] {
      InitFits();
    } else {
      var before := schedule[..|schedule| - 1];
      EveryRunFits(before);
      RunUnfolds(schedule);
      match schedule[|schedule| - 1]
      case Go(me) => NextFits(Run(before), me);
      case Invoke(me, call) => if IsIdle(Run(before), me) { BeginFits(Run(before), me, call); }
    }
  }

  lemma {:induction false} AloneFits(s: State, me: Tid, n: nat)
    requires Fit(s)
    ensures Fit(Alone(s, me, n))
  {
    if n != 0 {
      AloneFits(s, me, n - 1);
      NextFits(Alone(s, me, n - 1), me);
    }
  }

  // ---- Calls on a ring where nobody else is at work ----

  /** Nobody is at work. */
  predicate Quiescent(s: State) {
    forall b <- s.threads :: IsIdle(s, b)
  }

  /** Ticket t's cell still holds an item of an earlier round. */
  predicate SlotTaken(s: State, t: nat)
    requires WellFormed(s)
  {
    At(s, t).value.Full?
  }

  lemma PendingIsAhead(s: State, u: nat)
    requires Inv(s) && Quiescent(s) && Pending(s.ledger, u)
    ensures s.head <= u < s.tail
  {
    var r := Abs(s);
    assert forall b <- r.threads :: r.threads[b] == AbsPc(s.threads[b]) && IsIdle(s, b);
    assert forall b :: !Visits(r, b, u);
    PendingIsVisitedIffPassed(r, u);
  }

  /** The tail of a ring whose head has not passed it: its cell is ready for it unless it is full. */
  lemma TailCell(s: State)
    requires Fit(s) && Quiescent(s) && s.head <= s.tail
    ensures At(s, s.tail).stamp.epoch < Cycle(s.tail)
    ensures SlotTaken(s, s.tail) ==> s.head + R <= s.tail
    ensures SlotTaken(s, s.tail) <==> exists u :: Pending(s.ledger, u) && Slot(u) == Slot(s.tail)
  {
    assert EpochBehind(s, s.tail) && CellAt(s, Slot(s.tail));
    if u :| Pending(s.ledger, u) && Slot(u) == Slot(s.tail) {
      PendingIsAhead(s, u);
      LaterInSlot(u, s.tail);
    }
  }

  /** The tail of a ring whose head has passed it: its cell turns its ticket away. */
  lemma OvertakenTail(s: State)
    requires Inv(s) && Quiescent(s) && s.tail < s.head
    ensures var c := At(s, s.tail); Cycle(s.tail) <= c.stamp.epoch || !c.stamp.safe
  {
    var r := Abs(s);
    assert CellAt(s, Slot(s.tail));
    assert forall b <- r.threads :: r.threads[b] == AbsPc(s.threads[b]) && IsIdle(s, b);
    assert forall b :: !Visits(r, b, s.tail);
    assert r.first <= s.tail < r.head;
    assert s.tail !in s.ledger.deposited && s.tail in s.ledger.retired;
  }

  /** Alone, an enqueue draws the tail and reads its cell. */
  lemma EnqueueReads(s: State, me: Tid, x: Item)
    requires WellFormed(s) && !s.closed
    ensures var c := At(s, s.tail);
      Alone(Begin(s, me, Enqueue(x)), me, 3) == s.(tail := s.tail + 1, threads := s.threads[me :=
        if c.value.Full? || Cycle(s.tail) <= c.stamp.epoch then EOverflow(x, 0, s.tail)
        else if c.stamp.safe then EPlaceToken(x, 0, s.tail, c.stamp, c.value)
        else EReadHead(x, 0, s.tail, c.stamp, c.value)])
  {
    var t, c, s0 := s.tail, At(s, s.tail), Begin(s, me, Enqueue(x));
    var s1 := s.(tail := t + 1, threads := s.threads[me := EReadStamp(x, 0, t)]);
    var s2 := s1.(threads := s.threads[me := EReadValue(x, 0, t, c.stamp)]);
    assert Alone(s0, me, 0) == s0;
    assert Alone(s0, me, 1) == s1;
    assert s1.cells[Slot(t) := c] == s.cells;
    assert Alone(s0, me, 2) == s2;
  }

  /** A thread at pc while nothing else changes. */
  function AtPc(s: State, me: Tid, pc: Pc): State {
    s.(threads := s.threads[me := pc])
  }

  lemma OneMore(s0: State, me: Tid, m: nat, s: State)
    requires WellFormed(s0) && Alone(s0, me, m) == s
    ensures Alone(s0, me, m + 1) == Next(s, me)
  {}

  lemma HeadCheck(s: State, me: Tid, x: Item, t: nat, r: Stamp, v: Value)
    requires WellFormed(s)
    ensures Next(AtPc(s, me, EReadHead(x, 0, t, r, v)), me) ==
      AtPc(s, me, if s.head <= t then EPlaceToken(x, 0, t, r, v) else EOverflow(x, 0, t))
  {}

  /** A thread at pc, with its cell as it has made it. */
  function WithCell(s: State, me: Tid, t: nat, c: Cell, pc: Pc): State
    requires WellFormed(s)
  {
    AtPc(s, me, pc).(cells := s.cells[Slot(t) := c])
  }

  lemma TokenIsPlaced(s: State, me: Tid, x: Item, t: nat)
    requires WellFormed(s)
    ensures var c := At(s, t);
      Next(AtPc(s, me, EPlaceToken(x, 0, t, c.stamp, c.value)), me) ==
        WithCell(s, me, t, c.(value := Token(me)), EStamp(x, 0, t, c.stamp))
  {}

  lemma CellIsStamped(s: State, me: Tid, x: Item, t: nat, r: Stamp)
    requires WellFormed(s)
    ensures Next(WithCell(s, me, t, Cell(r, Token(me)), EStamp(x, 0, t, r)), me) ==
      WithCell(s, me, t, Cell(Stamp(true, Cycle(t)), Token(me)), EDeposit(x, 0, t))
  {
    var c := Cell(Stamp(true, Cycle(t)), Token(me));
    assert s.cells[Slot(t) := Cell(r, Token(me))][Slot(t) := c] == s.cells[Slot(t) := c];
  }

  lemma TokenIsSwapped(s: State, me: Tid, x: Item, t: nat, r: Stamp)
    requires WellFormed(s)
    ensures Next(WithCell(s, me, t, Cell(r, Token(me)), EDeposit(x, 0, t)), me) ==
      WithCell(s, me, t, Cell(r, Full(x)), EOk(x, t)).(
        ledger := s.ledger.(deposited := s.ledger.deposited[t := x]))
  {
    assert s.cells[Slot(t) := Cell(r, Token(me))][Slot(t) := Cell(r, Full(x))] == s.cells[Slot(t) := Cell(r, Full(x))];
  }

  lemma DepositFollows(s0: State, s: State, me: Tid, x: Item, t: nat, m: nat)
    requires WellFormed(s0) && WellFormed(s)
    requires Alone(s0, me, m) == AtPc(s, me, EPlaceToken(x, 0, t, At(s, t).stamp, At(s, t).value))
    ensures Alone(s0, me, m + 3) ==
      WithCell(s, me, t, Cell(Stamp(true, Cycle(t)), Full(x)), EOk(x, t)).(
        ledger := s.ledger.(deposited := s.ledger.deposited[t := x]))
  {
    var c := At(s, t);
    TokenIsPlaced(s, me, x, t);
    CellIsStamped(s, me, x, t, c.stamp);
    TokenIsSwapped(s, me, x, t, Stamp(true, Cycle(t)));
    OneMore(s0, me, m, AtPc(s, me, EPlaceToken(x, 0, t, c.stamp, c.value)));
    OneMore(s0, me, m + 1, WithCell(s, me, t, c.(value := Token(me)), EStamp(x, 0, t, c.stamp)));
    OneMore(s0, me, m + 2, WithCell(s, me, t, Cell(Stamp(true, Cycle(t)), Token(me)), EDeposit(x, 0, t)));
  }

  lemma OverflowCloses(s: State, me: Tid, x: Item, t: nat)
    requires WellFormed(s) && Overflows(t, s.head)
    ensures Next(AtPc(s, me, EOverflow(x, 0, t)), me) == AtPc(s, me, EClose(x))
    ensures Next(AtPc(s, me, EClose(x)), me) == AtPc(s, me, EClosed(x)).(closed := true)
  {}

  lemma ClosingFollows(s0: State, s: State, me: Tid, x: Item, t: nat, m: nat)
    requires WellFormed(s0) && WellFormed(s) && Overflows(t, s.head)
    requires Alone(s0, me, m) == AtPc(s, me, EOverflow(x, 0, t))
    ensures Alone(s0, me, m + 2) == AtPc(s, me, EClosed(x)).(closed := true)
  {
    OverflowCloses(s, me, x, t);
    OneMore(s0, me, m, AtPc(s, me, EOverflow(x, 0, t)));
    OneMore(s0, me, m + 1, AtPc(s, me, EClose(x)));
  }

  /** A ring that cannot take x: it is closed, its head has passed its tail, or it is full at its tail. */
  predicate Refuses(s: State)
    requires WellFormed(s)
  {
    s.closed || s.tail < s.head || SlotTaken(s, s.tail)
  }

  /** What TailCell and OvertakenTail say of the tail's cell. */
  predicate TailReady(s: State)
    requires WellFormed(s)
  {
    var c := At(s, s.tail);
    if s.head <= s.tail then c.stamp.epoch < Cycle(s.tail) && (c.value.Full? ==> s.head + R <= s.tail)
    else Cycle(s.tail) <= c.stamp.epoch || !c.stamp.safe
  }

  /** The enqueuer has drawn the tail and is about to place its token. */
  lemma TokenIsNext(s: State, me: Tid, x: Item) returns (n: nat)
    requires WellFormed(s) && TailReady(s) && !Refuses(s)
    ensures var c := At(s, s.tail);
      && n <= 4
      && Alone(Begin(s, me, Enqueue(x)), me, n) ==
         AtPc(s.(tail := s.tail + 1), me, EPlaceToken(x, 0, s.tail, c.stamp, c.value))
  {
    var c := At(s, s.tail);
    EnqueueReads(s, me, x);
    if c.stamp.safe {
      n := 3;
    } else {
      n := 4;
      HeadCheck(s.(tail := s.tail + 1), me, x, s.tail, c.stamp, c.value);
      var pc := EReadHead(x, 0, s.tail, c.stamp, c.value);
      OneMore(Begin(s, me, Enqueue(x)), me, 3, AtPc(s.(tail := s.tail + 1), me, pc));
    }
  }

  lemma EnqueueEnds(s: State, me: Tid, x: Item, m: nat)
    requires WellFormed(s)
    requires Alone(Begin(s, me, Enqueue(x)), me, m) ==
      AtPc(s.(tail := s.tail + 1), me, EPlaceToken(x, 0, s.tail, At(s, s.tail).stamp, At(s, s.tail).value))
    ensures var e := Alone(Begin(s, me, Enqueue(x)), me, m + 3);
      && e.threads == s.threads[me := EOk(x, s.tail)] && e.closed == s.closed && e.head == s.head
      && e.ledger == s.ledger.(deposited := s.ledger.deposited[s.tail := x])
  {
    DepositFollows(Begin(s, me, Enqueue(x)), s.(tail := s.tail + 1), me, x, s.tail, m);
  }

  lemma RefusalEnds(s: State, me: Tid, x: Item, m: nat)
    requires WellFormed(s) && Overflows(s.tail, s.head)
    requires Alone(Begin(s, me, Enqueue(x)), me, m) == AtPc(s.(tail := s.tail + 1), me, EOverflow(x, 0, s.tail))
    ensures var e := Alone(Begin(s, me, Enqueue(x)), me, m + 2);
      e.threads == s.threads[me := EClosed(x)] && e.closed && e.head == s.head && e.ledger == s.ledger
  {
    ClosingFollows(Begin(s, me, Enqueue(x)), s.(tail := s.tail + 1), me, x, s.tail, m);
  }

  lemma OpenEnqueue(s: State, me: Tid, x: Item) returns (n: nat)
    requires WellFormed(s) && TailReady(s) && !Refuses(s)
    ensures n <= 7
    ensures var e := Alone(Begin(s, me, Enqueue(x)), me, n);
      && e.threads == s.threads[me := EOk(x, s.tail)] && e.closed == s.closed && e.head == s.head
      && e.ledger == s.ledger.(deposited := s.ledger.deposited[s.tail := x])
  {
    var m := TokenIsNext(s, me, x);
    EnqueueEnds(s, me, x, m);
    n := m + 3;
  }

  lemma ClosedEnqueue(s: State, me: Tid, x: Item)
    requires WellFormed(s) && s.closed
    ensures Alone(Begin(s, me, Enqueue(x)), me, 1) == AtPc(s, me, EClosed(x)).(tail := s.tail + 1)
  {
    assert Alone(Begin(s, me, Enqueue(x)), me, 0) == Begin(s, me, Enqueue(x));
  }

  /** The failed attempt comes after three accesses, or after a fourth that reads the head. */
  lemma RefusedReads(s: State, me: Tid, x: Item) returns (n: nat)
    requires WellFormed(s) && TailReady(s) && !s.closed && Refuses(s)
    ensures n <= 4 && Overflows(s.tail, s.head)
    ensures Alone(Begin(s, me, Enqueue(x)), me, n) == AtPc(s.(tail := s.tail + 1), me, EOverflow(x, 0, s.tail))
  {
    var c, s0 := At(s, s.tail), Begin(s, me, Enqueue(x));
    EnqueueReads(s, me, x);
    n := 3;
    if !c.value.Full? && c.stamp.epoch < Cycle(s.tail) {
      n := 4;
      HeadCheck(s.(tail := s.tail + 1), me, x, s.tail, c.stamp, c.value);
      OneMore(s0, me, 3, AtPc(s.(tail := s.tail + 1), me, EReadHead(x, 0, s.tail, c.stamp, c.value)));
    }
  }

  lemma RefusedEnqueue(s: State, me: Tid, x: Item) returns (n: nat)
    requires WellFormed(s) && TailReady(s) && Refuses(s)
    ensures n <= 6
    ensures var e := Alone(Begin(s, me, Enqueue(x)), me, n);
      e.threads == s.threads[me := EClosed(x)] && e.closed && e.head == s.head && e.ledger == s.ledger
  {
    if s.closed {
      n := 1;
      ClosedEnqueue(s, me, x);
    } else {
      var m := RefusedReads(s, me, x);
      RefusalEnds(s, me, x, m);
      n := m + 2;
    }
  }

  /** The state e in which an enqueue of x that ran alone from s has been answered. */
  ghost predicate EnqueueAnswered(s: State, e: State, me: Tid, x: Item) {
    && Fit(e) && Quiescent(e) && me in e.threads && e.head == s.head
    && if s.closed || s.tail < s.head || exists u :: Pending(s.ledger, u) && Slot(u) == Slot(s.tail)
       then e.threads[me] == EClosed(x) && e.closed && e.ledger == s.ledger
       else e.threads[me] == EOk(x, s.tail) && !e.closed
            && e.ledger == s.ledger.(deposited := s.ledger.deposited[s.tail := x])
  }

  lemma EnqueueFits(s: State, me: Tid, x: Item, n: nat)
    requires Fit(s) && IsIdle(s, me)
    ensures Fit(Alone(Begin(s, me, Enqueue(x)), me, n))
  {
    BeginFits(s, me, Enqueue(x));
    AloneFits(Begin(s, me, Enqueue(x)), me, n);
  }

  lemma StillQuiescent(s: State, e: State, me: Tid, pc: Pc)
    requires Quiescent(s) && e.threads == s.threads[me := pc] && Answered(AbsPc(pc))
    ensures Quiescent(e)
  {
    forall b <- e.threads ensures IsIdle(e, b) { assert b != me ==> IsIdle(s, b); }
  }

  /**
   * With nobody else at work, an enqueue deposits its item under the tail's ticket if the ring is open,
   * its head has not passed its tail and no item waits in that cell, and otherwise answers CLOSED.
   */
  lemma EnqueueAlone(s: State, me: Tid, x: Item) returns (n: nat)
    requires Fit(s) && Quiescent(s)
    ensures n <= 7 && EnqueueAnswered(s, Alone(Begin(s, me, Enqueue(x)), me, n), me, x)
  {
    if s.head <= s.tail { TailCell(s); } else { OvertakenTail(s); }
    if Refuses(s) {
      n := RefusedEnqueue(s, me, x);
      StillQuiescent(s, Alone(Begin(s, me, Enqueue(x)), me, n), me, EClosed(x));
    } else {
      n := OpenEnqueue(s, me, x);
      StillQuiescent(s, Alone(Begin(s, me, Enqueue(x)), me, n), me, EOk(x, s.tail));
    }
    EnqueueFits(s, me, x, n);
  }

  lemma DequeueBegins(s: State, me: Tid)
    requires WellFormed(s) && Quiescent(s)
    ensures DequeuedAlone(Abs(s), Abs(Begin(s, me, Dequeue)), me)
  {
    var r := Abs(Begin(s, me, Dequeue));
    assert r.threads[me] == Dequeueing;
    forall b <- r.threads | b != me ensures Answered(r.threads[b]) {
      assert b in s.threads && r.threads[b] == AbsPc(s.threads[b]) && IsIdle(s, b);
    }
  }

  /** s is what a dequeue of me, running alone, has made of the quiescent ring r0. */
  ghost predicate DequeuedFrom(r0: Ring, s: State, me: Tid) {
    Inv(s) && DequeuedAlone(r0, Abs(s), me)
  }

  lemma DequeueGoesOn(r0: Ring, s: State, s': State, me: Tid)
    requires DequeuedFrom(r0, s, me) && s' == Next(s, me)
    ensures DequeuedFrom(r0, s', me)
  {
    NextKeepsInv(s, me);
    RefinesRing(s, me);
    DequeuesOnAlone(r0, Abs(s), Abs(s'), me);
  }

  /** What each access of me keeps, any number of them keep. */
  lemma {:induction false} AloneKeeps(keeps: State -> bool, s: State, me: Tid, n: nat)
    requires keeps(s) && forall t :: keeps(t) ==> WellFormed(t) && keeps(Next(t, me))
    ensures WellFormed(s) && keeps(Alone(s, me, n))
  {
    if n != 0 { AloneKeeps(keeps, s, me, n - 1); }
  }

  lemma DequeueStaysAlone(r0: Ring, s: State, me: Tid, n: nat)
    requires DequeuedFrom(r0, s, me)
    ensures DequeuedFrom(r0, Alone(s, me, n), me)
  {
    forall t | DequeuedFrom(r0, t, me) ensures DequeuedFrom(r0, Next(t, me), me) {
      DequeueGoesOn(r0, t, Next(t, me), me);
    }
    AloneKeeps(t => DequeuedFrom(r0, t, me), s, me, n);
  }

  /** n accesses of a dequeue that starts when nobody is at work. */
  lemma DequeueRuns(s: State, me: Tid, n: nat)
    requires Fit(s) && Quiescent(s)
    ensures Fit(Alone(Begin(s, me, Dequeue), me, n))
    ensures DequeuedAlone(Abs(s), Abs(Alone(Begin(s, me, Dequeue), me, n)), me)
  {
    BeginFits(s, me, Dequeue);
    AloneFits(Begin(s, me, Dequeue), me, n);
    DequeueBegins(s, me);
    DequeueStaysAlone(Abs(s), Begin(s, me, Dequeue), me, n);
  }

  /** The state e in which a dequeue that ran alone from s has been answered. */
  ghost predicate DequeueAnswered(s: State, e: State, me: Tid) {
    && Fit(e) && Quiescent(e) && me in e.threads && e.closed == s.closed
    && e.ledger.deposited == s.ledger.deposited
    && match e.threads[me]
       case DGot(h, x) =>
         && Pending(s.ledger, h) && x == s.ledger.deposited[h] && e.ledger.taken == s.ledger.taken + {h}
         && (forall t :: Pending(s.ledger, t) ==> h <= t)
       case DEmpty => e.ledger.taken == s.ledger.taken && forall t :: !Pending(s.ledger, t)
       case _ => false
  }

  lemma AnswerIsOldest(s: State, e: State, me: Tid)
    requires Inv(s) && Fit(e) && DequeuedAlone(Abs(s), Abs(e), me) && IsIdle(e, me)
    ensures DequeueAnswered(s, e, me)
  {
    assert Abs(e).threads[me] == AbsPc(e.threads[me]);
    AloneGetsOldest(Abs(s), Abs(e), me);
    assert forall t :: Untaken(Abs(s), t) <==> Pending(s.ledger, t);
    forall b <- e.threads ensures IsIdle(e, b) { assert Abs(e).threads[b] == AbsPc(e.threads[b]); }
  }

  /** With nobody else at work, a dequeue answers with the oldest item, or EMPTY if there is none. */
  lemma DequeueAlone(s: State, me: Tid, n: nat)
    requires Fit(s) && Quiescent(s) && DrawCost(s) <= n
    ensures DequeueAnswered(s, Alone(Begin(s, me, Dequeue), me, n), me)
  {
    AloneIsAnswered(Begin(s, me, Dequeue), me, n);
    DequeueRuns(s, me, n);
    AnswerIsOldest(s, Alone(Begin(s, me, Dequeue), me, n), me);
  }
}
