/**
 * PRQ, the ring of LPRQueue, as a state machine over single-word atomic accesses.
 *
 * Every program counter names the shared access its thread performs next. A thread announces an
 * enqueue by leaving its token in a cell, stamps the cell with its round, and only then swaps the
 * token for the item. `ledger` is history: it records deposits, takes and retirements and no step
 * reads it.
 */
module Prq {
  import opened RingGeometry
  import opened TicketRing

  datatype Stamp = Stamp(safe: bool, epoch: nat)
  datatype Value = Null | Token(owner: Tid) | Full(x: Item)
  datatype Cell = Cell(stamp: Stamp, value: Value)

  const StarvingThreshold: nat := R

  datatype Pc =
    | EDraw(x: Item, iteration: nat)
    | EReadStamp(x: Item, iteration: nat, t: nat)
    | EReadValue(x: Item, iteration: nat, t: nat, r: Stamp)
    | EReadHead(x: Item, iteration: nat, t: nat, r: Stamp, v: Value)
    | EPlaceToken(x: Item, iteration: nat, t: nat, r: Stamp, v: Value)
    | EStamp(x: Item, iteration: nat, t: nat, r: Stamp)
    | EWithdraw(x: Item, iteration: nat, t: nat)
    | EDeposit(x: Item, iteration: nat, t: nat)
    | EOverflow(x: Item, iteration: nat, t: nat)
    | EClose(x: Item)
    | EOk(x: Item, t: nat)
    | EClosed(x: Item)
    | DDraw
    | DReadStamp(h: nat)
    | DReadValue(h: nat, r: Stamp)
    | DConfirm(h: nat, r: Stamp, v: Value)
    | DClear(h: nat, x: Item)
    | DKillToken(h: nat, r: Stamp, v: Value)
    | DAdvance(h: nat, r: Stamp)
    | DMarkUnsafe(h: nat, r: Stamp)
    | DReadTail(h: nat)
    | DGot(h: nat, x: Item)
    | DEmpty
  {
    /** The ticket whose cell this thread works on. */
    function Ticket(): nat {
      match this
      case EReadStamp(_, _, t) => t
      case EReadValue(_, _, t, _) => t
      case EReadHead(_, _, t, _, _) => t
      case EPlaceToken(_, _, t, _, _) => t
      case EStamp(_, _, t, _) => t
      case EWithdraw(_, _, t) => t
      case EDeposit(_, _, t) => t
      case EOverflow(_, _, t) => t
      case EOk(_, t) => t
      case DReadStamp(h) => h
      case DReadValue(h, _) => h
      case DConfirm(h, _, _) => h
      case DClear(h, _) => h
      case DKillToken(h, _, _) => h
      case DAdvance(h, _) => h
      case DMarkUnsafe(h, _) => h
      case DReadTail(h) => h
      case DGot(h, _) => h
      case _ => 0
    }

    /** The next access is to that cell. */
    predicate AtCell() {
      || EReadStamp? || EReadValue? || EPlaceToken? || EStamp? || EWithdraw? || EDeposit?
      || AtDequeue()
    }

    predicate AtDequeue() {
      || DReadStamp? || DReadValue? || DConfirm? || DClear? || DKillToken? || DAdvance?
      || DMarkUnsafe?
    }
  }

  datatype State = State(
    head: nat, tail: nat, closed: bool, cells: seq<Cell>, threads: map<Tid, Pc>, ledger: Ledger)

  predicate WellFormed(s: State) {
    |s.cells| == R
  }

  function Init(): State {
    State(R, R, false, seq(R, i => Cell(Stamp(true, 0), Null)), map[], Blank)
  }

  function At(s: State, t: nat): Cell
    requires WellFormed(s)
  {
    s.cells[Slot(t)]
  }

  /** What an access to a cell leaves there, and where its thread goes next. */
  datatype Access = Access(cell: Cell, pc: Pc)

  function EnqueuerAccess(c: Cell, me: Tid, pc: Pc): Access
    requires pc.AtCell() && !pc.AtDequeue()
  {
    match pc
    case EReadStamp(x, k, t) => Access(c, EReadValue(x, k, t, c.stamp))
    case EReadValue(x, k, t, r) =>
      Access(c,
        if c.value.Full? || Cycle(t) <= r.epoch then EOverflow(x, k, t)
        else if r.safe then EPlaceToken(x, k, t, r, c.value)
        else EReadHead(x, k, t, r, c.value))
    case EPlaceToken(x, k, t, r, v) =>
      if c.value == v then Access(c.(value := Token(me)), EStamp(x, k, t, r))
      else Access(c, EOverflow(x, k, t))
    case EStamp(x, k, t, r) =>
      if c.stamp == r then Access(c.(stamp := Stamp(true, Cycle(t))), EDeposit(x, k, t))
      else Access(c, EWithdraw(x, k, t))
    case EWithdraw(x, k, t) =>
      Access(if c.value == Token(me) then c.(value := Null) else c, EOverflow(x, k, t))
    case EDeposit(x, k, t) =>
      if c.value == Token(me) then Access(c.(value := Full(x)), EOk(x, t))
      else Access(c, EOverflow(x, k, t))
  }

  function DequeuerAccess(c: Cell, pc: Pc): Access
    requires pc.AtDequeue()
  {
    match pc
    case DReadStamp(h) => Access(c, DReadValue(h, c.stamp))
    case DReadValue(h, r) => Access(c, DConfirm(h, r, c.value))
    case DConfirm(h, r, v) =>
      Access(c,
        if c.stamp != r then DReadStamp(h)
        else if r.epoch == Cycle(h) && v.Full? then DClear(h, v.x)
        else if r.epoch <= Cycle(h) && v.Token? then DKillToken(h, r, v)
        else if r.epoch <= Cycle(h) && v.Null? then DAdvance(h, r)
        else if r.epoch < Cycle(h) then DMarkUnsafe(h, r)
        else DReadTail(h))
    case DClear(h, x) => Access(c.(value := Null), DGot(h, x))
    case DKillToken(h, r, v) =>
      if c.value == v then Access(c.(value := Null), DAdvance(h, r))
      else Access(c, DReadStamp(h))
    case DAdvance(h, r) =>
      if c.stamp == r then Access(c.(stamp := Stamp(r.safe, Cycle(h))), DReadTail(h))
      else Access(c, DReadStamp(h))
    case DMarkUnsafe(h, r) =>
      if c.stamp == r then Access(c.(stamp := Stamp(false, r.epoch)), DReadTail(h))
      else Access(c, DReadStamp(h))
  }

  function CellAccess(c: Cell, me: Tid, pc: Pc): (a: Access)
    requires pc.AtCell()
    ensures a.pc.Ticket() == pc.Ticket()
  {
    if pc.AtDequeue() then DequeuerAccess(c, pc) else EnqueuerAccess(c, me, pc)
  }

  /** History: an answer or a retirement is written down when the thread reaches it. */
  function Record(l: Ledger, pc: Pc, pc': Pc): Ledger {
    if pc.EDeposit? && pc'.EOk? then l.(deposited := l.deposited[pc.t := pc.x])
    else if pc.AtDequeue() && pc'.DGot? then l.(taken := l.taken + {pc.Ticket()})
    else if pc.AtDequeue() && pc'.DReadTail? then l.(retired := l.retired + {pc.Ticket()})
    else l
  }

  /** `t - head >= R` on 64-bit unsigned words: it also holds when the head has passed t. */
  predicate Overflows(t: nat, head: nat) {
    t < head || R <= t - head
  }

  /** An access to the head or the tail word. */
  function CounterAccess(s: State, me: Tid, pc: Pc): State {
    match pc
    case EDraw(x, k) =>
      s.(tail := s.tail + 1,
         threads := s.threads[me := if s.closed then EClosed(x) else EReadStamp(x, k, s.tail)])
    case EReadHead(x, k, t, r, v) =>
      s.(threads := s.threads[me :=
           if s.head <= t then EPlaceToken(x, k, t, r, v) else EOverflow(x, k, t)])
    case EOverflow(x, k, t) =>
      s.(threads := s.threads[me :=
           if Overflows(t, s.head) || StarvingThreshold < k then EClose(x) else EDraw(x, k + 1)])
    case EClose(x) => s.(closed := true, threads := s.threads[me := EClosed(x)])
    case DDraw => s.(head := s.head + 1, threads := s.threads[me := DReadStamp(s.head)])
    case DReadTail(h) =>
      s.(threads := s.threads[me := if s.tail <= h + 1 then DEmpty else DDraw])
    case _ => s
  }

  /** The next atomic access of thread `me`. */
  function Next(s: State, me: Tid): (s': State)
    requires WellFormed(s)
    ensures WellFormed(s') && s'.threads.Keys == s.threads.Keys
  {
    if me !in s.threads then s else
    var pc := s.threads[me];
    if !pc.AtCell() then CounterAccess(s, me, pc) else
    var a := CellAccess(At(s, pc.Ticket()), me, pc);
    s.(cells := s.cells[Slot(pc.Ticket()) := a.cell],
       threads := s.threads[me := a.pc],
       ledger := Record(s.ledger, pc, a.pc))
  }

  // ---- The abstract ring behind a state ----

  function AbsPc(pc: Pc): Phase {
    match pc
    case EDraw(x, _) => Enqueueing(x)
    case EReadStamp(x, _, t) => Holding(x, t)
    case EReadValue(x, _, t, _) => Holding(x, t)
    case EReadHead(x, _, t, _, _) => Holding(x, t)
    case EPlaceToken(x, _, t, _, _) => Holding(x, t)
    case EStamp(x, _, t, _) => Holding(x, t)
    case EWithdraw(x, _, _) => Enqueueing(x)
    case EDeposit(x, _, t) => Holding(x, t)
    case EOverflow(x, _, _) => Enqueueing(x)
    case EClose(x) => Enqueueing(x)
    case EOk(x, t) => Accepted(x, t)
    case EClosed(x) => Refused(x)
    case DDraw => Dequeueing
    case DReadTail(h) => Checking(h)
    case DGot(h, x) => Got(h, x)
    case DEmpty => Empty
    case _ => Visiting(pc.Ticket())
  }

  function Abs(s: State): Ring {
    Ring(R, s.head, s.tail, s.closed, s.ledger, map b <- s.threads :: AbsPc(s.threads[b]))
  }

  // ---- The invariant, one cell at a time ----

  /** Stamps of a cell never recur: they grow by epoch, and within an epoch from safe to unsafe. */
  predicate StampLe(a: Stamp, b: Stamp) {
    a.epoch < b.epoch || (a.epoch == b.epoch && (a.safe || !b.safe))
  }

  /** t is later than every retired ticket of its cell whose round is still to come. */
  ghost predicate LaterThanRetired(retired: set<nat>, t: nat, epoch: nat) {
    forall u <- retired :: Slot(u) == Slot(t) && epoch < Cycle(u) ==> u < t
  }

  /** What thread b at pc knows about its cell c. */
  ghost predicate Knows(c: Cell, retired: set<nat>, b: Tid, pc: Pc) {
    match pc
    case EReadValue(_, _, t, r) => StampLe(r, c.stamp)
    case EReadHead(_, _, t, r, v) =>
      && StampLe(r, c.stamp) && r.epoch < Cycle(t) && !v.Full? && !r.safe
      && (r == c.stamp ==> !c.value.Full?)
    case EPlaceToken(_, _, t, r, v) =>
      && StampLe(r, c.stamp) && r.epoch < Cycle(t) && !v.Full?
      && (!r.safe && r == c.stamp ==> !c.value.Full? && LaterThanRetired(retired, t, r.epoch))
    case EStamp(_, _, t, r) =>
      && StampLe(r, c.stamp) && r.epoch < Cycle(t)
      && (r == c.stamp ==> !c.value.Full?)
      && (!r.safe && r == c.stamp ==> LaterThanRetired(retired, t, r.epoch))
    case EDeposit(_, _, t) =>
      c.value == Token(b) ==> c.stamp == Stamp(true, Cycle(t)) && t !in retired
    case DReadValue(h, r) => StampLe(r, c.stamp)
    case DConfirm(h, r, v) =>
      && StampLe(r, c.stamp)
      && (v.Null? && r == c.stamp ==> !c.value.Full?)
      && (v.Full? && r.epoch == c.stamp.epoch == Cycle(h) ==> c.value == v)
    case DClear(h, x) => c.stamp.epoch == Cycle(h) && c.value == Full(x)
    case DKillToken(h, r, v) => StampLe(r, c.stamp) && r.epoch <= Cycle(h) && v.Token?
    case DAdvance(h, r) =>
      && StampLe(r, c.stamp) && r.epoch <= Cycle(h)
      && (r == c.stamp ==> !c.value.Full?)
    case DMarkUnsafe(h, r) => StampLe(r, c.stamp) && r.epoch < Cycle(h)
    case _ => true
  }

  /**
   * Enqueuer a has seen the cell unsafe and passed its head check; dequeuer d saw an item under the
   * same stamp and may still retire its ticket without changing the stamp. Then d came before a.
   */
  predicate UnsafeOk(c: Cell, a: Pc, d: Pc) {
    && (a.EPlaceToken? || a.EStamp?) && a.r == c.stamp && !a.r.safe
    && (d.DMarkUnsafe? || (d.DConfirm? && d.v.Full?)) && d.r == c.stamp
    ==> d.h < a.t
  }

  /** While b's token stands under b's own stamp, no other thread is about to move that stamp. */
  predicate StandingOk(c: Cell, b: Tid, pb: Pc, a: Pc) {
    pb.EDeposit? && c.value == Token(b) ==>
      && (a.EStamp? || a.DAdvance? || a.DMarkUnsafe? ==> a.r != c.stamp)
      && (a.DConfirm? || a.DKillToken? ==> a.r == c.stamp ==> a.v == Token(b))
  }

  /** What two threads at the same cell c know about each other. */
  predicate PairOk(c: Cell, a: Tid, pa: Pc, b: Tid, pb: Pc) {
    && UnsafeOk(c, pa, pb) && UnsafeOk(c, pb, pa)
    && StandingOk(c, a, pa, pb) && StandingOk(c, b, pb, pa)
    && (pa.AtDequeue() && pb.AtDequeue() ==> pa.Ticket() != pb.Ticket())
  }

  // ---- One access keeps it ----

  function RetiredAfter(retired: set<nat>, pc: Pc, pc': Pc): set<nat> {
    if pc.AtDequeue() && pc'.DReadTail? then retired + {pc.Ticket()} else retired
  }

  lemma AccessKeepsOwn(c: Cell, retired: set<nat>, me: Tid, pc: Pc)
    requires pc.AtCell() && Knows(c, retired, me, pc)
    requires pc.EStamp? && pc.r.safe && pc.r == c.stamp ==> LaterThanRetired(retired, pc.t, pc.r.epoch)
    ensures var a := CellAccess(c, me, pc);
      Knows(a.cell, RetiredAfter(retired, pc, a.pc), me, a.pc)
  {}

  lemma AccessKeepsOther(c: Cell, retired: set<nat>, me: Tid, pc: Pc, b: Tid, pb: Pc)
    requires pc.AtCell() && me != b && Slot(pc.Ticket()) == Slot(pb.Ticket())
    requires Knows(c, retired, me, pc) && Knows(c, retired, b, pb) && PairOk(c, me, pc, b, pb)
    ensures var a := CellAccess(c, me, pc);
      Knows(a.cell, RetiredAfter(retired, pc, a.pc), b, pb)
  {
    if pc.AtDequeue() && pb.AtDequeue() && Cycle(pc.Ticket()) == Cycle(pb.Ticket()) {
      TicketFromSlotAndCycle(pc.Ticket(), pb.Ticket());
    }
  }

  lemma AccessKeepsUnsafe(c: Cell, retired: set<nat>, me: Tid, pc: Pc, b: Tid, pb: Pc)
    requires pc.AtCell() && me != b
    requires Knows(c, retired, me, pc) && Knows(c, retired, b, pb) && PairOk(c, me, pc, b, pb)
    ensures var a := CellAccess(c, me, pc); UnsafeOk(a.cell, a.pc, pb) && UnsafeOk(a.cell, pb, a.pc)
  {}

  lemma AccessKeepsStanding(c: Cell, retired: set<nat>, me: Tid, pc: Pc, b: Tid, pb: Pc)
    requires pc.AtCell() && me != b
    requires Knows(c, retired, me, pc) && Knows(c, retired, b, pb) && PairOk(c, me, pc, b, pb)
    ensures var a := CellAccess(c, me, pc); StandingOk(a.cell, b, pb, a.pc)
  {}

  lemma AccessStartsStanding(c: Cell, retired: set<nat>, me: Tid, pc: Pc, b: Tid, pb: Pc)
    requires pc.AtCell() && me != b
    requires Knows(c, retired, me, pc) && Knows(c, retired, b, pb) && PairOk(c, me, pc, b, pb)
    ensures var a := CellAccess(c, me, pc); StandingOk(a.cell, me, a.pc, pb)
  {}

  lemma AccessKeepsPair(c: Cell, retired: set<nat>, me: Tid, pc: Pc, b: Tid, pb: Pc)
    requires pc.AtCell() && me != b
    requires Knows(c, retired, me, pc) && Knows(c, retired, b, pb) && PairOk(c, me, pc, b, pb)
    ensures var a := CellAccess(c, me, pc); PairOk(a.cell, me, a.pc, b, pb)
  {
    AccessKeepsUnsafe(c, retired, me, pc, b, pb);
    AccessKeepsStanding(c, retired, me, pc, b, pb);
    AccessStartsStanding(c, retired, me, pc, b, pb);
  }

  lemma AccessKeepsOthers(c: Cell, retired: set<nat>, me: Tid, pc: Pc, a: Tid, pa: Pc, b: Tid, pb: Pc)
    requires pc.AtCell() && me != a && me != b
    requires Knows(c, retired, me, pc) && Knows(c, retired, a, pa) && Knows(c, retired, b, pb)
    requires PairOk(c, me, pc, a, pa) && PairOk(c, me, pc, b, pb) && PairOk(c, a, pa, b, pb)
    ensures PairOk(CellAccess(c, me, pc).cell, a, pa, b, pb)
  {}

  // ---- Cells and ledger agree ----

  /** t holds an item that has not been taken yet. */
  predicate Pending(l: Ledger, t: nat) {
    t in l.deposited && t !in l.taken
  }

  /** Cell i holds exactly the pending item of its tickets, if any, and turns retired tickets away. */
  ghost predicate CellOk(c: Cell, l: Ledger, i: nat) {
    && (forall t :: Pending(l, t) && Slot(t) == i ==>
          c.stamp.epoch == Cycle(t) && c.value == Full(l.deposited[t]))
    && (c.value.Full? ==> exists t :: Pending(l, t) && Slot(t) == i)
    && (forall t <- l.retired :: Slot(t) == i ==> Cycle(t) <= c.stamp.epoch || !c.stamp.safe)
  }

  /** What the abstract ring knows about the ticket of a thread at its cell. */
  predicate TicketOk(l: Ledger, pc: Pc) {
    var t := pc.Ticket();
    && (pc.EDeposit? ==> t !in l.deposited && t !in l.taken)
    && (pc.AtDequeue() ==> t !in l.taken && t !in l.retired)
  }

  /** The item a dequeuer is about to clear was deposited under its own ticket. */
  lemma ClearedItemIsOwn(c: Cell, l: Ledger, me: Tid, pc: Pc)
    requires pc.DClear? && CellOk(c, l, Slot(pc.h)) && Knows(c, l.retired, me, pc)
    ensures Pending(l, pc.h) && l.deposited[pc.h] == pc.x
  {
    var u :| Pending(l, u) && Slot(u) == Slot(pc.h);
    TicketFromSlotAndCycle(u, pc.h);
  }

  /** A dequeuer leaves without an item only if nothing was deposited under its ticket. */
  lemma RetiredHasNoItem(c: Cell, l: Ledger, me: Tid, pc: Pc)
    requires pc.AtDequeue() && CellOk(c, l, Slot(pc.Ticket())) && TicketOk(l, pc)
    requires Knows(c, l.retired, me, pc) && CellAccess(c, me, pc).pc.DReadTail?
    ensures pc.Ticket() !in l.deposited
  {
    assert !Pending(l, pc.Ticket());
  }

  lemma AccessKeepsPending(c: Cell, l: Ledger, me: Tid, pc: Pc, t: nat)
    requires pc.AtCell() && CellOk(c, l, Slot(pc.Ticket())) && TicketOk(l, pc) && Knows(c, l.retired, me, pc)
    requires pc.DClear? ==> Pending(l, pc.h)
    requires Pending(Record(l, pc, CellAccess(c, me, pc).pc), t) && Slot(t) == Slot(pc.Ticket())
    ensures var a := CellAccess(c, me, pc);
      a.cell.stamp.epoch == Cycle(t) && a.cell.value == Full(Record(l, pc, a.pc).deposited[t])
  {
    if Pending(l, t) && pc.DClear? { TicketFromSlotAndCycle(t, pc.h); }
    assert (CellAccess(c, me, pc).pc.EOk? && t == pc.t) || Pending(l, t);
  }

  lemma AccessKeepsFull(c: Cell, l: Ledger, me: Tid, pc: Pc)
    requires pc.AtCell() && CellOk(c, l, Slot(pc.Ticket())) && TicketOk(l, pc)
    requires CellAccess(c, me, pc).cell.value.Full?
    ensures exists t :: Pending(Record(l, pc, CellAccess(c, me, pc).pc), t) && Slot(t) == Slot(pc.Ticket())
  {
    var a := CellAccess(c, me, pc);
    if a.pc.EOk? {
      assert Pending(Record(l, pc, a.pc), pc.t);
    } else {
      var t :| Pending(l, t) && Slot(t) == Slot(pc.Ticket());
      assert Pending(Record(l, pc, a.pc), t);
    }
  }

  lemma AccessKeepsRetired(c: Cell, l: Ledger, me: Tid, pc: Pc, t: nat)
    requires pc.AtCell() && CellOk(c, l, Slot(pc.Ticket())) && Knows(c, l.retired, me, pc)
    requires t in Record(l, pc, CellAccess(c, me, pc).pc).retired && Slot(t) == Slot(pc.Ticket())
    ensures var c' := CellAccess(c, me, pc).cell; Cycle(t) <= c'.stamp.epoch || !c'.stamp.safe
  {}

  lemma AccessKeepsCell(c: Cell, l: Ledger, me: Tid, pc: Pc)
    requires pc.AtCell() && CellOk(c, l, Slot(pc.Ticket())) && TicketOk(l, pc)
    requires Knows(c, l.retired, me, pc)
    ensures var a := CellAccess(c, me, pc); CellOk(a.cell, Record(l, pc, a.pc), Slot(pc.Ticket()))
  {
    var a, i := CellAccess(c, me, pc), Slot(pc.Ticket());
    var c', l' := a.cell, Record(l, pc, a.pc);
    if pc.DClear? { ClearedItemIsOwn(c, l, me, pc); }
    if c'.value.Full? { AccessKeepsFull(c, l, me, pc); }
    forall t | Pending(l', t) && Slot(t) == i
      ensures c'.stamp.epoch == Cycle(t) && c'.value == Full(l'.deposited[t])
    {
      AccessKeepsPending(c, l, me, pc, t);
    }
    forall t <- l'.retired | Slot(t) == i ensures Cycle(t) <= c'.stamp.epoch || !c'.stamp.safe {
      AccessKeepsRetired(c, l, me, pc, t);
    }
  }

  // ---- The whole ring ----

  predicate MayHaveToken(pc: Pc, i: nat) {
    (pc.EStamp? || pc.EWithdraw? || pc.EDeposit?) && Slot(pc.t) == i
  }

  /** A token stands only in the cell of its owner's running attempt, so in one cell at most. */
  ghost predicate TokensOk(s: State) {
    forall i | 0 <= i < |s.cells| :: s.cells[i].value.Token? ==>
      var b := s.cells[i].value.owner;
      b in s.threads && MayHaveToken(s.threads[b], i)
  }

  ghost predicate KnowsAt(s: State, b: Tid, pc: Pc)
    requires WellFormed(s)
  {
    Knows(At(s, pc.Ticket()), s.ledger.retired, b, pc)
  }

  ghost predicate PairAt(s: State, a: Tid, pa: Pc, b: Tid, pb: Pc)
    requires WellFormed(s)
  {
    a != b && Slot(pa.Ticket()) == Slot(pb.Ticket()) ==> PairOk(At(s, pa.Ticket()), a, pa, b, pb)
  }

  ghost predicate CellAt(s: State, i: nat)
    requires WellFormed(s) && i < R
  {
    CellOk(s.cells[i], s.ledger, i)
  }

  ghost predicate Inv(s: State) {
    && WellFormed(s) && Valid(Abs(s)) && TokensOk(s)
    && (forall i | 0 <= i < R :: CellAt(s, i))
    && (forall b <- s.threads :: KnowsAt(s, b, s.threads[b]))
    && (forall a, b :: a in s.threads && b in s.threads ==> PairAt(s, a, s.threads[a], b, s.threads[b]))
  }

  lemma InitInv()
    ensures Inv(Init()) && Abs(Init()) == Fresh(R)
  {
    assert Abs(Init()).threads == map[];
    FreshIsValid(R);
  }

  // ---- Every access refines one step of the ticket ring ----

  lemma TicketFacts(s: State, b: Tid)
    requires Valid(Abs(s)) && b in s.threads
    ensures PhaseOk(Abs(s), AbsPc(s.threads[b])) && LedgerOk(Abs(s))
    ensures s.threads[b].AtCell() ==> TicketOk(s.ledger, s.threads[b])
    ensures s.threads[b].AtDequeue() ==> s.threads[b].Ticket() < s.head
  {
    assert Abs(s).threads[b] == AbsPc(s.threads[b]);
    assert PhaseOk(Abs(s), AbsPc(s.threads[b]));
  }

  lemma AbsNext(s: State, me: Tid)
    requires WellFormed(s) && me in s.threads
    ensures me in Next(s, me).threads
    ensures Next(s, me).threads == s.threads[me := Next(s, me).threads[me]]
    ensures Abs(Next(s, me)).threads == Abs(s).threads[me := AbsPc(Next(s, me).threads[me])]
  {}

  lemma CounterAccessRefines(s: State, me: Tid, pc: Pc)
    requires WellFormed(s) && me in s.threads && pc == s.threads[me] && !pc.AtCell()
    ensures Step(Abs(s), Abs(Next(s, me)), me)
  {
    AbsNext(s, me);
    if CounterAccess(s, me, pc) == s { assert Abs(Next(s, me)) == Abs(s); }
  }

  /** The abstract ring after thread me has gone from pc to pc' at its cell. */
  function RingAfter(r: Ring, me: Tid, pc: Pc, pc': Pc): Ring {
    r.(ledger := Record(r.ledger, pc, pc'), threads := r.threads[me := AbsPc(pc')])
  }

  lemma AbsCellAccess(s: State, me: Tid, pc: Pc)
    requires WellFormed(s) && me in s.threads && pc == s.threads[me] && pc.AtCell()
    ensures Abs(Next(s, me)) == RingAfter(Abs(s), me, pc, CellAccess(At(s, pc.Ticket()), me, pc).pc)
  {
    AbsNext(s, me);
  }

  lemma StaysInPhase(r: Ring, me: Tid, pc: Pc, pc': Pc)
    requires me in r.threads && r.threads[me] == AbsPc(pc) == AbsPc(pc') && Record(r.ledger, pc, pc') == r.ledger
    ensures RingAfter(r, me, pc, pc') == r
  {
    assert r.threads[me := AbsPc(pc')] == r.threads;
  }

  lemma EnqueuerAccessRefines(r: Ring, c: Cell, me: Tid, pc: Pc)
    requires pc.AtCell() && !pc.AtDequeue() && me in r.threads && r.threads[me] == AbsPc(pc)
    requires Knows(c, r.ledger.retired, me, pc) && TicketOk(r.ledger, pc)
    ensures Step(r, RingAfter(r, me, pc, CellAccess(c, me, pc).pc), me)
  {
    var pc' := CellAccess(c, me, pc).pc;
    if AbsPc(pc) == AbsPc(pc') { StaysInPhase(r, me, pc, pc'); }
  }

  lemma RetiringRefines(r: Ring, me: Tid, pc: Pc, pc': Pc)
    requires pc.AtDequeue() && me in r.threads && r.threads[me] == AbsPc(pc)
    requires pc'.DReadTail? && pc'.h == pc.Ticket() && pc.Ticket() !in r.ledger.deposited
    ensures Step(r, RingAfter(r, me, pc, pc'), me)
  {}

  lemma TakingRefines(r: Ring, me: Tid, pc: Pc)
    requires pc.DClear? && me in r.threads && r.threads[me] == AbsPc(pc)
    requires Pending(r.ledger, pc.h) && r.ledger.deposited[pc.h] == pc.x
    ensures Step(r, RingAfter(r, me, pc, DGot(pc.h, pc.x)), me)
  {}

  lemma DequeuerAccessRefines(r: Ring, c: Cell, me: Tid, pc: Pc)
    requires pc.AtDequeue() && me in r.threads && r.threads[me] == AbsPc(pc)
    requires CellOk(c, r.ledger, Slot(pc.Ticket())) && TicketOk(r.ledger, pc) && Knows(c, r.ledger.retired, me, pc)
    ensures Step(r, RingAfter(r, me, pc, CellAccess(c, me, pc).pc), me)
  {
    var pc' := CellAccess(c, me, pc).pc;
    if pc.DClear? {
      ClearedItemIsOwn(c, r.ledger, me, pc);
      TakingRefines(r, me, pc);
    } else if pc'.DReadTail? {
      RetiredHasNoItem(c, r.ledger, me, pc);
      RetiringRefines(r, me, pc, pc');
    } else {
      StaysInPhase(r, me, pc, pc');
    }
  }

  lemma RefinesRing(s: State, me: Tid)
    requires Inv(s)
    ensures Step(Abs(s), Abs(Next(s, me)), me)
  {
    if me in s.threads {
      var pc := s.threads[me];
      TicketFacts(s, me);
      if !pc.AtCell() {
        CounterAccessRefines(s, me, pc);
      } else {
        assert KnowsAt(s, me, pc) && CellAt(s, Slot(pc.Ticket()));
        AbsCellAccess(s, me, pc);
        if pc.AtDequeue() {
          DequeuerAccessRefines(Abs(s), At(s, pc.Ticket()), me, pc);
        } else {
          EnqueuerAccessRefines(Abs(s), At(s, pc.Ticket()), me, pc);
        }
      }
    }
  }

  // ---- Every access keeps the invariant ----

  lemma AccessKeepsTokens(s: State, me: Tid, pc: Pc)
    requires WellFormed(s) && TokensOk(s) && me in s.threads && pc == s.threads[me]
    ensures TokensOk(Next(s, me))
  {
    var s' := Next(s, me);
    var j := Slot(pc.Ticket());
    forall i | 0 <= i < |s'.cells| && s'.cells[i].value.Token?
      ensures var b := s'.cells[i].value.owner; b in s'.threads && MayHaveToken(s'.threads[b], i)
    {
      if pc.AtCell() && i == j {
        AccessKeepsOwnToken(s.cells[j], me, pc);
      } else {
        assert s'.cells[i] == s.cells[i];
      }
    }
  }

  /** A token left in the accessed cell is one that stood there, or `me` is still at work on it. */
  lemma AccessKeepsOwnToken(c: Cell, me: Tid, pc: Pc)
    requires pc.AtCell()
    ensures var a := CellAccess(c, me, pc);
      a.cell.value.Token? ==>
        (a.cell.value == c.value && a.cell.value.owner != me) || MayHaveToken(a.pc, Slot(pc.Ticket()))
        || (a.cell.value == c.value && !MayHaveToken(pc, Slot(pc.Ticket())))
  {}

  lemma AccessKeepsCells(s: State, me: Tid, pc: Pc, i: nat)
    requires Inv(s) && me in s.threads && pc == s.threads[me] && i < R
    ensures CellAt(Next(s, me), i)
  {
    assert CellAt(s, i);
    if pc.AtCell() {
      TicketFacts(s, me);
      assert KnowsAt(s, me, pc);
      var a := CellAccess(At(s, pc.Ticket()), me, pc);
      if i == Slot(pc.Ticket()) {
        AccessKeepsCell(s.cells[i], s.ledger, me, pc);
      } else {
        OtherCellKept(s.cells[i], s.ledger, pc, a.pc, i);
      }
    }
  }

  /** Only the ticket worked on changes its standing in the ledger. */
  lemma OtherTicketKept(l: Ledger, pc: Pc, pc': Pc, t: nat)
    requires Slot(t) != Slot(pc.Ticket())
    ensures Pending(Record(l, pc, pc'), t) <==> Pending(l, t)
    ensures Pending(l, t) ==> Record(l, pc, pc').deposited[t] == l.deposited[t]
    ensures t in Record(l, pc, pc').retired <==> t in l.retired
  {}

  lemma OtherCellKept(c: Cell, l: Ledger, pc: Pc, pc': Pc, i: nat)
    requires CellOk(c, l, i) && i != Slot(pc.Ticket())
    ensures CellOk(c, Record(l, pc, pc'), i)
  {
    var l' := Record(l, pc, pc');
    if c.value.Full? {
      var t :| Pending(l, t) && Slot(t) == i;
      OtherTicketKept(l, pc, pc', t);
    }
    forall t | Slot(t) == i
      ensures Pending(l', t) <==> Pending(l, t)
      ensures Pending(l, t) ==> l'.deposited[t] == l.deposited[t]
      ensures t in l'.retired <==> t in l.retired
    {
      OtherTicketKept(l, pc, pc', t);
    }
  }

  lemma AccessKeepsOwnKnowledge(s: State, me: Tid, pc: Pc)
    requires WellFormed(s) && me in s.threads && pc == s.threads[me] && pc.AtCell()
    requires KnowsAt(s, me, pc) && CellAt(s, Slot(pc.Ticket()))
    ensures KnowsAt(Next(s, me), me, Next(s, me).threads[me])
  {
    var c := At(s, pc.Ticket());
    AccessKeepsOwn(c, s.ledger.retired, me, pc);
  }

  lemma DistantKnowledgeKept(c: Cell, l: Ledger, pc: Pc, pc': Pc, b: Tid, pb: Pc)
    requires Knows(c, l.retired, b, pb) && Slot(pb.Ticket()) != Slot(pc.Ticket())
    ensures Knows(c, RetiredAfter(l.retired, pc, pc'), b, pb)
  {}

  /** The cell of ticket t after me's access, and the retired tickets. */
  lemma CellAfter(s: State, me: Tid, pc: Pc, t: nat)
    requires WellFormed(s) && me in s.threads && pc == s.threads[me] && pc.AtCell()
    ensures At(Next(s, me), t) ==
      if Slot(t) == Slot(pc.Ticket()) then CellAccess(At(s, t), me, pc).cell else At(s, t)
    ensures Next(s, me).ledger.retired ==
      RetiredAfter(s.ledger.retired, pc, CellAccess(At(s, pc.Ticket()), me, pc).pc)
  {}

  lemma AccessKeepsKnowledge(s: State, me: Tid, pc: Pc, b: Tid, pb: Pc)
    requires WellFormed(s) && me in s.threads && pc == s.threads[me] && pc.AtCell() && me != b
    requires KnowsAt(s, me, pc) && KnowsAt(s, b, pb) && PairAt(s, me, pc, b, pb)
    ensures KnowsAt(Next(s, me), b, pb)
  {
    var c := At(s, pc.Ticket());
    CellAfter(s, me, pc, pb.Ticket());
    if Slot(pb.Ticket()) == Slot(pc.Ticket()) {
      AccessKeepsOther(c, s.ledger.retired, me, pc, b, pb);
    } else {
      DistantKnowledgeKept(At(s, pb.Ticket()), s.ledger, pc, CellAccess(c, me, pc).pc, b, pb);
    }
  }

  lemma AccessKeepsPairs(s: State, me: Tid, pc: Pc, a: Tid, pa: Pc, b: Tid, pb: Pc)
    requires WellFormed(s) && me in s.threads && pc == s.threads[me] && pc.AtCell() && me != a && me != b
    requires KnowsAt(s, me, pc) && KnowsAt(s, a, pa) && KnowsAt(s, b, pb)
    requires PairAt(s, me, pc, a, pa) && PairAt(s, me, pc, b, pb) && PairAt(s, a, pa, b, pb)
    ensures PairAt(Next(s, me), a, pa, b, pb)
  {
    if a != b && Slot(pa.Ticket()) == Slot(pb.Ticket()) == Slot(pc.Ticket()) {
      AccessKeepsOthers(At(s, pc.Ticket()), s.ledger.retired, me, pc, a, pa, b, pb);
    }
  }

  lemma AccessKeepsMyPairs(s: State, me: Tid, pc: Pc, b: Tid, pb: Pc)
    requires WellFormed(s) && me in s.threads && pc == s.threads[me] && pc.AtCell() && me != b
    requires KnowsAt(s, me, pc) && KnowsAt(s, b, pb) && PairAt(s, me, pc, b, pb)
    ensures PairAt(Next(s, me), me, Next(s, me).threads[me], b, pb)
    ensures PairAt(Next(s, me), b, pb, me, Next(s, me).threads[me])
  {
    var c := At(s, pc.Ticket());
    var pc' := CellAccess(c, me, pc).pc;
    if Slot(pb.Ticket()) == Slot(pc.Ticket()) {
      AccessKeepsPair(c, s.ledger.retired, me, pc, b, pb);
    }
  }

  lemma CounterAccessKeepsKnowledge(s: State, me: Tid, pc: Pc)
    requires Inv(s) && me in s.threads && pc == s.threads[me] && !pc.AtCell()
    ensures KnowsAt(Next(s, me), me, Next(s, me).threads[me])
  {
    assert KnowsAt(s, me, pc);
    TicketFacts(s, me);
  }

  /** An access to head or tail leads to a program counter that says nothing about the cell yet. */
  lemma CounterAccessPair(s: State, me: Tid, pc: Pc, c: Cell, b: Tid, pb: Pc)
    requires WellFormed(s) && me in s.threads && pc == s.threads[me] && !pc.AtCell()
    requires Knows(c, s.ledger.retired, me, pc) && (pb.AtDequeue() ==> pb.Ticket() < s.head)
    requires pc.EReadHead? || pc.DDraw?
    ensures PairOk(c, me, Next(s, me).threads[me], b, pb)
  {}

  lemma IdlePair(c: Cell, a: Tid, pa: Pc, b: Tid, pb: Pc)
    requires !pa.AtCell() || pa.EReadStamp?
    ensures PairOk(c, a, pa, b, pb)
  {}

  lemma PairIsSymmetric(c: Cell, a: Tid, pa: Pc, b: Tid, pb: Pc)
    requires PairOk(c, a, pa, b, pb)
    ensures PairOk(c, b, pb, a, pa)
  {}

  lemma CounterAccessKeepsPairs(s: State, me: Tid, pc: Pc, b: Tid, pb: Pc)
    requires WellFormed(s) && me in s.threads && pc == s.threads[me] && !pc.AtCell()
    requires me != b && KnowsAt(s, me, pc) && (pb.AtDequeue() ==> pb.Ticket() < s.head)
    ensures PairAt(Next(s, me), me, Next(s, me).threads[me], b, pb)
    ensures PairAt(Next(s, me), b, pb, me, Next(s, me).threads[me])
  {
    var pc' := Next(s, me).threads[me];
    var c := At(s, pc'.Ticket());
    if pc.EReadHead? || pc.DDraw? {
      CounterAccessPair(s, me, pc, c, b, pb);
    } else {
      IdlePair(c, me, pc', b, pb);
    }
    PairIsSymmetric(c, me, pc', b, pb);
  }

  lemma NextKeepsKnowledge(s: State, me: Tid, b: Tid)
    requires Inv(s) && me in s.threads && b in s.threads
    ensures KnowsAt(Next(s, me), b, Next(s, me).threads[b])
  {
    var pc, pb := s.threads[me], s.threads[b];
    assert KnowsAt(s, me, pc) && KnowsAt(s, b, pb) && PairAt(s, me, pc, b, pb);
    assert CellAt(s, Slot(pc.Ticket()));
    AbsNext(s, me);
    if !pc.AtCell() {
      if b == me { CounterAccessKeepsKnowledge(s, me, pc); }
    } else if b == me {
      AccessKeepsOwnKnowledge(s, me, pc);
    } else {
      AccessKeepsKnowledge(s, me, pc, b, pb);
    }
  }

  lemma NextKeepsMyPairs(s: State, me: Tid, b: Tid)
    requires Inv(s) && me in s.threads && b in s.threads && b != me
    ensures PairAt(Next(s, me), me, Next(s, me).threads[me], b, s.threads[b])
    ensures PairAt(Next(s, me), b, s.threads[b], me, Next(s, me).threads[me])
  {
    var pc, pb := s.threads[me], s.threads[b];
    assert KnowsAt(s, me, pc) && KnowsAt(s, b, pb) && PairAt(s, me, pc, b, pb);
    if pc.AtCell() {
      AccessKeepsMyPairs(s, me, pc, b, pb);
    } else {
      TicketFacts(s, b);
      CounterAccessKeepsPairs(s, me, pc, b, pb);
    }
  }

  lemma CounterAccessLeavesCells(s: State, me: Tid)
    requires WellFormed(s) && me in s.threads && !s.threads[me].AtCell()
    ensures Next(s, me).cells == s.cells
  {}

  lemma NextKeepsOtherPairs(s: State, me: Tid, a: Tid, b: Tid)
    requires Inv(s) && me in s.threads && a in s.threads && b in s.threads && a != me && b != me
    ensures PairAt(Next(s, me), a, s.threads[a], b, s.threads[b])
  {
    var pc, pa, pb := s.threads[me], s.threads[a], s.threads[b];
    assert PairAt(s, me, pc, a, pa) && PairAt(s, me, pc, b, pb) && PairAt(s, a, pa, b, pb);
    assert KnowsAt(s, me, pc) && KnowsAt(s, a, pa) && KnowsAt(s, b, pb);
    if pc.AtCell() {
      AccessKeepsPairs(s, me, pc, a, pa, b, pb);
    } else {
      CounterAccessLeavesCells(s, me);
    }
  }

  lemma NextKeepsPairs(s: State, me: Tid, a: Tid, b: Tid)
    requires Inv(s) && me in s.threads && a in s.threads && b in s.threads
    ensures PairAt(Next(s, me), a, Next(s, me).threads[a], b, Next(s, me).threads[b])
  {
    AbsNext(s, me);
    if a == b {
    } else if a == me {
      NextKeepsMyPairs(s, me, b);
    } else if b == me {
      NextKeepsMyPairs(s, me, a);
    } else {
      NextKeepsOtherPairs(s, me, a, b);
    }
  }

  lemma NextKeepsInv(s: State, me: Tid)
    requires Inv(s)
    ensures Inv(Next(s, me))
  {
    if me in s.threads {
      var s' := Next(s, me);
      RefinesRing(s, me);
      StepKeepsValid(Abs(s), Abs(s'), me);
      AccessKeepsTokens(s, me, s.threads[me]);
      AbsNext(s, me);
      forall i | 0 <= i < R ensures CellAt(s', i) {
        AccessKeepsCells(s, me, s.threads[me], i);
      }
      forall b <- s'.threads ensures KnowsAt(s', b, s'.threads[b]) {
        NextKeepsKnowledge(s, me, b);
      }
      forall a, b | a in s'.threads && b in s'.threads
        ensures PairAt(s', a, s'.threads[a], b, s'.threads[b])
      {
        NextKeepsPairs(s, me, a, b);
      }
    }
  }

  // ---- Every run ----

  predicate IsIdle(s: State, me: Tid) {
    me in s.threads ==> Answered(AbsPc(s.threads[me]))
  }

  function Begin(s: State, me: Tid, call: Call): State {
    s.(threads := s.threads[me := match call case Enqueue(x) => EDraw(x, 0) case Dequeue => DDraw])
  }

  lemma BeginRefines(s: State, me: Tid, call: Call)
    requires WellFormed(s) && IsIdle(s, me)
    ensures Idle(Abs(s), me) && Abs(Begin(s, me, call)) == Start(Abs(s), me, call)
  {
    assert Abs(Begin(s, me, call)).threads == Start(Abs(s), me, call).threads;
  }

  lemma BeginKeepsTokens(s: State, me: Tid, call: Call)
    requires WellFormed(s) && IsIdle(s, me) && TokensOk(s)
    ensures TokensOk(Begin(s, me, call))
  {}

  lemma BeginKeepsPairs(s: State, me: Tid, call: Call, b: Tid)
    requires WellFormed(s) && b in s.threads && b != me
    ensures var s' := Begin(s, me, call);
      PairAt(s', me, s'.threads[me], b, s.threads[b]) && PairAt(s', b, s.threads[b], me, s'.threads[me])
  {
    var pc := Begin(s, me, call).threads[me];
    var c := At(s, pc.Ticket());
    IdlePair(c, me, pc, b, s.threads[b]);
    PairIsSymmetric(c, me, pc, b, s.threads[b]);
  }

  lemma BeginKeepsInv(s: State, me: Tid, call: Call)
    requires Inv(s) && IsIdle(s, me)
    ensures Inv(Begin(s, me, call))
  {
    var s' := Begin(s, me, call);
    BeginRefines(s, me, call);
    StartKeepsValid(Abs(s), me, call);
    BeginKeepsTokens(s, me, call);
    forall i | 0 <= i < R ensures CellAt(s', i) {
      assert CellAt(s, i);
    }
    forall b <- s'.threads ensures KnowsAt(s', b, s'.threads[b]) {
      if b != me { assert KnowsAt(s, b, s.threads[b]); }
    }
    forall a, b | a in s'.threads && b in s'.threads
      ensures PairAt(s', a, s'.threads[a], b, s'.threads[b])
    {
      if a != me && b != me {
        assert PairAt(s, a, s.threads[a], b, s.threads[b]);
      } else if a != b {
        BeginKeepsPairs(s, me, call, if a == me then b else a);
      }
    }
  }

  /** A schedule: which thread begins a call, or performs its next access, in which order. */
  datatype Act = Invoke(me: Tid, call: Call) | Go(me: Tid)

  function Perform(s: State, act: Act): (s': State)
    requires WellFormed(s)
    ensures WellFormed(s')
  {
    match act
    case Invoke(me, call) => if IsIdle(s, me) then Begin(s, me, call) else s
    case Go(me) => Next(s, me)
  }

  function Run(schedule: seq<Act>): (s: State)
    ensures WellFormed(s)
  {
    if schedule == [] then Init()
    else Perform(Run(schedule[..|schedule| - 1]), schedule[|schedule| - 1])
  }

  lemma {:induction false} EveryRunKeepsInv(schedule: seq<Act>)
    ensures Inv(Run(schedule))
  {
    if schedule == [] {
      InitInv();
    } else {
      var before := schedule[..|schedule| - 1];
      EveryRunKeepsInv(before);
      match schedule[|schedule| - 1]
      case Invoke(me, call) => if IsIdle(Run(before), me) { BeginKeepsInv(Run(before), me, call); }
      case Go(me) => NextKeepsInv(Run(before), me);
    }
  }

  // ---- A fresh ring takes its first item ----

  /** A ring in which `me` has enqueued x before anybody else could see it. */
  function FreshWith(me: Tid, x: Item): State {
    var i := Init();
    State(R, R + 1, false, i.cells[Slot(R) := Cell(Stamp(true, Cycle(R)), Full(x))],
          map[me := EOk(x, R)], Ledger(map[R := x], {}, {}))
  }

  /** n accesses of `me` with nobody else running. */
  function Alone(s: State, me: Tid, n: nat): (s': State)
    requires WellFormed(s)
    ensures WellFormed(s')
  {
    if n == 0 then s else Next(Alone(s, me, n - 1), me)
  }

  lemma {:induction false} AloneKeepsInv(s: State, me: Tid, n: nat)
    requires Inv(s)
    ensures Inv(Alone(s, me, n))
  {
    if n != 0 {
      AloneKeepsInv(s, me, n - 1);
      NextKeepsInv(Alone(s, me, n - 1), me);
    }
  }

  /** The first three accesses only read. */
  lemma FreshEnqueueReads(me: Tid, x: Item)
    ensures Alone(Begin(Init(), me, Enqueue(x)), me, 3) ==
      State(R, R + 1, false, Init().cells, map[me := EPlaceToken(x, 0, R, Stamp(true, 0), Null)], Blank)
  {
    NextRound(0);
    var c0 := Init().cells;
    var s0 := Begin(Init(), me, Enqueue(x));
    assert Alone(s0, me, 1) == State(R, R + 1, false, c0, map[me := EReadStamp(x, 0, R)], Blank);
    assert Alone(s0, me, 2) == State(R, R + 1, false, c0, map[me := EReadValue(x, 0, R, Stamp(true, 0))], Blank);
  }

  /** `newprq->enqueue(x)` never answers CLOSED: six accesses alone deposit x under ticket R. */
  lemma FreshEnqueueSucceeds(me: Tid, x: Item)
    ensures Alone(Begin(Init(), me, Enqueue(x)), me, 6) == FreshWith(me, x)
  {
    NextRound(0);
    FreshEnqueueReads(me, x);
    var c0 := Init().cells;
    var c1 := c0[Slot(R) := Cell(Stamp(true, 0), Token(me))];
    var c2 := c0[Slot(R) := Cell(Stamp(true, 1), Token(me))];
    assert c2 == c1[Slot(R) := Cell(Stamp(true, 1), Token(me))];
    assert FreshWith(me, x).cells == c2[Slot(R) := Cell(Stamp(true, 1), Full(x))];
    var s0 := Begin(Init(), me, Enqueue(x));
    assert Alone(s0, me, 4) == State(R, R + 1, false, c1, map[me := EStamp(x, 0, R, Stamp(true, 0))], Blank);
    assert Alone(s0, me, 5) == State(R, R + 1, false, c2, map[me := EDeposit(x, 0, R)], Blank);
  }

  lemma FreshWithAbs(me: Tid, x: Item)
    ensures Abs(FreshWith(me, x)) ==
      Ring(R, R, R + 1, false, Ledger(map[R := x], {}, {}), map[me := Accepted(x, R)])
  {
    assert Abs(FreshWith(me, x)).threads == map[me := Accepted(x, R)];
  }

  lemma FreshWithInv(me: Tid, x: Item)
    ensures Inv(FreshWith(me, x))
  {
    InitInv();
    BeginKeepsInv(Init(), me, Enqueue(x));
    AloneKeepsInv(Begin(Init(), me, Enqueue(x)), me, 6);
    FreshEnqueueSucceeds(me, x);
  }
}
