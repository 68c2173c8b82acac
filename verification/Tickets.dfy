/** The ring buffer's geometry: ticket t is served by cell t % R in round t / R. */
module RingGeometry {
  type Positive = n: nat | 0 < n witness 1

  /** The number of cells. It has no value here, so everything proved holds for every ring size. */
  const R: Positive

  function Slot(t: nat): nat { t % R }

  function Cycle(t: nat): nat { t / R }

  lemma TicketFromSlotAndCycle(t: nat, u: nat)
    requires Slot(t) == Slot(u) && Cycle(t) == Cycle(u)
    ensures t == u
  {}

  lemma {:induction false} MulMonotone(a: nat, b: nat)
    requires a <= b
    ensures R * a <= R * b
    decreases b
  {
    if a < b {
      MulMonotone(a, b - 1);
      assert R * b == R * (b - 1) + R;
    }
  }

  lemma MulOrder(a: nat, b: nat)
    requires R * a < R * b
    ensures a < b && R * a + R <= R * b
  {
    if b <= a {
      MulMonotone(b, a);
      assert false;
    }
    MulMonotone(a + 1, b);
    assert R * (a + 1) == R * a + R;
  }

  lemma NextRound(t: nat)
    ensures Slot(t + R) == Slot(t) && Cycle(t + R) == Cycle(t) + 1
  {
    var u := t + R;
    assert u == R * Cycle(u) + Slot(u);
    assert R * (Cycle(t) + 1) == R * Cycle(t) + R;
    assert R * (Cycle(t) + 2) == R * Cycle(t) + 2 * R;
    assert R * (Cycle(u) + 1) == R * Cycle(u) + R;
    MulOrder(Cycle(t) + 1, Cycle(u) + 1);
    MulOrder(Cycle(u), Cycle(t) + 2);
  }
}

/**
 * The abstract ring that CRQ and PRQ both refine: a ledger of tickets.
 *
 * Enqueuers and dequeuers draw tickets. The item deposited under ticket t may be taken by the
 * dequeuer that drew ticket t and by nobody else; a dequeuer that leaves without an item retires
 * its ticket, and nothing may be deposited under a retired ticket.
 */
module TicketRing {
  type Tid = nat
  type Item = nat

  datatype Ledger = Ledger(deposited: map<nat, Item>, taken: set<nat>, retired: set<nat>)

  datatype Phase =
    | Enqueueing(x: Item)        // holds no ticket: about to draw one, or to close the ring
    | Holding(x: Item, t: nat)   // may still deposit x under ticket t
    | Accepted(x: Item, t: nat)  // enqueue answered OK
    | Refused(x: Item)           // enqueue answered CLOSED
    | Dequeueing                 // about to draw a ticket
    | Visiting(h: nat)           // at the cell of ticket h
    | Checking(h: nat)           // retired h, about to compare it with the tail
    | Repairing                  // saw an empty ring, may still raise the tail to the head
    | Got(h: nat, x: Item)       // dequeue answered with an item
    | Empty                      // dequeue answered EMPTY
  {
    function Ticket(): nat {
      match this
      case Holding(_, t) => t
      case Accepted(_, t) => t
      case Visiting(h) => h
      case Checking(h) => h
      case Got(h, _) => h
      case _ => 0
    }
  }

  datatype Ring = Ring(
    first: nat, head: nat, tail: nat, closed: bool, ledger: Ledger, threads: map<Tid, Phase>)

  const Blank := Ledger(map[], {}, {})

  function Fresh(first: nat): Ring {
    Ring(first, first, first, false, Blank, map[])
  }

  // ---- The steps thread `me` may take ----

  ghost predicate EnqueuingStep(s: Ring, s': Ring, me: Tid, x: Item) {
    || s' == s
    || (s.closed && s' == s.(tail := s.tail + 1, threads := s.threads[me := Refused(x)]))
    || (!s.closed && s' == s.(tail := s.tail + 1, threads := s.threads[me := Holding(x, s.tail)]))
    || s' == s.(closed := true, threads := s.threads[me := Refused(x)])
  }

  ghost predicate HoldingStep(s: Ring, s': Ring, me: Tid, x: Item, t: nat) {
    || s' == s
    || s' == s.(threads := s.threads[me := Enqueueing(x)])
    || (t !in s.ledger.deposited && t !in s.ledger.retired && DepositStep(s, s', me, x, t))
  }

  ghost predicate DepositStep(s: Ring, s': Ring, me: Tid, x: Item, t: nat) {
    s' == s.(ledger := s.ledger.(deposited := s.ledger.deposited[t := x]),
             threads := s.threads[me := Accepted(x, t)])
  }

  ghost predicate VisitingStep(s: Ring, s': Ring, me: Tid, h: nat) {
    || s' == s
    || (&& h in s.ledger.deposited && h !in s.ledger.taken
        && s' == s.(ledger := s.ledger.(taken := s.ledger.taken + {h}),
                    threads := s.threads[me := Got(h, s.ledger.deposited[h])]))
    || (h !in s.ledger.deposited && RetireStep(s, s', me, h))
  }

  ghost predicate RetireStep(s: Ring, s': Ring, me: Tid, h: nat) {
    s' == s.(ledger := s.ledger.(retired := s.ledger.retired + {h}),
             threads := s.threads[me := Checking(h)])
  }

  ghost predicate CheckingStep(s: Ring, s': Ring, me: Tid, h: nat) {
    || s' == s
    || (s.tail <= h + 1 && s' == s.(threads := s.threads[me := Empty]))
    || (s.tail <= h + 1 && s' == s.(threads := s.threads[me := Repairing]))
    || (h + 1 < s.tail && s' == s.(threads := s.threads[me := Dequeueing]))
  }

  ghost predicate RepairingStep(s: Ring, s': Ring, me: Tid) {
    || s' == s
    || (&& s.tail <= s'.tail && (s'.tail == s.tail || s'.tail <= s.head)
        && s' == s.(tail := s'.tail, threads := s.threads[me := Empty]))
  }

  ghost predicate Step(s: Ring, s': Ring, me: Tid) {
    if me !in s.threads then s' == s else
    match s.threads[me]
    case Enqueueing(x) => EnqueuingStep(s, s', me, x)
    case Holding(x, t) => HoldingStep(s, s', me, x, t)
    case Dequeueing =>
      s' == s || s' == s.(head := s.head + 1, threads := s.threads[me := Visiting(s.head)])
    case Visiting(h) => VisitingStep(s, s', me, h)
    case Checking(h) => CheckingStep(s, s', me, h)
    case Repairing => RepairingStep(s, s', me)
    case _ => s' == s
  }

  // ---- Invocations ----

  datatype Call = Enqueue(x: Item) | Dequeue

  predicate Answered(p: Phase) {
    p.Accepted? || p.Refused? || p.Got? || p.Empty?
  }

  predicate Idle(s: Ring, me: Tid) {
    me in s.threads ==> Answered(s.threads[me])
  }

  function Start(s: Ring, me: Tid, call: Call): Ring {
    s.(threads := s.threads[me := match call case Enqueue(x) => Enqueueing(x) case Dequeue => Dequeueing])
  }

  // ---- What every reachable ring keeps ----

  predicate HoldsTicket(s: Ring, b: Tid, t: nat) {
    b in s.threads && s.threads[b].Holding? && s.threads[b].t == t
  }

  predicate Visits(s: Ring, b: Tid, h: nat) {
    b in s.threads && s.threads[b] == Visiting(h)
  }

  /** b's enqueue was answered OK for ticket t, or its dequeue got the item of ticket t. */
  predicate HasAnswer(s: Ring, b: Tid, enqueue: bool, t: nat) {
    && b in s.threads
    && (if enqueue then s.threads[b].Accepted? && s.threads[b].t == t
        else s.threads[b].Got? && s.threads[b].h == t)
  }

  ghost predicate LedgerOk(s: Ring) {
    && s.first <= s.head && s.first <= s.tail
    && (forall t <- s.ledger.deposited :: s.first <= t < s.tail)
    && (forall t <- s.ledger.taken :: t in s.ledger.deposited && s.first <= t < s.head)
    && (forall t <- s.ledger.retired :: t !in s.ledger.deposited && s.first <= t < s.head)
  }

  ghost predicate PhaseOk(s: Ring, p: Phase) {
    match p
    case Holding(_, t) => s.first <= t < s.tail && t !in s.ledger.deposited
    case Accepted(x, t) => t in s.ledger.deposited && s.ledger.deposited[t] == x
    case Refused(_) => s.closed
    case Visiting(h) => s.first <= h < s.head && h !in s.ledger.taken && h !in s.ledger.retired
    case Checking(h) => h in s.ledger.retired
    case Got(h, x) => h in s.ledger.taken && h in s.ledger.deposited && s.ledger.deposited[h] == x
    case _ => true
  }

  ghost predicate Valid(s: Ring) {
    && LedgerOk(s)
    && (forall b <- s.threads :: PhaseOk(s, s.threads[b]))
    && (forall a, b, t :: HoldsTicket(s, a, t) && HoldsTicket(s, b, t) ==> a == b)
    && (forall a, b, h :: Visits(s, a, h) && Visits(s, b, h) ==> a == b)
    && (forall a, b, e, t :: HasAnswer(s, a, e, t) && HasAnswer(s, b, e, t) ==> a == b)
    && (forall h :: s.first <= h < s.head ==>
          h in s.ledger.taken || h in s.ledger.retired || exists b :: Visits(s, b, h))
  }

  lemma FreshIsValid(first: nat)
    ensures Valid(Fresh(first))
  {}

  lemma StepKeepsLedger(s: Ring, s': Ring, me: Tid)
    requires Valid(s) && Step(s, s', me)
    ensures LedgerOk(s')
  {}

  lemma StepKeepsOwnPhase(s: Ring, s': Ring, me: Tid)
    requires LedgerOk(s) && Step(s, s', me) && me in s.threads && PhaseOk(s, s.threads[me])
    ensures me in s'.threads && PhaseOk(s', s'.threads[me])
  {}

  lemma StepKeepsOtherPhase(s: Ring, s': Ring, me: Tid, p: Phase)
    requires LedgerOk(s) && Step(s, s', me) && PhaseOk(s, p)
    requires p.Holding? ==> !HoldsTicket(s, me, p.t)
    requires p.Visiting? ==> !Visits(s, me, p.h)
    ensures PhaseOk(s', p)
  {}

  lemma StepKeepsPhase(s: Ring, s': Ring, me: Tid, b: Tid)
    requires Valid(s) && Step(s, s', me) && b in s'.threads
    ensures PhaseOk(s', s'.threads[b])
  {
    assert b in s.threads && PhaseOk(s, s.threads[b]);
    if b == me {
      StepKeepsOwnPhase(s, s', me);
    } else {
      assert s.threads[b].Holding? ==> HoldsTicket(s, b, s.threads[b].t);
      assert s.threads[b].Visiting? ==> Visits(s, b, s.threads[b].h);
      StepKeepsOtherPhase(s, s', me, s.threads[b]);
    }
  }

  lemma StepKeepsTicketsApart(s: Ring, s': Ring, me: Tid, a: Tid, b: Tid, t: nat)
    requires Valid(s) && Step(s, s', me)
    ensures HoldsTicket(s', a, t) && HoldsTicket(s', b, t) ==> a == b
    ensures Visits(s', a, t) && Visits(s', b, t) ==> a == b
  {
    assert HoldsTicket(s', a, t) ==> HoldsTicket(s, a, t) || (a == me && t == s.tail);
    assert HoldsTicket(s', b, t) ==> HoldsTicket(s, b, t) || (b == me && t == s.tail);
    assert Visits(s', a, t) ==> Visits(s, a, t) || (a == me && t == s.head);
    assert Visits(s', b, t) ==> Visits(s, b, t) || (b == me && t == s.head);
  }

  lemma StepKeepsAnswersApart(s: Ring, s': Ring, me: Tid, a: Tid, b: Tid, e: bool, t: nat)
    requires Valid(s) && Step(s, s', me)
    ensures HasAnswer(s', a, e, t) && HasAnswer(s', b, e, t) ==> a == b
  {
    assert HasAnswer(s', a, e, t) ==> HasAnswer(s, a, e, t) || (a == me && NewAnswer(s, e, t));
    assert HasAnswer(s', b, e, t) ==> HasAnswer(s, b, e, t) || (b == me && NewAnswer(s, e, t));
    assert forall c :: HasAnswer(s, c, e, t) ==> PhaseOk(s, s.threads[c]) && !NewAnswer(s, e, t);
  }

  predicate NewAnswer(s: Ring, e: bool, t: nat) {
    if e then t !in s.ledger.deposited else t !in s.ledger.taken
  }

  lemma StepKeepsAccount(s: Ring, s': Ring, me: Tid, h: nat)
    requires Valid(s) && Step(s, s', me) && s'.first <= h < s'.head
    ensures h in s'.ledger.taken || h in s'.ledger.retired || exists b :: Visits(s', b, h)
  {
    if h == s.head {
      assert Visits(s', me, h);
    } else if h !in s.ledger.taken && h !in s.ledger.retired {
      var b :| Visits(s, b, h);
      assert Visits(s', b, h) || h in s'.ledger.taken || h in s'.ledger.retired;
    }
  }

  lemma StepKeepsValid(s: Ring, s': Ring, me: Tid)
    requires Valid(s) && Step(s, s', me)
    ensures Valid(s')
  {
    StepKeepsLedger(s, s', me);
    forall b <- s'.threads ensures PhaseOk(s', s'.threads[b]) {
      StepKeepsPhase(s, s', me, b);
    }
    forall a, b, t ensures HoldsTicket(s', a, t) && HoldsTicket(s', b, t) ==> a == b
    {
      StepKeepsTicketsApart(s, s', me, a, b, t);
    }
    forall a, b, h ensures Visits(s', a, h) && Visits(s', b, h) ==> a == b {
      StepKeepsTicketsApart(s, s', me, a, b, h);
    }
    forall a, b, e, t ensures HasAnswer(s', a, e, t) && HasAnswer(s', b, e, t) ==> a == b {
      StepKeepsAnswersApart(s, s', me, a, b, e, t);
    }
    forall h | s'.first <= h < s'.head
      ensures h in s'.ledger.taken || h in s'.ledger.retired || exists b :: Visits(s', b, h)
    {
      StepKeepsAccount(s, s', me, h);
    }
  }

  lemma StartKeepsValid(s: Ring, me: Tid, call: Call)
    requires Valid(s) && Idle(s, me)
    ensures Valid(Start(s, me, call)) && Grows(s, Start(s, me, call))
  {
    var s' := Start(s, me, call);
    forall h | s'.first <= h < s'.head
      ensures h in s'.ledger.taken || h in s'.ledger.retired || exists b :: Visits(s', b, h)
    {
      if h !in s.ledger.taken && h !in s.ledger.retired {
        var b :| Visits(s, b, h);
        assert Visits(s', b, h);
      }
    }
    forall a, b, t ensures HoldsTicket(s', a, t) && HoldsTicket(s', b, t) ==> a == b {
      assert HoldsTicket(s', a, t) ==> HoldsTicket(s, a, t);
      assert HoldsTicket(s', b, t) ==> HoldsTicket(s, b, t);
    }
    forall a, b, e, t ensures HasAnswer(s', a, e, t) && HasAnswer(s', b, e, t) ==> a == b {
      assert HasAnswer(s', a, e, t) ==> HasAnswer(s, a, e, t);
      assert HasAnswer(s', b, e, t) ==> HasAnswer(s, b, e, t);
    }
    forall a, b, h ensures Visits(s', a, h) && Visits(s', b, h) ==> a == b {
      assert Visits(s', a, h) ==> Visits(s, a, h);
      assert Visits(s', b, h) ==> Visits(s, b, h);
    }
  }

  /** What one step, and so any number of steps, can only add to. */
  ghost predicate Grows(s: Ring, s': Ring) {
    && s'.first == s.first && s.head <= s'.head && s.tail <= s'.tail
    && (s.closed ==> s'.closed)
    && (forall t <- s.ledger.deposited ::
          t in s'.ledger.deposited && s'.ledger.deposited[t] == s.ledger.deposited[t])
    && s.ledger.taken <= s'.ledger.taken && s.ledger.retired <= s'.ledger.retired
  }

  lemma StepGrows(s: Ring, s': Ring, me: Tid)
    requires Valid(s) && Step(s, s', me)
    ensures Grows(s, s')
    ensures forall t <- s.ledger.retired :: t !in s'.ledger.deposited
    ensures forall t :: t in s'.ledger.deposited && t !in s.ledger.deposited ==>
      HoldsTicket(s, me, t) && s'.ledger.deposited[t] == s.threads[me].x
      && s'.threads[me] == Accepted(s.threads[me].x, t)
    ensures forall h <- s'.ledger.taken - s.ledger.taken ::
      Visits(s, me, h) && h in s.ledger.deposited && s'.threads[me] == Got(h, s.ledger.deposited[h])
  {}

  // ---- EMPTY, and draining a closed ring ----

  /** Every item in the ring already has the one dequeuer that may take it at its cell. */
  ghost predicate AllClaimed(s: Ring) {
    forall t <- s.ledger.deposited :: t in s.ledger.taken || exists b :: Visits(s, b, t)
  }

  /** An item has the dequeuer it needs exactly if its ticket has been drawn on the dequeue side. */
  lemma PendingIsVisitedIffPassed(s: Ring, t: nat)
    requires Valid(s) && t in s.ledger.deposited && t !in s.ledger.taken
    ensures (exists b :: Visits(s, b, t)) <==> t < s.head
  {
    assert s.first <= t;
    if b :| Visits(s, b, t) { assert PhaseOk(s, s.threads[b]); }
  }

  /** Every item is claimed exactly if the head has passed every deposit. */
  lemma ClaimedIffPassed(s: Ring)
    requires Valid(s)
    ensures AllClaimed(s) <==> forall t <- s.ledger.deposited :: t < s.head
  {
    forall t <- s.ledger.deposited
      ensures (t in s.ledger.taken || exists b :: Visits(s, b, t)) <==> t < s.head
    {
      if t !in s.ledger.taken { PendingIsVisitedIffPassed(s, t); }
    }
  }

  ghost predicate AnswersEmpty(s: Ring, s': Ring, me: Tid) {
    me in s.threads && s.threads[me].Checking? && s'.threads != s.threads
    && me in s'.threads && (s'.threads[me] == Empty || s'.threads[me] == Repairing)
  }

  lemma EmptyIsHonest(s: Ring, s': Ring, me: Tid)
    requires Valid(s) && Step(s, s', me) && AnswersEmpty(s, s', me)
    ensures AllClaimed(s)
  {
    var h := s.threads[me].h;
    assert h in s.ledger.retired;
    forall t <- s.ledger.deposited ensures t in s.ledger.taken || exists b :: Visits(s, b, t) {
      assert s.first <= t < s.head;
    }
  }

  /** No ticket at or beyond the head can ever hold an item. */
  ghost predicate Drained(s: Ring) {
    && s.closed
    && (forall t <- s.ledger.deposited :: t < s.head)
    && (forall b <- s.threads :: s.threads[b].Holding? ==> s.threads[b].t < s.head)
  }

  lemma ClosedAndEmptyIsDrained(s: Ring, s': Ring, me: Tid)
    requires Valid(s) && Step(s, s', me) && AnswersEmpty(s, s', me) && s.closed
    ensures Drained(s')
  {
    var h := s.threads[me].h;
    assert h in s.ledger.retired;
  }

  lemma DrainedForever(s: Ring, s': Ring, me: Tid)
    requires Valid(s) && Step(s, s', me) && Drained(s)
    ensures Drained(s')
  {}

  lemma DrainedMeansClaimed(s: Ring)
    requires Valid(s) && Drained(s)
    ensures AllClaimed(s)
    ensures forall b <- s.threads :: s.threads[b].Holding? ==>
      var t := s.threads[b].t;
      t in s.ledger.retired || exists c :: Visits(s, c, t)
  {
    forall t <- s.ledger.deposited ensures t in s.ledger.taken || exists b :: Visits(s, b, t) {
      assert s.first <= t < s.head;
    }
    forall b <- s.threads | s.threads[b].Holding?
      ensures s.threads[b].t in s.ledger.retired || exists c :: Visits(s, c, s.threads[b].t)
    {
      assert PhaseOk(s, s.threads[b]);
      assert s.first <= s.threads[b].t < s.head;
    }
  }

  // ---- A dequeue that runs alone ----

  predicate Untaken(s: Ring, t: nat) {
    t in s.ledger.deposited && t !in s.ledger.taken
  }

  predicate QuietBut(s: Ring, me: Tid) {
    forall b <- s.threads :: b != me ==> Answered(s.threads[b])
  }

  /** s has come from s0 by steps of one dequeue of me, while nobody else was at work. */
  ghost predicate DequeuedAlone(s0: Ring, s: Ring, me: Tid) {
    && QuietBut(s, me) && me in s.threads && s.ledger.deposited == s0.ledger.deposited && s.closed == s0.closed
    && match s.threads[me]
       case Got(h, x) => Untaken(s0, h) && s.ledger.taken == s0.ledger.taken + {h} && x == s0.ledger.deposited[h]
       case p =>
         && s.ledger.taken == s0.ledger.taken
         && (p.Dequeueing? || p.Visiting? || p.Checking? || p.Repairing? || p.Empty?)
         && (p.Repairing? || p.Empty? ==> forall t <- s.ledger.deposited :: t < s.head)
  }

  lemma DequeuesOnAlone(s0: Ring, s: Ring, s': Ring, me: Tid)
    requires Valid(s) && DequeuedAlone(s0, s, me) && Step(s, s', me)
    ensures DequeuedAlone(s0, s', me)
  {
    if s.threads[me].Checking? { assert PhaseOk(s, s.threads[me]); }
  }

  /** Alone, a dequeue gets the oldest item, and answers EMPTY exactly if there is none. */
  lemma AloneGetsOldest(s0: Ring, s: Ring, me: Tid)
    requires Valid(s0) && Valid(s) && DequeuedAlone(s0, s, me) && Answered(s.threads[me])
    ensures match s.threads[me]
            case Got(h, _) => forall t :: Untaken(s0, t) ==> h <= t
            case _ => s.threads[me].Empty? && forall t :: !Untaken(s0, t)
  {
    forall t | Untaken(s, t) ensures s.head <= t && !s.threads[me].Empty? {
      assert forall b :: !Visits(s, b, t);
      PendingIsVisitedIffPassed(s, t);
    }
    if s.threads[me].Got? {
      var h := s.threads[me].h;
      assert PhaseOk(s, s.threads[me]);
      forall t | Untaken(s0, t) ensures h <= t { assert t != h ==> Untaken(s, t); }
    } else {
      forall t ensures !Untaken(s0, t) { assert !Untaken(s, t); }
    }
  }
}
