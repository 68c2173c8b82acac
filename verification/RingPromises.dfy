/** What PRQ promises its callers, in every reachable state and over every run. */
module PrqPromises {
  import opened RingGeometry
  import opened TicketRing
  import opened Prq

  /** A dequeuer that drew ticket t is still at the cell of t. */
  predicate AtItsCell(q: State, t: nat, b: Tid) {
    b in q.threads && q.threads[b].AtDequeue() && q.threads[b].Ticket() == t
  }

  lemma VisitorIsAtCell(q: State, t: nat, b: Tid)
    requires Visits(Abs(q), b, t)
    ensures AtItsCell(q, t, b)
  {
    assert Abs(q).threads[b] == AbsPc(q.threads[b]);
  }

  /**
   * An enqueuer whose token-to-item swap succeeds finds the cell safe, in its own round and holding
   * its own token; its ticket is not retired, and its dequeuer has yet to come or is still there.
   */
  lemma DepositMeetsItsDequeuer(s: State, me: Tid)
    requires Inv(s) && me in s.threads && s.threads[me].EDeposit? && Next(s, me).threads[me].EOk?
    ensures var t := s.threads[me].t;
      && At(s, t) == Cell(Stamp(true, Cycle(t)), Token(me))
      && t !in s.ledger.deposited && t !in s.ledger.taken && t !in s.ledger.retired
      && (t < s.head ==> exists b :: AtItsCell(s, t, b))
  {
    var t := s.threads[me].t;
    TicketFacts(s, me);
    assert KnowsAt(s, me, s.threads[me]);
    if t < s.head {
      var b :| Visits(Abs(s), b, t);
      VisitorIsAtCell(s, t, b);
    }
  }

  /** An item that has not been taken is in the cell of its ticket, in the round of its ticket. */
  lemma PendingItemIsInItsCell(s: State, t: nat)
    requires Inv(s) && Pending(s.ledger, t)
    ensures At(s, t).value == Full(s.ledger.deposited[t]) && At(s, t).stamp.epoch == Cycle(t)
  {
    assert CellAt(s, Slot(t));
  }

  /** A ticket enters the taken ones when its dequeuer clears its cell. */
  lemma TakenByItsDequeuer(s: State, me: Tid, t: nat)
    requires WellFormed(s) && Pending(s.ledger, t) && !Pending(Next(s, me).ledger, t)
    ensures AtItsCell(s, t, me) && s.threads[me].DClear?
  {}

  /** The dequeuer's plain NULL store overwrites exactly the item it returns. */
  lemma ClearOverwritesOwnItem(s: State, me: Tid)
    requires Inv(s) && me in s.threads && s.threads[me].DClear?
    ensures var h, x := s.threads[me].h, s.threads[me].x;
      At(s, h).value == Full(x) && Pending(s.ledger, h) && s.ledger.deposited[h] == x
    ensures Next(s, me).threads[me] == DGot(s.threads[me].h, s.threads[me].x)
  {
    var pc := s.threads[me];
    assert KnowsAt(s, me, pc) && CellAt(s, Slot(pc.h));
    ClearedItemIsOwn(At(s, pc.h), s.ledger, me, pc);
  }

  /** Nobody but the dequeuer of ticket t takes the item of ticket t out of its cell. */
  lemma OnlyItsDequeuerTakes(s: State, me: Tid, t: nat)
    requires Inv(s) && Pending(s.ledger, t)
    ensures var s' := Next(s, me);
      if Pending(s'.ledger, t) then At(s', t).value == Full(s'.ledger.deposited[t])
      else AtItsCell(s, t, me) && s'.threads[me] == DGot(t, s.ledger.deposited[t])
  {
    if Pending(Next(s, me).ledger, t) {
      NextKeepsInv(s, me);
      PendingItemIsInItsCell(Next(s, me), t);
    } else {
      TakenByItsDequeuer(s, me, t);
      ClearOverwritesOwnItem(s, me);
    }
  }

  /** A token stands in one cell at most, and only while its owner is at work on that cell. */
  lemma TokenStandsInOneCell(s: State, i: nat, j: nat)
    requires Inv(s) && i < R && j < R
    requires s.cells[i].value.Token? && s.cells[j].value == s.cells[i].value
    ensures i == j
    ensures var b := s.cells[i].value.owner; b in s.threads && MayHaveToken(s.threads[b], i)
  {}

  lemma EmptyMeansClaimed(s: State, me: Tid)
    requires WellFormed(s) && Valid(Abs(s))
    requires me in s.threads && s.threads[me].DReadTail? && Next(s, me).threads[me] == DEmpty
    ensures AllClaimed(Abs(s))
  {
    CounterAccessRefines(s, me, s.threads[me]);
    assert Abs(s).threads[me] == AbsPc(s.threads[me]);
    assert Abs(Next(s, me)).threads[me] == AbsPc(Next(s, me).threads[me]);
    TicketRing.EmptyIsHonest(Abs(s), Abs(Next(s, me)), me);
  }

  /** `return EMPTY` is honest: every item not yet taken is in its cell, with its dequeuer there. */
  lemma EmptyIsHonest(s: State, me: Tid, t: nat)
    requires Inv(s) && me in s.threads && s.threads[me].DReadTail? && Next(s, me).threads[me] == DEmpty
    requires Pending(s.ledger, t)
    ensures At(s, t).value == Full(s.ledger.deposited[t]) && exists b :: AtItsCell(s, t, b)
  {
    EmptyMeansClaimed(s, me);
    PendingItemIsInItsCell(s, t);
    var b :| Visits(Abs(s), b, t);
    VisitorIsAtCell(s, t, b);
  }

  lemma PerformGrows(s: State, act: Act)
    requires Inv(s)
    ensures Grows(Abs(s), Abs(Perform(s, act)))
    ensures forall t <- s.ledger.retired :: t !in Perform(s, act).ledger.deposited
  {
    match act
    case Invoke(me, call) =>
      assert LedgerOk(Abs(s));
    case Go(me) =>
      RefinesRing(s, me);
      StepGrows(Abs(s), Abs(Next(s, me)), me);
  }

  /**
   * Over a whole run nothing is unmade: deposits keep their items, taken and retired tickets stay so,
   * and no item is ever deposited under a ticket retired before.
   */
  lemma {:induction false} RunGrows(schedule: seq<Act>, i: nat)
    requires i <= |schedule|
    ensures Grows(Abs(Run(schedule[..i])), Abs(Run(schedule)))
    ensures forall t <- Run(schedule[..i]).ledger.retired :: t !in Run(schedule).ledger.deposited
    decreases |schedule| - i
  {
    EveryRunKeepsInv(schedule[..i]);
    if i == |schedule| {
      assert schedule[..i] == schedule;
      assert LedgerOk(Abs(Run(schedule)));
    } else {
      assert schedule[..i + 1][..i] == schedule[..i];
      PerformGrows(Run(schedule[..i]), schedule[i]);
      RunGrows(schedule, i + 1);
    }
  }

  /** A dequeue answers with the item deposited under its ticket. */
  lemma GotWhatWasDeposited(s: State, b: Tid)
    requires Inv(s) && b in s.threads && s.threads[b].DGot?
    ensures var h := s.threads[b].h;
      h in s.ledger.taken && h in s.ledger.deposited && s.ledger.deposited[h] == s.threads[b].x
  {
    TicketFacts(s, b);
  }

  /** An item once deposited is, ever after, in its cell or taken, and taken as the item it was. */
  lemma ItemIsNeverLost(schedule: seq<Act>, i: nat, t: nat)
    requires i <= |schedule| && t in Run(schedule[..i]).ledger.deposited
    ensures var x, s := Run(schedule[..i]).ledger.deposited[t], Run(schedule);
      && (t in s.ledger.taken || At(s, t).value == Full(x))
      && (forall b <- s.threads :: s.threads[b].DGot? && s.threads[b].h == t ==> s.threads[b].x == x)
  {
    var s := Run(schedule);
    RunGrows(schedule, i);
    assert t in s.ledger.deposited && s.ledger.deposited[t] == Run(schedule[..i]).ledger.deposited[t];
    EveryRunKeepsInv(schedule);
    if Pending(s.ledger, t) { PendingItemIsInItsCell(s, t); }
    forall b <- s.threads | s.threads[b].DGot? && s.threads[b].h == t
      ensures s.threads[b].x == s.ledger.deposited[t]
    {
      GotWhatWasDeposited(s, b);
    }
  }

  /** Two dequeues never get the same ticket, nor do two enqueues deposit under the same one. */
  lemma AnswersAreApart(s: State, a: Tid, b: Tid)
    requires Inv(s) && a in s.threads && b in s.threads && a != b
    ensures s.threads[a].DGot? && s.threads[b].DGot? ==> s.threads[a].h != s.threads[b].h
    ensures s.threads[a].EOk? && s.threads[b].EOk? ==> s.threads[a].t != s.threads[b].t
  {
    var r := Abs(s);
    assert r.threads[a] == AbsPc(s.threads[a]) && r.threads[b] == AbsPc(s.threads[b]);
    if s.threads[a].DGot? && s.threads[b].DGot? && s.threads[a].h == s.threads[b].h {
      assert HasAnswer(r, a, false, s.threads[a].h) && HasAnswer(r, b, false, s.threads[a].h);
    }
    if s.threads[a].EOk? && s.threads[b].EOk? && s.threads[a].t == s.threads[b].t {
      assert HasAnswer(r, a, true, s.threads[a].t) && HasAnswer(r, b, true, s.threads[a].t);
    }
  }
}

/** What CRQ promises its callers, in every reachable state and over every run. */
module CrqPromises {
  import opened RingGeometry
  import opened TicketRing
  import opened Crq

  /** A dequeuer that drew ticket t is still at the node of t. */
  predicate AtItsNode(q: State, t: nat, b: Tid) {
    b in q.threads && q.threads[b].AtDequeue() && q.threads[b].Ticket() == t
  }

  lemma VisitorIsAtNode(q: State, t: nat, b: Tid)
    requires Visits(Abs(q), b, t)
    ensures AtItsNode(q, t, b)
  {
    assert Abs(q).threads[b] == AbsPc(q.threads[b]);
  }

  /**
   * An enqueuer whose double-word swap succeeds has read the node's value, stamp and head apart, yet
   * its ticket is not retired, and its dequeuer has yet to come or is still there.
   */
  lemma DepositMeetsItsDequeuer(s: State, me: Tid)
    requires Inv(s) && me in s.threads && s.threads[me].EDeposit? && Next(s, me).threads[me].EOk?
    ensures var t := s.threads[me].t;
      && At(s, t) == Node(s.threads[me].r, Null) && s.threads[me].r.idx <= t
      && t !in s.ledger.deposited && t !in s.ledger.taken && t !in s.ledger.retired
      && (t < s.head ==> exists b :: AtItsNode(s, t, b))
  {
    var pc := s.threads[me];
    TicketFacts(s, me);
    assert KnowsAt(s, pc) && NodeAt(s, Slot(pc.t));
    DepositedTicketIsOpen(At(s, pc.t), s.ledger, pc);
    if pc.t < s.head {
      var b :| Visits(Abs(s), b, pc.t);
      VisitorIsAtNode(s, pc.t, b);
    }
  }

  /** An item that has not been taken is in the node of its ticket, under the index of its ticket. */
  lemma PendingItemIsInItsNode(s: State, t: nat)
    requires Inv(s) && Pending(s.ledger, t)
    ensures At(s, t).value == Full(s.ledger.deposited[t]) && At(s, t).stamp.idx == t
  {
    assert NodeAt(s, Slot(t));
  }

  /** A ticket enters the taken ones when its dequeuer swaps its item out. */
  lemma TakenByItsDequeuer(s: State, me: Tid, t: nat)
    requires WellFormed(s) && Pending(s.ledger, t) && !Pending(Next(s, me).ledger, t)
    ensures AtItsNode(s, t, me) && At(s, t).value.Full?
    ensures Next(s, me).threads[me] == DGot(t, At(s, t).value.x)
  {}

  /** Nobody but the dequeuer of ticket t takes the item of ticket t out of its node. */
  lemma OnlyItsDequeuerTakes(s: State, me: Tid, t: nat)
    requires Inv(s) && Pending(s.ledger, t)
    ensures var s' := Next(s, me);
      if Pending(s'.ledger, t) then At(s', t).value == Full(s'.ledger.deposited[t])
      else AtItsNode(s, t, me) && s'.threads[me] == DGot(t, s.ledger.deposited[t])
  {
    if Pending(Next(s, me).ledger, t) {
      NextKeepsInv(s, me);
      PendingItemIsInItsNode(Next(s, me), t);
    } else {
      TakenByItsDequeuer(s, me, t);
      PendingItemIsInItsNode(s, t);
    }
  }

  lemma EmptyMeansClaimed(s: State, me: Tid)
    requires Inv(s) && me in s.threads && s.threads[me].DReadTail? && Next(s, me).threads[me] == FReadHead
    ensures AllClaimed(Abs(s))
  {
    RefinesRing(s, me);
    assert Abs(s).threads[me] == AbsPc(s.threads[me]);
    assert Abs(Next(s, me)).threads[me] == AbsPc(Next(s, me).threads[me]);
    TicketRing.EmptyIsHonest(Abs(s), Abs(Next(s, me)), me);
  }

  /**
   * `return EMPTY` is honest: at the tail read that leads to it, before `fixState`, every item not
   * yet taken is in its node, with its dequeuer there.
   */
  lemma EmptyIsHonest(s: State, me: Tid, t: nat)
    requires Inv(s) && me in s.threads && s.threads[me].DReadTail? && Next(s, me).threads[me] == FReadHead
    requires Pending(s.ledger, t)
    ensures At(s, t).value == Full(s.ledger.deposited[t]) && exists b :: AtItsNode(s, t, b)
  {
    EmptyMeansClaimed(s, me);
    PendingItemIsInItsNode(s, t);
    var b :| Visits(Abs(s), b, t);
    VisitorIsAtNode(s, t, b);
  }

  lemma PerformGrows(s: State, act: Act)
    requires Inv(s)
    ensures Grows(Abs(s), Abs(Perform(s, act)))
    ensures forall t <- s.ledger.retired :: t !in Perform(s, act).ledger.deposited
  {
    match act
    case Invoke(me, call) =>
      assert LedgerOk(Abs(s));
    case Go(me) =>
      RefinesRing(s, me);
      StepGrows(Abs(s), Abs(Next(s, me)), me);
  }

  /**
   * Over a whole run nothing is unmade: deposits keep their items, taken and retired tickets stay so,
   * and no item is ever deposited under a ticket retired before.
   */
  lemma {:induction false} RunGrows(schedule: seq<Act>, i: nat)
    requires i <= |schedule|
    ensures Grows(Abs(Run(schedule[..i])), Abs(Run(schedule)))
    ensures forall t <- Run(schedule[..i]).ledger.retired :: t !in Run(schedule).ledger.deposited
    decreases |schedule| - i
  {
    EveryRunKeepsInv(schedule[..i]);
    if i == |schedule| {
      assert schedule[..i] == schedule;
      assert LedgerOk(Abs(Run(schedule)));
    } else {
      assert schedule[..i + 1][..i] == schedule[..i];
      PerformGrows(Run(schedule[..i]), schedule[i]);
      RunGrows(schedule, i + 1);
    }
  }

  /** A dequeue answers with the item deposited under its ticket. */
  lemma GotWhatWasDeposited(s: State, b: Tid)
    requires Inv(s) && b in s.threads && s.threads[b].DGot?
    ensures var h := s.threads[b].h;
      h in s.ledger.taken && h in s.ledger.deposited && s.ledger.deposited[h] == s.threads[b].x
  {
    TicketFacts(s, b);
  }

  /** An item once deposited is, ever after, in its node or taken, and taken as the item it was. */
  lemma ItemIsNeverLost(schedule: seq<Act>, i: nat, t: nat)
    requires i <= |schedule| && t in Run(schedule[..i]).ledger.deposited
    ensures var x, s := Run(schedule[..i]).ledger.deposited[t], Run(schedule);
      && (t in s.ledger.taken || At(s, t).value == Full(x))
      && (forall b <- s.threads :: s.threads[b].DGot? && s.threads[b].h == t ==> s.threads[b].x == x)
  {
    var s := Run(schedule);
    RunGrows(schedule, i);
    assert t in s.ledger.deposited && s.ledger.deposited[t] == Run(schedule[..i]).ledger.deposited[t];
    EveryRunKeepsInv(schedule);
    if Pending(s.ledger, t) { PendingItemIsInItsNode(s, t); }
    forall b <- s.threads | s.threads[b].DGot? && s.threads[b].h == t
      ensures s.threads[b].x == s.ledger.deposited[t]
    {
      GotWhatWasDeposited(s, b);
    }
  }

  /** Two dequeues never get the same ticket, nor do two enqueues deposit under the same one. */
  lemma AnswersAreApart(s: State, a: Tid, b: Tid)
    requires Inv(s) && a in s.threads && b in s.threads && a != b
    ensures s.threads[a].DGot? && s.threads[b].DGot? ==> s.threads[a].h != s.threads[b].h
    ensures s.threads[a].EOk? && s.threads[b].EOk? ==> s.threads[a].t != s.threads[b].t
  {
    var r := Abs(s);
    assert r.threads[a] == AbsPc(s.threads[a]) && r.threads[b] == AbsPc(s.threads[b]);
    if s.threads[a].DGot? && s.threads[b].DGot? && s.threads[a].h == s.threads[b].h {
      assert HasAnswer(r, a, false, s.threads[a].h) && HasAnswer(r, b, false, s.threads[a].h);
    }
    if s.threads[a].EOk? && s.threads[b].EOk? && s.threads[a].t == s.threads[b].t {
      assert HasAnswer(r, a, true, s.threads[a].t) && HasAnswer(r, b, true, s.threads[a].t);
    }
  }

  /**
   * The tail's (closed, ticket) pair: a draw moves the ticket on by one, nothing moves it back, and
   * nothing clears the closed bit, `fixState` included.
   */
  lemma TailActsAsPair(s: State, me: Tid)
    requires Inv(s)
    ensures var s' := Next(s, me);
      && s.tail <= s'.tail && (s.closed ==> s'.closed)
      && (me in s.threads && s.threads[me].EDraw? ==> s'.tail == s.tail + 1 && s'.closed == s.closed)
      && (s.closed && !(me in s.threads && s.threads[me].EDraw?) ==> s'.tail == s.tail)
  {
    if me in s.threads { assert RepairOk(s, s.threads[me]); }
  }

  /** Two enqueuers never hold the same ticket, and every ticket held was drawn below the tail. */
  lemma TicketsAreUnique(s: State, a: Tid, b: Tid)
    requires Inv(s) && a in s.threads && b in s.threads && a != b
    requires AbsPc(s.threads[a]).Holding? && AbsPc(s.threads[b]).Holding?
    ensures s.threads[a].Ticket() != s.threads[b].Ticket() && s.threads[a].Ticket() < s.tail
  {
    var r := Abs(s);
    assert r.threads[a] == AbsPc(s.threads[a]) && r.threads[b] == AbsPc(s.threads[b]);
    TicketFacts(s, a);
    assert HoldsTicket(r, a, s.threads[a].Ticket()) && HoldsTicket(r, b, s.threads[b].Ticket());
  }
}
