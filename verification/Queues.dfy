/** LPRQueue: the list of PRQs whose dequeue asks a ring again before leaving it. */
module LprQueue {
  import opened RingGeometry
  import opened TicketRing
  import opened RingList
  import opened RingListSafety
  import opened RingListRefinement
  import opened RingListAnswers
  import opened RingListProgress
  import opened PrqPromises
  import Prq
  import PrqAlone

  ghost function PrqApi(): Api<Prq.State> {
    Api(Prq.Init(),
        (q, me, call) => Prq.Begin(q, me, call),
        (q, q', me) => Prq.WellFormed(q) && q' == Prq.Next(q, me),
        (me, x) => Prq.FreshWith(me, x),
        q => Prq.Abs(q))
  }

  ghost predicate IsLprRun(run: seq<List<Prq.State>>, who: seq<Tid>) {
    IsRun(PrqApi(), true, run, who)
  }

  lemma PrqRefinesTickets()
    ensures RefinesTickets(PrqApi(), q => Prq.Inv(q), R)
  {
    var api := PrqApi();
    Prq.InitInv();
    forall q, me, call | Prq.Inv(q) && Idle(api.view(q), me)
      ensures Prq.Inv(api.begin(q, me, call))
      ensures api.view(api.begin(q, me, call)) == Start(api.view(q), me, call)
    {
      assert me in q.threads ==> api.view(q).threads[me] == Prq.AbsPc(q.threads[me]);
      Prq.BeginKeepsInv(q, me, call);
      Prq.BeginRefines(q, me, call);
    }
    forall q, q', me | Prq.Inv(q) && api.step(q, q', me)
      ensures Prq.Inv(q') && Step(api.view(q), api.view(q'), me)
    {
      Prq.RefinesRing(q, me);
      Prq.NextKeepsInv(q, me);
    }
    forall me, x
      ensures Prq.Inv(api.freshWith(me, x))
      ensures api.view(api.freshWith(me, x)) == FreshWith(R, me, x)
    {
      Prq.FreshWithInv(me, x);
      Prq.FreshWithAbs(me, x);
    }
  }

  lemma EveryLprRun(run: seq<List<Prq.State>>, who: seq<Tid>, i: nat)
    requires IsLprRun(run, who) && i < |run|
    ensures ListInv(View(PrqApi(), run[i]), R, true)
    ensures forall k | 0 <= k < |run[i].rings| :: Prq.Inv(run[i].rings[k])
  {
    PrqRefinesTickets();
    RingListRefinement.EveryRunKeepsInv(PrqApi(), q => Prq.Inv(q), R, true, run, who, i);
  }

  /** An item of a drained ring sits in its cell, with its own dequeuer there. */
  lemma DrainedItemIsClaimed(q: Prq.State, t: nat)
    requires Prq.Inv(q) && Drained(Prq.Abs(q)) && Prq.Pending(q.ledger, t)
    ensures Prq.At(q, t).value == Prq.Full(q.ledger.deposited[t]) && exists b :: AtItsCell(q, t, b)
  {
    PendingItemIsInItsCell(q, t);
    DrainedMeansClaimed(Prq.Abs(q));
    var b :| Visits(Prq.Abs(q), b, t);
    VisitorIsAtCell(q, t, b);
  }

  /** A ticket of a drained ring whose enqueuer is still at work is retired or being visited. */
  lemma DrainedTicketIsClaimed(q: Prq.State, e: Tid)
    requires Prq.Inv(q) && Drained(Prq.Abs(q)) && e in q.threads && Prq.AbsPc(q.threads[e]).Holding?
    ensures q.threads[e].Ticket() in q.ledger.retired || exists b :: AtItsCell(q, q.threads[e].Ticket(), b)
  {
    var r, t := Prq.Abs(q), q.threads[e].Ticket();
    assert r.threads[e] == Prq.AbsPc(q.threads[e]);
    DrainedMeansClaimed(r);
    if t !in q.ledger.retired {
      var b :| Visits(r, b, t);
      VisitorIsAtCell(q, t, b);
    }
  }

  /**
   * No abandonment: once `_head` has left ring k, the ring is closed for ever, every item in it
   * sits in its cell with its own dequeuer there, and so does every ticket that could still get one
   * unless that ticket is retired.
   */
  lemma NothingAbandoned(run: seq<List<Prq.State>>, who: seq<Tid>, i: nat, k: nat)
    requires IsLprRun(run, who) && i < |run| && k < run[i].head
    ensures k < |run[i].rings| && Prq.WellFormed(run[i].rings[k]) && run[i].rings[k].closed
    ensures var q := run[i].rings[k];
      forall t :: Prq.Pending(q.ledger, t) ==>
        Prq.At(q, t).value == Prq.Full(q.ledger.deposited[t]) && exists b :: AtItsCell(q, t, b)
    ensures var q := run[i].rings[k];
      forall e <- q.threads :: Prq.AbsPc(q.threads[e]).Holding? ==>
        q.threads[e].Ticket() in q.ledger.retired || exists b :: AtItsCell(q, q.threads[e].Ticket(), b)
  {
    EveryLprRun(run, who, i);
    var q := run[i].rings[k];
    assert RingOk(View(PrqApi(), run[i]), R, true, k);
    forall t | Prq.Pending(q.ledger, t)
      ensures Prq.At(q, t).value == Prq.Full(q.ledger.deposited[t]) && exists b :: AtItsCell(q, t, b)
    {
      DrainedItemIsClaimed(q, t);
    }
    forall e <- q.threads | Prq.AbsPc(q.threads[e]).Holding?
      ensures q.threads[e].Ticket() in q.ledger.retired || exists b :: AtItsCell(q, q.threads[e].Ticket(), b)
    {
      DrainedTicketIsClaimed(q, e);
    }
  }

  /**
   * `return false` is honest: at some instant of that very call, every item in the whole queue
   * already had its own dequeuer at its cell.
   */
  lemma FalseIsHonest(run: seq<List<Prq.State>>, who: seq<Tid>, i: nat, me: Tid)
    requires IsLprRun(run, who) && i + 1 < |run| && who[i] == me
    requires me in run[i].threads && !run[i].threads[me].DFalse?
    requires me in run[i + 1].threads && run[i + 1].threads[me].DFalse?
    ensures exists m | 0 <= m < i ::
      EverythingClaimed(PrqApi(), run[m]) && InDequeue(run[m], me, run[i + 1].threads[me].since)
  {
    EveryLprRun(run, who, i);
    assert ListStep(PrqApi(), true, run[i], run[i + 1], me);
    FalseStep(PrqApi(), true, run[i], run[i + 1], me);
    assert PcOk(View(PrqApi(), run[i]), true, me, run[i].threads[me]);
    QuietWitness(PrqApi(), true, run, who, i, me, run[i].threads[me].since);
  }

  /**
   * An enqueue that has returned has put its item, the one it was called with, into the queue: under the
   * position it logged the item is in its cell, or has been taken.
   */
  lemma EnqueuePutsItem(run: seq<List<Prq.State>>, who: seq<Tid>, me: Tid, i: nat, j: nat, x: Item)
    requires IsLprRun(run, who) && CallFrom(run, who, me, i, j)
    requires me in run[i + 1].threads && run[i + 1].threads[me] == EReadTail(x, |run[i].log|)
    requires me in run[j].threads && Returned(run[j].threads[me])
    ensures exists m: nat, p | i < m < j ::
      && Logs(run, who, me, m, Enqueued(p, x, |run[i].log|))
      && p.ring < |run[j].rings| && Prq.WellFormed(run[j].rings[p.ring])
      && (p.ticket in run[j].rings[p.ring].ledger.taken
          || Prq.At(run[j].rings[p.ring], p.ticket).value == Prq.Full(x))
  {
    PrqRefinesTickets();
    EnqueueDeposits(PrqApi(), q => Prq.Inv(q), R, true, run, who, me, i, j, x);
    var m: nat, p :| i < m < j && Logs(run, who, me, m, Enqueued(p, x, |run[i].log|))
                     && Deposited(PrqApi(), run[j], p, x);
    EveryLprRun(run, who, j);
    var q := run[j].rings[p.ring];
    if p.ticket !in q.ledger.taken { PendingItemIsInItsCell(q, p.ticket); }
  }

  /** A dequeue that has returned has taken the item it answers with, or answers false. */
  lemma DequeueTakesItem(run: seq<List<Prq.State>>, who: seq<Tid>, me: Tid, i: nat, j: nat)
    requires IsLprRun(run, who) && CallFrom(run, who, me, i, j)
    requires me in run[i + 1].threads && run[i + 1].threads[me] == DReadHead(|run[i].log|)
    requires me in run[j].threads && Returned(run[j].threads[me]) && !run[j].threads[me].DFalse?
    ensures run[j].threads[me].DDone?
    ensures exists m: nat, p | i < m < j ::
      && Logs(run, who, me, m, Dequeued(p, run[j].threads[me].x, |run[i].log|)) && p.ring < |run[j].rings|
      && p.ticket in run[j].rings[p.ring].ledger.taken && p.ticket in run[j].rings[p.ring].ledger.deposited
      && run[j].rings[p.ring].ledger.deposited[p.ticket] == run[j].threads[me].x
  {
    PrqRefinesTickets();
    DequeueAnswers(PrqApi(), q => Prq.Inv(q), R, true, run, who, me, i, j);
  }

  /** The log of every run is in real-time FIFO order, without duplicates. */
  lemma LprIsFifo(run: seq<List<Prq.State>>, who: seq<Tid>, i: nat)
    requires IsLprRun(run, who) && i < |run|
    ensures OrderedLog(run[i].log)
  {
    EveryLprRun(run, who, i);
    LogIsOrdered(View(PrqApi(), run[i]), R, true);
  }

  /** Every deposit in a published ring is one enqueue that has returned, or the one about to. */
  lemma LprDepositsOnce(run: seq<List<Prq.State>>, who: seq<Tid>, i: nat, k: nat, t: nat)
    requires IsLprRun(run, who) && i < |run| && k < |run[i].rings| && t in run[i].rings[k].ledger.deposited
    ensures DepositedByOneEnqueue(View(PrqApi(), run[i]), k, t)
  {
    EveryLprRun(run, who, i);
    EachDepositIsOneEnqueue(View(PrqApi(), run[i]), R, true, k, t);
  }

  /**
   * No older item is skipped: once an item has been returned, every item not yet taken at an earlier
   * position is in its cell, with its own dequeuer there.
   */
  lemma LprSkipsNothing(run: seq<List<Prq.State>>, who: seq<Tid>, i: nat, j: nat, p: Pos)
    requires IsLprRun(run, who) && i < |run| && j < |run[i].log| && run[i].log[j].Dequeued?
    requires PosLt(p, run[i].log[j].at) && p.ring < |run[i].rings|
    requires Prq.Pending(run[i].rings[p.ring].ledger, p.ticket)
    ensures var q := run[i].rings[p.ring];
      && Prq.WellFormed(q) && Prq.At(q, p.ticket).value == Prq.Full(q.ledger.deposited[p.ticket])
      && exists b :: AtItsCell(q, p.ticket, b)
  {
    EveryLprRun(run, who, i);
    var q := run[i].rings[p.ring];
    PendingItemIsInItsCell(q, p.ticket);
    OlderItemsAreClaimed(View(PrqApi(), run[i]), R, j, p, q.ledger.deposited[p.ticket]);
    var b :| Visits(Prq.Abs(q), b, p.ticket);
    VisitorIsAtCell(q, p.ticket, b);
  }

  /** No item is lost: one that has not been taken sits in the cell of its ticket. */
  lemma LprConserves(run: seq<List<Prq.State>>, who: seq<Tid>, i: nat)
    requires IsLprRun(run, who) && i < |run|
    ensures Conserved(View(PrqApi(), run[i]))
    ensures forall j | 0 <= j < |run[i].log| && run[i].log[j].Enqueued? ::
      var p, x := run[i].log[j].at, run[i].log[j].x;
      && p.ring < |run[i].rings| && Prq.WellFormed(run[i].rings[p.ring])
      && (p.ticket in run[i].rings[p.ring].ledger.taken
          || Prq.At(run[i].rings[p.ring], p.ticket).value == Prq.Full(x))
  {
    EveryLprRun(run, who, i);
    ItemsAreConserved(View(PrqApi(), run[i]), R, true);
    forall j | 0 <= j < |run[i].log| && run[i].log[j].Enqueued?
      ensures var p := run[i].log[j].at;
        && p.ring < |run[i].rings| && Prq.WellFormed(run[i].rings[p.ring])
        && (p.ticket in run[i].rings[p.ring].ledger.taken
            || Prq.At(run[i].rings[p.ring], p.ticket).value == Prq.Full(run[i].log[j].x))
    {
      var p := run[i].log[j].at;
      assert DepositedAt(View(PrqApi(), run[i]), p, run[i].log[j].x);
      assert Prq.CellAt(run[i].rings[p.ring], Slot(p.ticket));
      assert p.ticket !in run[i].rings[p.ring].ledger.taken ==>
        Prq.Pending(run[i].rings[p.ring].ledger, p.ticket);
    }
  }

  /** A bound on what a ring may still ask of a thread that runs alone. */
  function RingCost(): (Prq.State, Tid) -> nat {
    (q: Prq.State, b: Tid) => if Prq.WellFormed(q) && b in q.threads then PrqAlone.Cost(q, q.threads[b]) else 0
  }

  lemma PrqAnswers()
    ensures RingsAnswer(PrqApi(), q => Prq.Inv(q), RingCost())
  {
    forall q: Prq.State, b: Tid | Prq.Inv(q) && !Idle(PrqApi().view(q), b)
      ensures PrqApi().step(q, Prq.Next(q, b), b) && RingCost()(Prq.Next(q, b), b) < RingCost()(q, b)
    {
      PrqAlone.CostFalls(q, b);
    }
  }

  /** A thread that from any instant of a run on runs alone returns from its call. */
  lemma AloneReturns(run: seq<List<Prq.State>>, who: seq<Tid>, i: nat, me: Tid) returns (rest: seq<List<Prq.State>>)
    requires IsLprRun(run, who) && i < |run| && me in run[i].threads
    ensures RunsAlone(PrqApi(), true, rest, me) && rest[0] == run[i]
    ensures me in rest[|rest| - 1].threads && Returned(rest[|rest| - 1].threads[me])
  {
    PrqRefinesTickets();
    PrqAnswers();
    RingListRefinement.EveryRunKeepsInv(PrqApi(), q => Prq.Inv(q), R, true, run, who, i);
    rest := RingListProgress.AloneReturns(PrqApi(), q => Prq.Inv(q), R, true, RingCost(), run[i], me);
  }
}

/** LCRQueue: the list of CRQs, whose dequeue leaves a ring after one EMPTY. */
module LcrQueue {
  import opened TicketRing
  import opened RingList
  import opened RingListSafety
  import opened RingListRefinement
  import opened RingListAnswers
  import opened RingListProgress
  import opened CrqPromises
  import Crq
  import CrqAlone

  ghost function CrqApi(): Api<Crq.State> {
    Api(Crq.Init(),
        (q, me, call) => Crq.Begin(q, me, call),
        (q, q', me) => Crq.WellFormed(q) && q' == Crq.Next(q, me),
        (me, x) => Crq.FreshWith(me, x),
        q => Crq.Abs(q))
  }

  ghost predicate IsLcrRun(run: seq<List<Crq.State>>, who: seq<Tid>) {
    IsRun(CrqApi(), false, run, who)
  }

  lemma CrqRefinesTickets()
    ensures RefinesTickets(CrqApi(), q => Crq.Inv(q), 0)
  {
    var api := CrqApi();
    Crq.InitInv();
    forall q, me, call | Crq.Inv(q) && Idle(api.view(q), me)
      ensures Crq.Inv(api.begin(q, me, call))
      ensures api.view(api.begin(q, me, call)) == Start(api.view(q), me, call)
    {
      assert me in q.threads ==> api.view(q).threads[me] == Crq.AbsPc(q.threads[me]);
      Crq.BeginKeepsInv(q, me, call);
      Crq.BeginRefines(q, me, call);
    }
    forall q, q', me | Crq.Inv(q) && api.step(q, q', me)
      ensures Crq.Inv(q') && Step(api.view(q), api.view(q'), me)
    {
      Crq.RefinesRing(q, me);
      Crq.NextKeepsInv(q, me);
    }
    forall me, x
      ensures Crq.Inv(api.freshWith(me, x))
      ensures api.view(api.freshWith(me, x)) == FreshWith(0, me, x)
    {
      Crq.FreshWithInv(me, x);
      Crq.FreshWithAbs(me, x);
    }
  }

  lemma EveryLcrRun(run: seq<List<Crq.State>>, who: seq<Tid>, i: nat)
    requires IsLcrRun(run, who) && i < |run|
    ensures ListInv(View(CrqApi(), run[i]), 0, false)
    ensures forall k | 0 <= k < |run[i].rings| :: Crq.Inv(run[i].rings[k])
  {
    CrqRefinesTickets();
    RingListRefinement.EveryRunKeepsInv(CrqApi(), q => Crq.Inv(q), 0, false, run, who, i);
  }

  /**
   * `return false` is honest about the last ring: at some instant of that very call the list ended with
   * the ring of the head, and every item not yet taken there was in its node, with its dequeuer there.
   * Only items of rings already left may be missed.
   */
  lemma FalseIsHonest(run: seq<List<Crq.State>>, who: seq<Tid>, i: nat, me: Tid)
    requires IsLcrRun(run, who) && i + 1 < |run| && who[i] == me
    requires me in run[i].threads && !run[i].threads[me].DFalse?
    requires me in run[i + 1].threads && run[i + 1].threads[me].DFalse?
    ensures exists m: nat | m < i ::
      && |run[m].rings| == |run[i].rings| == run[m].head + 1
      && InDequeue(run[m], me, run[i + 1].threads[me].since) && run[m].threads[me].k == run[m].head
      && ClaimedRing(run[m].rings[run[m].head])
  {
    CrqRefinesTickets();
    var m, k := FalseSawLastRing(CrqApi(), q => Crq.Inv(q), 0, false, run, who, i, me);
    EveryLcrRun(run, who, m);
    AllClaimedMeansClaimedRing(run[m].rings[k]);
  }

  /** Every item of the ring that has not been taken is in its node, with its dequeuer there. */
  ghost predicate ClaimedRing(q: Crq.State) {
    && Crq.WellFormed(q) && AllClaimed(Crq.Abs(q))
    && (forall t :: Crq.Pending(q.ledger, t) ==>
          Crq.At(q, t).value == Crq.Full(q.ledger.deposited[t]) && exists b :: AtItsNode(q, t, b))
  }

  lemma AllClaimedMeansClaimedRing(q: Crq.State)
    requires Crq.Inv(q) && AllClaimed(Crq.Abs(q))
    ensures ClaimedRing(q)
  {
    forall t | Crq.Pending(q.ledger, t)
      ensures Crq.At(q, t).value == Crq.Full(q.ledger.deposited[t]) && exists b :: AtItsNode(q, t, b)
    {
      PendingItemIsInItsNode(q, t);
      var b :| Visits(Crq.Abs(q), b, t);
      VisitorIsAtNode(q, t, b);
    }
  }

  /**
   * An enqueue that has returned has put its item, the one it was called with, into the queue: under the
   * position it logged the item is in its node, or has been taken.
   */
  lemma EnqueuePutsItem(run: seq<List<Crq.State>>, who: seq<Tid>, me: Tid, i: nat, j: nat, x: Item)
    requires IsLcrRun(run, who) && CallFrom(run, who, me, i, j)
    requires me in run[i + 1].threads && run[i + 1].threads[me] == EReadTail(x, |run[i].log|)
    requires me in run[j].threads && Returned(run[j].threads[me])
    ensures exists m: nat, p | i < m < j ::
      && Logs(run, who, me, m, Enqueued(p, x, |run[i].log|))
      && p.ring < |run[j].rings| && Crq.WellFormed(run[j].rings[p.ring])
      && (p.ticket in run[j].rings[p.ring].ledger.taken
          || Crq.At(run[j].rings[p.ring], p.ticket).value == Crq.Full(x))
  {
    CrqRefinesTickets();
    EnqueueDeposits(CrqApi(), q => Crq.Inv(q), 0, false, run, who, me, i, j, x);
    var m: nat, p :| i < m < j && Logs(run, who, me, m, Enqueued(p, x, |run[i].log|))
                     && Deposited(CrqApi(), run[j], p, x);
    EveryLcrRun(run, who, j);
    var q := run[j].rings[p.ring];
    if p.ticket !in q.ledger.taken { PendingItemIsInItsNode(q, p.ticket); }
  }

  /** A dequeue that has returned has taken the item it answers with, or answers false. */
  lemma DequeueTakesItem(run: seq<List<Crq.State>>, who: seq<Tid>, me: Tid, i: nat, j: nat)
    requires IsLcrRun(run, who) && CallFrom(run, who, me, i, j)
    requires me in run[i + 1].threads && run[i + 1].threads[me] == DReadHead(|run[i].log|)
    requires me in run[j].threads && Returned(run[j].threads[me]) && !run[j].threads[me].DFalse?
    ensures run[j].threads[me].DDone?
    ensures exists m: nat, p | i < m < j ::
      && Logs(run, who, me, m, Dequeued(p, run[j].threads[me].x, |run[i].log|)) && p.ring < |run[j].rings|
      && p.ticket in run[j].rings[p.ring].ledger.taken && p.ticket in run[j].rings[p.ring].ledger.deposited
      && run[j].rings[p.ring].ledger.deposited[p.ticket] == run[j].threads[me].x
  {
    CrqRefinesTickets();
    DequeueAnswers(CrqApi(), q => Crq.Inv(q), 0, false, run, who, me, i, j);
  }

  /** The log of every run is in real-time FIFO order, without duplicates. */
  lemma LcrIsFifo(run: seq<List<Crq.State>>, who: seq<Tid>, i: nat)
    requires IsLcrRun(run, who) && i < |run|
    ensures OrderedLog(run[i].log)
  {
    EveryLcrRun(run, who, i);
    LogIsOrdered(View(CrqApi(), run[i]), 0, false);
  }

  /** Every deposit in a published ring is one enqueue that has returned, or the one about to. */
  lemma LcrDepositsOnce(run: seq<List<Crq.State>>, who: seq<Tid>, i: nat, k: nat, t: nat)
    requires IsLcrRun(run, who) && i < |run| && k < |run[i].rings| && t in run[i].rings[k].ledger.deposited
    ensures DepositedByOneEnqueue(View(CrqApi(), run[i]), k, t)
  {
    EveryLcrRun(run, who, i);
    EachDepositIsOneEnqueue(View(CrqApi(), run[i]), 0, false, k, t);
  }

  /** Nothing is duplicated or invented: an item that has not been taken sits in the node of its ticket. */
  lemma LcrConserves(run: seq<List<Crq.State>>, who: seq<Tid>, i: nat)
    requires IsLcrRun(run, who) && i < |run|
    ensures Conserved(View(CrqApi(), run[i]))
    ensures forall j | 0 <= j < |run[i].log| && run[i].log[j].Enqueued? ::
      var p, x := run[i].log[j].at, run[i].log[j].x;
      && p.ring < |run[i].rings| && Crq.WellFormed(run[i].rings[p.ring])
      && (p.ticket in run[i].rings[p.ring].ledger.taken
          || Crq.At(run[i].rings[p.ring], p.ticket).value == Crq.Full(x))
  {
    EveryLcrRun(run, who, i);
    ItemsAreConserved(View(CrqApi(), run[i]), 0, false);
    forall j | 0 <= j < |run[i].log| && run[i].log[j].Enqueued?
      ensures var p := run[i].log[j].at;
        && p.ring < |run[i].rings| && Crq.WellFormed(run[i].rings[p.ring])
        && (p.ticket in run[i].rings[p.ring].ledger.taken
            || Crq.At(run[i].rings[p.ring], p.ticket).value == Crq.Full(run[i].log[j].x))
    {
      var p := run[i].log[j].at;
      assert DepositedAt(View(CrqApi(), run[i]), p, run[i].log[j].x);
      var q := run[i].rings[p.ring];
      if p.ticket !in q.ledger.taken { PendingItemIsInItsNode(q, p.ticket); }
    }
  }

  /** A bound on what a ring may still ask of a thread that runs alone. */
  function RingCost(): (Crq.State, Tid) -> nat {
    (q: Crq.State, b: Tid) => if Crq.WellFormed(q) && b in q.threads then CrqAlone.Cost(q, q.threads[b]) else 0
  }

  lemma CrqAnswers()
    ensures RingsAnswer(CrqApi(), q => Crq.Inv(q), RingCost())
  {
    forall q: Crq.State, b: Tid | Crq.Inv(q) && !Idle(CrqApi().view(q), b)
      ensures CrqApi().step(q, Crq.Next(q, b), b) && RingCost()(Crq.Next(q, b), b) < RingCost()(q, b)
    {
      CrqAlone.CostFalls(q, b);
    }
  }

  /** A thread that from any instant of a run on runs alone returns from its call. */
  lemma AloneReturns(run: seq<List<Crq.State>>, who: seq<Tid>, i: nat, me: Tid) returns (rest: seq<List<Crq.State>>)
    requires IsLcrRun(run, who) && i < |run| && me in run[i].threads
    ensures RunsAlone(CrqApi(), false, rest, me) && rest[0] == run[i]
    ensures me in rest[|rest| - 1].threads && Returned(rest[|rest| - 1].threads[me])
  {
    CrqRefinesTickets();
    CrqAnswers();
    RingListRefinement.EveryRunKeepsInv(CrqApi(), q => Crq.Inv(q), 0, false, run, who, i);
    rest := RingListProgress.AloneReturns(CrqApi(), q => Crq.Inv(q), 0, false, RingCost(), run[i], me);
  }
}
