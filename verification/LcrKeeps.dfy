/**
 * When LCRQueue does keep its items: exactly when no swing of `_head` leaves an item whose ticket the
 * ring's head has not passed, and no deposit comes later under such a ticket in a ring already left.
 */
module LcrKeeps {
  import opened TicketRing
  import opened RingList
  import opened RingListSafety
  import opened RingListRefinement
  import opened CrqPromises
  import opened LcrQueue
  import Crq

  // ---- One ring ----

  /** An item not yet taken has its dequeuer at its node exactly if the head has passed its ticket. */
  lemma ItemIsVisitedIffPassed(q: Crq.State, t: nat)
    requires Crq.Inv(q) && Crq.Pending(q.ledger, t)
    ensures (exists b :: AtItsNode(q, t, b)) <==> t < q.head
  {
    var r := Crq.Abs(q);
    PendingIsVisitedIffPassed(r, t);
    if b :| AtItsNode(q, t, b) { assert r.threads[b] == Crq.AbsPc(q.threads[b]) && Visits(r, b, t); }
    if b :| Visits(r, b, t) { VisitorIsAtNode(q, t, b); }
  }

  /** No node holds an item under an index that the head has not passed: a test of shared words. */
  predicate NothingAhead(q: Crq.State) {
    forall n <- q.nodes :: n.value.Full? ==> n.stamp.idx < q.head
  }

  /** Every item of a ring has its dequeuer, or has been taken, exactly if that test succeeds. */
  lemma ClaimedIffNothingAhead(q: Crq.State)
    requires Crq.Inv(q)
    ensures AllClaimed(Crq.Abs(q)) <==> NothingAhead(q)
  {
    var r := Crq.Abs(q);
    ClaimedIffPassed(r);
    forall i | 0 <= i < |q.nodes| && q.nodes[i].value.Full?
      ensures Crq.Pending(q.ledger, q.nodes[i].stamp.idx)
    {
      assert Crq.NodeAt(q, i);
    }
    forall t <- q.ledger.deposited ensures t < q.head || (Crq.At(q, t) in q.nodes && Crq.At(q, t).value.Full?
      && Crq.At(q, t).stamp.idx == t)
    {
      if t !in q.ledger.taken { PendingItemIsInItsNode(q, t); }
    }
  }

  /**
   * Sufficient, and cheaper: in a closed ring whose tail is not ahead of its head every item not yet
   * taken has its dequeuer at its node, and so has every item it may still get.
   */
  lemma PassedRingMayBeLeft(q: Crq.State)
    requires Crq.Inv(q) && q.closed && q.tail <= q.head
    ensures Drained(Crq.Abs(q)) && AllClaimed(Crq.Abs(q))
    ensures forall t :: Crq.Pending(q.ledger, t) ==> exists b :: AtItsNode(q, t, b)
  {
    var r := Crq.Abs(q);
    forall b <- r.threads | r.threads[b].Holding? ensures r.threads[b].t < r.head {
      assert PhaseOk(r, r.threads[b]);
    }
    DrainedMeansClaimed(r);
    forall t | Crq.Pending(q.ledger, t) ensures exists b :: AtItsNode(q, t, b) {
      ItemIsVisitedIffPassed(q, t);
    }
  }

  // ---- One step of the list ----

  /** What ring r may become while one thread takes one step of the list. */
  ghost predicate MovesOn(r: Ring, r': Ring) {
    && r.head <= r'.head && (Drained(r) ==> Drained(r'))
    && (forall t <- r.ledger.deposited :: t in r'.ledger.deposited)
  }

  lemma StepMovesOn(r: Ring, r': Ring, me: Tid)
    requires Valid(r) && Step(r, r', me)
    ensures MovesOn(r, r')
  {
    StepGrows(r, r', me);
    if Drained(r) { DrainedForever(r, r', me); }
  }

  lemma StartMovesOn(r: Ring, me: Tid, call: Call)
    ensures MovesOn(r, Start(r, me, call)) && Start(r, me, call).ledger == r.ledger
  {}

  lemma EnqueueMovesRing(s: List<Ring>, s': List<Ring>, me: Tid, pc: Pc, k: nat)
    requires EnqueueStep(TicketApi(0), s, s', me, pc) && Enqueues(pc) && k < |s.rings| && Valid(s.rings[k])
    ensures k < |s'.rings| && s'.head == s.head && MovesOn(s.rings[k], s'.rings[k])
  {
    if pc.EReadNext? && pc.k == k { StartMovesOn(s.rings[k], me, Enqueue(pc.x)); }
    if pc.EInRing? && pc.k == k && s'.rings[k] != s.rings[k] { StepMovesOn(s.rings[k], s'.rings[k], me); }
  }

  lemma DequeueMovesRing(s: List<Ring>, s': List<Ring>, me: Tid, pc: Pc, k: nat)
    requires DequeueStep(TicketApi(0), false, s, s', me, pc) && !Enqueues(pc) && !Returned(pc)
    requires k < |s.rings| && Valid(s.rings[k])
    ensures k < |s'.rings| && MovesOn(s.rings[k], s'.rings[k])
    ensures s'.head == s.head || (pc.DSwing? && pc.k == s.head && s'.head == s.head + 1 && s'.rings == s.rings)
  {
    if pc.DReadHead? && s.head == k { StartMovesOn(s.rings[k], me, Dequeue); }
    if pc.DInRing? && pc.k == k && s'.rings[k] != s.rings[k] { StepMovesOn(s.rings[k], s'.rings[k], me); }
  }

  /** Rings move on; only a swing moves the head, past a ring that is closed. */
  lemma ListMovesOn(s: List<Ring>, s': List<Ring>, me: Tid, k: nat)
    requires ListInv(s, 0, false) && ListStep(TicketApi(0), false, s, s', me) && k < |s.rings|
    ensures k < |s'.rings| && MovesOn(s.rings[k], s'.rings[k])
    ensures s'.head == s.head
      || (s'.head == s.head + 1 && s'.rings == s.rings && s.head < |s.rings| && s.rings[s.head].closed)
  {
    assert RingOk(s, 0, false, k);
    if me in s.threads && !Returned(s.threads[me]) {
      var pc := s.threads[me];
      if Enqueues(pc) {
        EnqueueMovesRing(s, s', me, pc, k);
      } else {
        DequeueMovesRing(s, s', me, pc, k);
        if pc.DSwing? && pc.k == s.head { assert PcOk(s, false, me, pc) && RingOk(s, 0, false, s.head); }
      }
    }
  }

  /** The same of a list of CRQs in a run. */
  lemma RunMovesOn(run: seq<List<Crq.State>>, who: seq<Tid>, i: nat, k: nat)
    requires IsLcrRun(run, who) && i < |who| && k < |run[i].rings|
    ensures k < |run[i + 1].rings| && MovesOn(Crq.Abs(run[i].rings[k]), Crq.Abs(run[i + 1].rings[k]))
    ensures run[i + 1].head == run[i].head
      || (&& run[i + 1].head == run[i].head + 1 && run[i].head < |run[i].rings| <= |run[i + 1].rings|
          && Crq.Abs(run[i + 1].rings[run[i].head]) == Crq.Abs(run[i].rings[run[i].head])
          && run[i].rings[run[i].head].closed)
    ensures Crq.Inv(run[i].rings[k]) && Crq.Inv(run[i + 1].rings[k])
  {
    var s, s' := View(CrqApi(), run[i]), View(CrqApi(), run[i + 1]);
    CrqRefinesTickets();
    EveryLcrRun(run, who, i);
    StepRefines(CrqApi(), q => Crq.Inv(q), 0, false, run[i], run[i + 1], who[i]);
    ListMovesOn(s, s', who[i], k);
  }

  // ---- Whole runs: the sufficient check ----

  /** Every swing of `_head` finds the tail of the ring it leaves not ahead of its head. */
  ghost predicate SwingsCheckTail(run: seq<List<Crq.State>>) {
    forall i: nat | i + 1 < |run| && run[i + 1].head != run[i].head :: CheckedSwing(run[i])
  }

  predicate CheckedSwing(s: List<Crq.State>) {
    s.head < |s.rings| && s.rings[s.head].tail <= s.rings[s.head].head
  }

  /** If every swing were preceded by that check, no ring left behind would ever hold an unclaimed item. */
  lemma {:induction false} CheckedSwingsLoseNothing(run: seq<List<Crq.State>>, who: seq<Tid>, i: nat, k: nat)
    requires IsLcrRun(run, who) && SwingsCheckTail(run) && i < |run| && k < run[i].head
    ensures k < |run[i].rings| && Drained(Crq.Abs(run[i].rings[k])) && AllClaimed(Crq.Abs(run[i].rings[k]))
    decreases i
  {
    EveryLcrRun(run, who, i);
    if i != 0 {
      var h := run[i - 1].head;
      EveryLcrRun(run, who, i - 1);
      RunMovesOn(run, who, i - 1, if k < h then k else h);
      if k < h {
        CheckedSwingsLoseNothing(run, who, i - 1, k);
      } else {
        assert CheckedSwing(run[i - 1]);
        PassedRingMayBeLeft(run[i - 1].rings[k]);
      }
      DrainedMeansClaimed(Crq.Abs(run[i].rings[k]));
    }
  }

  // ---- Whole runs: the exact condition ----

  /** At every instant every item of every ring left behind has been taken or has its dequeuer at its node. */
  ghost predicate KeepsItems(run: seq<List<Crq.State>>) {
    forall i: nat, k: nat | i < |run| && k < run[i].head && k < |run[i].rings| :: AllClaimed(Crq.Abs(run[i].rings[k]))
  }

  /** A swing that leaves a ring with an item ahead of the ring's head. */
  predicate HastySwing(s: List<Crq.State>, s': List<Crq.State>) {
    s'.head != s.head && s.head < |s.rings| && !NothingAhead(s.rings[s.head])
  }

  /** A deposit into a ring already left, under a ticket that the ring's head has not passed. */
  predicate LateDeposit(s: List<Crq.State>, s': List<Crq.State>, k: nat, t: nat) {
    && k < s.head && k < |s.rings| && k < |s'.rings|
    && t in s'.rings[k].ledger.deposited && t !in s.rings[k].ledger.deposited && s'.rings[k].head <= t
  }

  ghost predicate Careful(s: List<Crq.State>, s': List<Crq.State>) {
    !HastySwing(s, s') && forall k: nat, t: nat :: !LateDeposit(s, s', k, t)
  }

  lemma KeepingIsCareful(run: seq<List<Crq.State>>, who: seq<Tid>, i: nat)
    requires IsLcrRun(run, who) && KeepsItems(run) && i < |who|
    ensures Careful(run[i], run[i + 1])
  {
    var s, s' := run[i], run[i + 1];
    EveryLcrRun(run, who, i);
    EveryLcrRun(run, who, i + 1);
    RunMovesOn(run, who, i, s.head);
    if s'.head != s.head {
      assert AllClaimed(Crq.Abs(s'.rings[s.head]));
      ClaimedIffNothingAhead(s.rings[s.head]);
    }
    forall k: nat, t: nat ensures !LateDeposit(s, s', k, t) {
      if LateDeposit(s, s', k, t) {
        assert AllClaimed(Crq.Abs(s'.rings[k]));
        ClaimedIffPassed(Crq.Abs(s'.rings[k]));
        assert false;
      }
    }
  }

  lemma {:induction false} CarefulKeeps(run: seq<List<Crq.State>>, who: seq<Tid>, i: nat, k: nat)
    requires IsLcrRun(run, who) && (forall j | 0 <= j < |who| :: Careful(run[j], run[j + 1]))
    requires i < |run| && k < run[i].head && k < |run[i].rings|
    ensures AllClaimed(Crq.Abs(run[i].rings[k]))
    decreases i
  {
    if i != 0 {
      var s, s' := run[i - 1], run[i];
      EveryLcrRun(run, who, i - 1);
      RunMovesOn(run, who, i - 1, if k < s.head then k else s.head);
      assert Careful(s, s');
      if k < s.head {
        CarefulKeeps(run, who, i - 1, k);
        ClaimedIffPassed(Crq.Abs(s.rings[k]));
        forall t <- s'.rings[k].ledger.deposited ensures t < s'.rings[k].head {
          assert !LateDeposit(s, s', k, t);
        }
        ClaimedIffPassed(Crq.Abs(s'.rings[k]));
      } else {
        ClaimedIffNothingAhead(s.rings[k]);
      }
    }
  }

  /**
   * A run keeps the items of the rings it leaves exactly if no swing is hasty and no deposit into a ring
   * already left comes late.
   */
  lemma KeepsItemsIffCareful(run: seq<List<Crq.State>>, who: seq<Tid>)
    requires IsLcrRun(run, who)
    ensures KeepsItems(run) <==> forall i | 0 <= i < |who| :: Careful(run[i], run[i + 1])
  {
    if KeepsItems(run) {
      forall i | 0 <= i < |who| ensures Careful(run[i], run[i + 1]) { KeepingIsCareful(run, who, i); }
    }
    if forall i | 0 <= i < |who| :: Careful(run[i], run[i + 1]) {
      forall i: nat, k: nat | i < |run| && k < run[i].head && k < |run[i].rings|
        ensures AllClaimed(Crq.Abs(run[i].rings[k]))
      {
        CarefulKeeps(run, who, i, k);
      }
    }
  }
}
