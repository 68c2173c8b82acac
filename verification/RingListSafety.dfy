/** What every run of the ring list keeps, whatever the ring: order, no abandonment, honest emptiness. */
module RingListSafety {
  import opened TicketRing
  import opened RingList

  /** Enqueues that returned before the call that began at `since` went to rings up to k. */
  ghost predicate EnqueuedUpTo(log: seq<Event>, since: nat, k: nat) {
    forall i | 0 <= i < since && i < |log| :: log[i].Enqueued? ==> log[i].at.ring <= k
  }

  ghost predicate EnqueuedBefore(log: seq<Event>, since: nat, p: Pos) {
    forall i | 0 <= i < since && i < |log| :: log[i].Enqueued? ==> PosLt(log[i].at, p)
  }

  ghost predicate DequeuedUpTo(log: seq<Event>, since: nat, k: nat) {
    forall i | 0 <= i < since && i < |log| :: log[i].Dequeued? ==> log[i].at.ring <= k
  }

  ghost predicate DequeuedBefore(log: seq<Event>, since: nat, p: Pos) {
    forall i | 0 <= i < since && i < |log| :: log[i].Dequeued? ==> PosLt(log[i].at, p)
  }

  predicate DepositedAt(s: List<Ring>, p: Pos, x: Item) {
    && p.ring < |s.rings|
    && p.ticket in s.rings[p.ring].ledger.deposited
    && s.rings[p.ring].ledger.deposited[p.ticket] == x
  }

  predicate TakenAt(s: List<Ring>, p: Pos) {
    p.ring < |s.rings| && p.ticket in s.rings[p.ring].ledger.taken
  }

  ghost predicate Unlogged(log: seq<Event>, p: Pos, enqueue: bool) {
    forall i | 0 <= i < |log| ::
      (if enqueue then log[i].Enqueued? else log[i].Dequeued?) ==> log[i].at != p
  }

  /** An enqueuer's place inside ring k. */
  ghost predicate EnqueuerInRing(s: List<Ring>, x: Item, since: nat, k: nat, p: Phase) {
    match p
    case Enqueueing(y) => y == x
    case Holding(y, t) => y == x && EnqueuedBefore(s.log, since, Pos(k, t))
    case Accepted(y, t) =>
      y == x && EnqueuedBefore(s.log, since, Pos(k, t)) && Unlogged(s.log, Pos(k, t), true)
    case Refused(y) => y == x
    case _ => false
  }

  /** A dequeuer's place inside ring k. */
  ghost predicate DequeuerInRing(
    s: List<Ring>, recheck: Recheck, since: nat, k: nat, again: bool, quiet: bool, p: Phase)
    requires k < |s.rings|
  {
    match p
    case Dequeueing => true
    case Visiting(h) => DequeuedBefore(s.log, since, Pos(k, h))
    case Checking(_) => true
    case Got(h, _) => DequeuedBefore(s.log, since, Pos(k, h)) && Unlogged(s.log, Pos(k, h), false)
    case Repairing => recheck ==> AfterEmpty(s, k, again, quiet)
    case Empty => recheck ==> AfterEmpty(s, k, again, quiet)
    case _ => false
  }

  /** Ring k has answered EMPTY: the second time it is drained; the first time all was claimed. */
  ghost predicate AfterEmpty(s: List<Ring>, k: nat, again: bool, quiet: bool)
    requires k < |s.rings|
  {
    if again then Drained(s.rings[k]) else |s.rings| == k + 1 ==> quiet
  }

  ghost predicate PcOk(s: List<Ring>, recheck: Recheck, me: Tid, pc: Pc) {
    match pc
    case EReadTail(_, since) => since <= |s.log|
    case EReadNext(_, since, k) =>
      since <= |s.log| && k <= s.tail < |s.rings| && EnqueuedUpTo(s.log, since, k)
    case EHelp(_, since, k) => since <= |s.log| && k + 1 < |s.rings|
    case EInRing(x, since, k) =>
      && since <= |s.log| && k <= s.tail < |s.rings| && EnqueuedUpTo(s.log, since, k)
      && me in s.rings[k].threads && EnqueuerInRing(s, x, since, k, s.rings[k].threads[me])
    case ELink(_, since, k) =>
      && since <= |s.log| && k <= s.tail < |s.rings| && EnqueuedUpTo(s.log, since, k)
      && s.rings[k].closed
    case EPublish(x, since, k) =>
      && since <= |s.log| && k <= s.tail && k + 1 < |s.rings| && EnqueuedUpTo(s.log, since, k)
      && me in s.rings[k + 1].threads
      && s.rings[k + 1].threads[me] == Accepted(x, s.rings[k + 1].first)
      && Unlogged(s.log, Pos(k + 1, s.rings[k + 1].first), true)
    case DReadHead(since) => since <= |s.log|
    case DInRing(since, k, again, quiet) =>
      && since <= |s.log| && k <= s.head < |s.rings| && DequeuedUpTo(s.log, since, k)
      && (again ==> k + 1 < |s.rings|)
      && me in s.rings[k].threads
      && DequeuerInRing(s, recheck, since, k, again, quiet, s.rings[k].threads[me])
    case DReadNext(since, k, quiet) =>
      && since <= |s.log| && k <= s.head < |s.rings| && DequeuedUpTo(s.log, since, k)
      && (recheck && |s.rings| == k + 1 ==> quiet)
    case DSwing(since, k) =>
      since <= |s.log| && k + 1 < |s.rings| && (recheck ==> Drained(s.rings[k]))
    case _ => true
  }

  /** Only a call on ring k leaves its thread unanswered there. */
  ghost predicate InItsRing(s: List<Ring>, k: nat, b: Tid)
    requires k < |s.rings|
  {
    !Idle(s.rings[k], b) ==>
      && b in s.threads
      && (s.threads[b].EInRing? || s.threads[b].DInRing?) && s.threads[b].k == k
  }

  ghost predicate EventOk(s: List<Ring>, recheck: Recheck, i: nat, e: Event) {
    match e
    case Enqueued(p, x, since) =>
      since <= i && p.ring <= s.tail && DepositedAt(s, p, x) && EnqueuedBefore(s.log, since, p)
    case Dequeued(p, x, since) =>
      && since <= i && p.ring <= s.head && TakenAt(s, p) && DepositedAt(s, p, x)
      && DequeuedBefore(s.log, since, p)
    case FoundEmpty(quiet, _) => recheck ==> quiet
  }

  ghost predicate RingOk(s: List<Ring>, first: nat, recheck: Recheck, k: nat)
    requires k < |s.rings|
  {
    && Valid(s.rings[k]) && s.rings[k].first == first
    && (k + 1 < |s.rings| ==> s.rings[k].closed)
    && (recheck && k < s.head ==> Drained(s.rings[k]))
  }

  /** b's call was answered in ring k for ticket t, and b has yet to return with that answer. */
  predicate Owes(s: List<Ring>, b: Tid, k: nat, enqueue: bool, t: nat) {
    && k < |s.rings| && HasAnswer(s.rings[k], b, enqueue, t) && b in s.threads
    && var pc := s.threads[b];
       if enqueue then (pc.EInRing? && pc.k == k) || (pc.EPublish? && pc.k + 1 == k)
       else pc.DInRing? && pc.k == k
  }

  ghost predicate Logged(log: seq<Event>, p: Pos, enqueue: bool) {
    exists i | 0 <= i < |log| ::
      (if enqueue then log[i].Enqueued? else log[i].Dequeued?) && log[i].at == p
  }

  predicate InLedger(r: Ring, enqueue: bool, t: nat) {
    if enqueue then t in r.ledger.deposited else t in r.ledger.taken
  }

  /** Every deposit and every take of ring k belongs to one call that has returned or is about to. */
  ghost predicate Accounted(s: List<Ring>, k: nat, enqueue: bool, t: nat)
    requires k < |s.rings|
  {
    InLedger(s.rings[k], enqueue, t) ==>
      Logged(s.log, Pos(k, t), enqueue) || exists b :: Owes(s, b, k, enqueue, t)
  }

  ghost predicate LogDistinct(log: seq<Event>) {
    && (forall i, j | 0 <= i < j < |log| ::
          log[i].Enqueued? && log[j].Enqueued? ==> log[i].at != log[j].at)
    && (forall i, j | 0 <= i < j < |log| ::
          log[i].Dequeued? && log[j].Dequeued? ==> log[i].at != log[j].at)
  }

  ghost predicate ListInv(s: List<Ring>, first: nat, recheck: Recheck) {
    && s.head < |s.rings| && s.tail < |s.rings|
    && (forall k | 0 <= k < |s.rings| :: RingOk(s, first, recheck, k))
    && (forall b <- s.threads :: PcOk(s, recheck, b, s.threads[b]))
    && (forall k, b | 0 <= k < |s.rings| :: InItsRing(s, k, b))
    && (forall i | 0 <= i < |s.log| :: EventOk(s, recheck, i, s.log[i]))
    && (forall k, e, t | 0 <= k < |s.rings| :: Accounted(s, k, e, t))
    && LogDistinct(s.log)
  }

  // ---- What a step of one thread cannot take away from the others ----

  /** The view another thread has of ring r before and after a step of me. */
  ghost predicate RingMoves(r: Ring, r': Ring, me: Tid) {
    && Valid(r') && Grows(r, r') && (Drained(r) ==> Drained(r'))
    && (forall b :: b != me ==>
          (b in r.threads <==> b in r'.threads)
          && (b in r.threads && b in r'.threads ==> r.threads[b] == r'.threads[b]))
  }

  lemma RingStepMoves(r: Ring, r': Ring, me: Tid)
    requires Valid(r) && Step(r, r', me)
    ensures RingMoves(r, r', me)
  {
    StepKeepsValid(r, r', me);
    StepGrows(r, r', me);
    if Drained(r) { DrainedForever(r, r', me); }
  }

  lemma RingStartMoves(r: Ring, me: Tid, call: Call)
    requires Valid(r) && Idle(r, me)
    ensures RingMoves(r, Start(r, me, call), me)
  {
    StartKeepsValid(r, me, call);
  }

  ghost predicate ListMoves(s: List<Ring>, s': List<Ring>, me: Tid) {
    && |s.rings| <= |s'.rings| && s.head <= s'.head < |s'.rings| && s.tail <= s'.tail < |s'.rings|
    && (forall k | 0 <= k < |s.rings| :: RingMoves(s.rings[k], s'.rings[k], me))
    && (forall b :: b != me ==>
          && (b in s.threads <==> b in s'.threads)
          && (b in s.threads && b in s'.threads ==> s.threads[b] == s'.threads[b]))
    && LogsOwn(s, s', me)
  }

  /** The log gains at most one event, and a position only if it is the answer `me` was given. */
  ghost predicate LogsOwn(s: List<Ring>, s': List<Ring>, me: Tid) {
    || s'.log == s.log
    || (&& |s'.log| == |s.log| + 1 && s'.log == s.log + [s'.log[|s.log|]]
        && var e := s'.log[|s.log|];
           !e.FoundEmpty? ==>
             && e.at.ring < |s.rings| && HasAnswer(s.rings[e.at.ring], me, e.Enqueued?, e.at.ticket)
             && Unlogged(s.log, e.at, e.Enqueued?))
  }

  lemma UnloggedKept(s: List<Ring>, s': List<Ring>, me: Tid, b: Tid, p: Pos, enqueue: bool)
    requires LogsOwn(s, s', me) && b != me && Unlogged(s.log, p, enqueue)
    requires p.ring < |s.rings| && Valid(s.rings[p.ring]) && HasAnswer(s.rings[p.ring], b, enqueue, p.ticket)
    ensures Unlogged(s'.log, p, enqueue)
  {}

  lemma HistoryKept(s: List<Ring>, s': List<Ring>, me: Tid, since: nat, k: nat, p: Pos)
    requires LogsOwn(s, s', me) && since <= |s.log|
    ensures EnqueuedUpTo(s.log, since, k) ==> EnqueuedUpTo(s'.log, since, k)
    ensures DequeuedUpTo(s.log, since, k) ==> DequeuedUpTo(s'.log, since, k)
    ensures EnqueuedBefore(s.log, since, p) ==> EnqueuedBefore(s'.log, since, p)
    ensures DequeuedBefore(s.log, since, p) ==> DequeuedBefore(s'.log, since, p)
  {}

  lemma OtherInRingKept(s: List<Ring>, s': List<Ring>, recheck: Recheck, me: Tid, b: Tid, pc: Pc)
    requires ListMoves(s, s', me) && b != me && PcOk(s, recheck, b, pc) && (pc.EInRing? || pc.DInRing?)
    requires Valid(s.rings[pc.k])
    ensures PcOk(s', recheck, b, pc)
  {
    assert RingMoves(s.rings[pc.k], s'.rings[pc.k], me);
    var p := s.rings[pc.k].threads[b];
    HistoryKept(s, s', me, pc.since, pc.k, Pos(pc.k, p.Ticket()));
    if p.Accepted? { UnloggedKept(s, s', me, b, Pos(pc.k, p.t), true); }
    if p.Got? { UnloggedKept(s, s', me, b, Pos(pc.k, p.h), false); }
  }

  lemma OtherPcKept(s: List<Ring>, s': List<Ring>, recheck: Recheck, me: Tid, b: Tid, pc: Pc)
    requires ListMoves(s, s', me) && b != me && PcOk(s, recheck, b, pc)
    requires forall k | 0 <= k < |s.rings| :: Valid(s.rings[k])
    ensures PcOk(s', recheck, b, pc)
  {
    if pc.EInRing? || pc.DInRing? {
      OtherInRingKept(s, s', recheck, me, b, pc);
    } else if pc.EPublish? {
      assert RingMoves(s.rings[pc.k + 1], s'.rings[pc.k + 1], me);
      HistoryKept(s, s', me, pc.since, pc.k, Pos(0, 0));
      UnloggedKept(s, s', me, b, Pos(pc.k + 1, s.rings[pc.k + 1].first), true);
    } else if pc.EReadNext? || pc.ELink? || pc.DReadNext? {
      HistoryKept(s, s', me, pc.since, pc.k, Pos(0, 0));
      assert RingMoves(s.rings[pc.k], s'.rings[pc.k], me);
    } else if pc.DSwing? {
      assert RingMoves(s.rings[pc.k], s'.rings[pc.k], me);
    }
  }

  lemma OldEventKept(s: List<Ring>, s': List<Ring>, first: nat, recheck: Recheck, me: Tid, i: nat)
    requires ListInv(s, first, recheck) && ListMoves(s, s', me) && i < |s.log|
    ensures i < |s'.log| && EventOk(s', recheck, i, s'.log[i])
  {
    assert EventOk(s, recheck, i, s.log[i]);
    var e := s.log[i];
    assert s'.log[i] == e;
    if !e.FoundEmpty? {
      assert RingMoves(s.rings[e.at.ring], s'.rings[e.at.ring], me);
      HistoryKept(s, s', me, e.since, 0, e.at);
    }
  }

  lemma RingStays(r: Ring, me: Tid)
    requires Valid(r)
    ensures RingMoves(r, r, me)
  {}

  // ---- One step of me ----

  /** What a step has to establish for its own thread; the rest follows. */
  ghost predicate GoodStep(s: List<Ring>, s': List<Ring>, first: nat, recheck: Recheck, me: Tid) {
    && ListMoves(s, s', me)
    && (forall k | 0 <= k < |s'.rings| :: RingOk(s', first, recheck, k))
    && me in s'.threads && PcOk(s', recheck, me, s'.threads[me])
    && (forall k | 0 <= k < |s'.rings| :: InItsRing(s', k, me))
    && (forall k, b | |s.rings| <= k < |s'.rings| :: Idle(s'.rings[k], b))
    && (s'.log == s.log || EventOk(s', recheck, |s.log|, s'.log[|s.log|]))
    && (forall k, e, t | 0 <= k < |s.rings| && Owes(s, me, k, e, t) ::
          Owes(s', me, k, e, t) || Logged(s'.log, Pos(k, t), e))
    && (forall k, e, t | 0 <= k < |s'.rings| && InLedger(s'.rings[k], e, t) ::
          (k < |s.rings| && InLedger(s.rings[k], e, t)) || Owes(s', me, k, e, t))
  }

  lemma AccountKept(
    s: List<Ring>, s': List<Ring>, first: nat, recheck: Recheck, me: Tid, k: nat, e: bool, t: nat)
    requires ListInv(s, first, recheck) && GoodStep(s, s', first, recheck, me) && k < |s'.rings|
    ensures Accounted(s', k, e, t)
  {
    if InLedger(s'.rings[k], e, t) && !Owes(s', me, k, e, t) {
      assert Accounted(s, k, e, t);
      if Logged(s.log, Pos(k, t), e) {
        var i :| 0 <= i < |s.log| && (if e then s.log[i].Enqueued? else s.log[i].Dequeued?)
                 && s.log[i].at == Pos(k, t);
        assert s'.log[i] == s.log[i];
      } else {
        var b :| Owes(s, b, k, e, t);
        if b != me {
          assert RingMoves(s.rings[k], s'.rings[k], me);
          assert Owes(s', b, k, e, t);
        }
      }
    }
  }

  lemma GoodStepKeepsInv(s: List<Ring>, s': List<Ring>, first: nat, recheck: Recheck, me: Tid)
    requires ListInv(s, first, recheck) && GoodStep(s, s', first, recheck, me)
    ensures ListInv(s', first, recheck)
  {
    forall k | 0 <= k < |s.rings| ensures Valid(s.rings[k]) { assert RingOk(s, first, recheck, k); }
    forall b <- s'.threads ensures PcOk(s', recheck, b, s'.threads[b]) {
      if b != me {
        assert PcOk(s, recheck, b, s.threads[b]);
        OtherPcKept(s, s', recheck, me, b, s.threads[b]);
      }
    }
    forall k, b | 0 <= k < |s'.rings| ensures InItsRing(s', k, b) {
      if b != me && k < |s.rings| {
        assert InItsRing(s, k, b);
        assert RingMoves(s.rings[k], s'.rings[k], me);
      }
    }
    forall k, e, t | 0 <= k < |s'.rings| ensures Accounted(s', k, e, t) {
      AccountKept(s, s', first, recheck, me, k, e, t);
    }
    forall i | 0 <= i < |s'.log| ensures EventOk(s', recheck, i, s'.log[i]) {
      if i < |s.log| { OldEventKept(s, s', first, recheck, me, i); }
    }
  }

  /** A step that leaves all rings alone. */
  lemma ListAccess(s: List<Ring>, s': List<Ring>, first: nat, recheck: Recheck, me: Tid, pc: Pc)
    requires ListInv(s, first, recheck) && forall k | 0 <= k < |s.rings| :: Idle(s.rings[k], me)
    requires s'.rings == s.rings && s'.log == s.log && s'.threads == s.threads[me := pc]
    requires s.head <= s'.head < |s.rings| && s.tail <= s'.tail < |s.rings|
    requires recheck && s.head < s'.head ==> s'.head == s.head + 1 && Drained(s.rings[s.head])
    requires PcOk(s', recheck, me, pc) && forall k, e, t :: !Owes(s, me, k, e, t)
    ensures ListInv(s', first, recheck)
  {
    forall k | 0 <= k < |s.rings| ensures RingMoves(s.rings[k], s'.rings[k], me) && RingOk(s', first, recheck, k) {
      assert RingOk(s, first, recheck, k);
      RingStays(s.rings[k], me);
    }
    GoodStepKeepsInv(s, s', first, recheck, me);
  }

  /** A thread takes the answer it was given in ring k and returns. */
  lemma ListReturn(s: List<Ring>, s': List<Ring>, first: nat, recheck: Recheck, me: Tid, pc: Pc, e: Event)
    requires ListInv(s, first, recheck) && s'.rings == s.rings && s'.head == s.head
    requires s'.log == s.log + [e] && s'.threads == s.threads[me := pc] && Returned(pc)
    requires s.tail <= s'.tail < |s.rings|
    requires forall k | 0 <= k < |s.rings| :: Idle(s.rings[k], me)
    requires !e.FoundEmpty? ==>
      && e.at.ring < |s.rings| && HasAnswer(s.rings[e.at.ring], me, e.Enqueued?, e.at.ticket)
      && Unlogged(s.log, e.at, e.Enqueued?)
    requires EventOk(s', recheck, |s.log|, s'.log[|s.log|])
    requires forall k, w, t :: Owes(s, me, k, w, t) ==> !e.FoundEmpty? && w == e.Enqueued? && e.at == Pos(k, t)
    ensures ListInv(s', first, recheck)
  {
    assert !e.FoundEmpty? ==> s'.log[|s.log|] == e && Logged(s'.log, e.at, e.Enqueued?);
    forall k | 0 <= k < |s.rings| ensures RingMoves(s.rings[k], s'.rings[k], me) && RingOk(s', first, recheck, k) {
      assert RingOk(s, first, recheck, k);
      RingStays(s.rings[k], me);
    }
    GoodStepKeepsInv(s, s', first, recheck, me);
  }

  /** A thread begins a call on ring k. */
  lemma ListEnter(s: List<Ring>, s': List<Ring>, first: nat, recheck: Recheck, me: Tid, k: nat, call: Call, pc: Pc)
    requires ListInv(s, first, recheck) && k < |s.rings|
    requires forall j | 0 <= j < |s.rings| :: Idle(s.rings[j], me)
    requires s' == Goto(s.(rings := s.rings[k := Start(s.rings[k], me, call)]), me, pc)
    requires (pc.EInRing? || pc.DInRing?) && pc.k == k && PcOk(s', recheck, me, pc)
    requires forall k, e, t :: !Owes(s, me, k, e, t)
    ensures ListInv(s', first, recheck)
  {
    forall j | 0 <= j < |s.rings| ensures RingMoves(s.rings[j], s'.rings[j], me) && RingOk(s', first, recheck, j) {
      assert RingOk(s, first, recheck, j);
      if j == k { RingStartMoves(s.rings[k], me, call); } else { RingStays(s.rings[j], me); }
    }
    GoodStepKeepsInv(s, s', first, recheck, me);
  }

  lemma StepAccounts(r: Ring, r': Ring, me: Tid, e: bool, t: nat)
    requires Valid(r) && Step(r, r', me)
    ensures InLedger(r', e, t) ==> InLedger(r, e, t) || HasAnswer(r', me, e, t)
    ensures HasAnswer(r, me, e, t) ==> HasAnswer(r', me, e, t)
  {}

  /** A thread takes a step inside ring k. */
  lemma ListInside(s: List<Ring>, s': List<Ring>, first: nat, recheck: Recheck, me: Tid, k: nat, pc: Pc)
    requires ListInv(s, first, recheck) && k < |s.rings| == |s'.rings| && me in s.threads
    requires Step(s.rings[k], s'.rings[k], me) && s' == Goto(s.(rings := s.rings[k := s'.rings[k]]), me, pc)
    requires if s.threads[me].EInRing? then pc.EInRing? else s.threads[me].DInRing? && pc.DInRing?
    requires s.threads[me].k == k == pc.k && PcOk(s, recheck, me, s.threads[me]) && PcOk(s', recheck, me, pc)
    ensures ListInv(s', first, recheck)
  {
    forall j | 0 <= j < |s.rings| ensures RingMoves(s.rings[j], s'.rings[j], me) && RingOk(s', first, recheck, j) {
      assert RingOk(s, first, recheck, j);
      if j == k { RingStepMoves(s.rings[k], s'.rings[k], me); } else { RingStays(s.rings[j], me); }
    }
    forall j | 0 <= j < |s'.rings| ensures InItsRing(s', j, me) {
      assert InItsRing(s, j, me);
    }
    forall j, e, t | 0 <= j < |s.rings|
      ensures Owes(s, me, j, e, t) ==> Owes(s', me, j, e, t)
      ensures InLedger(s'.rings[j], e, t) ==> InLedger(s.rings[j], e, t) || Owes(s', me, j, e, t)
    {
      assert RingOk(s, first, recheck, k);
      StepAccounts(s.rings[k], s'.rings[k], me, e, t);
    }
    GoodStepKeepsInv(s, s', first, recheck, me);
  }

  lemma FreshWithFacts(first: nat, me: Tid, x: Item, b: Tid, e: bool, t: nat)
    ensures Valid(FreshWith(first, me, x)) && Idle(FreshWith(first, me, x), b)
    ensures InLedger(FreshWith(first, me, x), e, t) <==> e && t == first
    ensures HasAnswer(FreshWith(first, me, x), me, true, first)
  {}

  /** Nothing has been logged about a ring that is not yet published. */
  lemma NewRingIsUnlogged(s: List<Ring>, first: nat, recheck: Recheck, t: nat)
    requires ListInv(s, first, recheck)
    ensures Unlogged(s.log, Pos(|s.rings|, t), true)
  {
    forall i | 0 <= i < |s.log| && s.log[i].Enqueued? ensures s.log[i].at != Pos(|s.rings|, t) {
      assert EventOk(s, recheck, i, s.log[i]);
    }
  }

  /** A thread links a new ring that already holds its item. */
  lemma ListLink(s: List<Ring>, s': List<Ring>, first: nat, recheck: Recheck, me: Tid, pc: Pc)
    requires ListInv(s, first, recheck) && me in s.threads && s.threads[me] == pc && pc.ELink?
    requires |s.rings| == pc.k + 1
    requires s' == Goto(s.(rings := s.rings + [FreshWith(first, me, pc.x)]), me, EPublish(pc.x, pc.since, pc.k))
    ensures ListInv(s', first, recheck)
  {
    assert PcOk(s, recheck, me, pc);
    FreshWithFacts(first, me, pc.x, me, true, first);
    forall j | 0 <= j < |s.rings| ensures RingMoves(s.rings[j], s'.rings[j], me) && RingOk(s', first, recheck, j) {
      assert RingOk(s, first, recheck, j);
      RingStays(s.rings[j], me);
    }
    forall j | 0 <= j < |s'.rings| ensures InItsRing(s', j, me) {
      if j < |s.rings| { assert InItsRing(s, j, me); }
    }
    NewRingIsUnlogged(s, first, recheck, first);
    forall j, e, t | 0 <= j < |s'.rings| && InLedger(s'.rings[j], e, t)
      ensures (j < |s.rings| && InLedger(s.rings[j], e, t)) || Owes(s', me, j, e, t)
    {
      if j == |s.rings| { FreshWithFacts(first, me, pc.x, me, e, t); }
    }
    GoodStepKeepsInv(s, s', first, recheck, me);
  }

  lemma IdleEverywhere(s: List<Ring>, first: nat, recheck: Recheck, me: Tid)
    requires ListInv(s, first, recheck)
    requires me in s.threads && (s.threads[me].EInRing? || s.threads[me].DInRing?) ==>
      s.threads[me].k < |s.rings| && Idle(s.rings[s.threads[me].k], me)
    ensures forall k | 0 <= k < |s.rings| :: Idle(s.rings[k], me)
  {
    forall k | 0 <= k < |s.rings| ensures Idle(s.rings[k], me) {
      assert InItsRing(s, k, me);
    }
  }

  lemma PastEvents(s: List<Ring>, first: nat, recheck: Recheck, since: nat)
    requires ListInv(s, first, recheck)
    ensures EnqueuedUpTo(s.log, since, s.tail) && DequeuedUpTo(s.log, since, s.head)
  {
  }

  /** A ticket drawn now comes after all positions already logged in this ring. */
  lemma NextTicketIsLater(s: List<Ring>, first: nat, recheck: Recheck, since: nat, k: nat)
    requires ListInv(s, first, recheck) && k < |s.rings|
    ensures EnqueuedUpTo(s.log, since, k) ==> EnqueuedBefore(s.log, since, Pos(k, s.rings[k].tail))
    ensures DequeuedUpTo(s.log, since, k) ==> DequeuedBefore(s.log, since, Pos(k, s.rings[k].head))
  {
    assert RingOk(s, first, recheck, k);
  }

  lemma FreshAnswerIsUnlogged(s: List<Ring>, first: nat, recheck: Recheck, k: nat, t: nat)
    requires ListInv(s, first, recheck) && k < |s.rings|
    ensures t !in s.rings[k].ledger.deposited ==> Unlogged(s.log, Pos(k, t), true)
    ensures t !in s.rings[k].ledger.taken ==> Unlogged(s.log, Pos(k, t), false)
  {
  }

  lemma EnqueueInsideOk(s: List<Ring>, s': List<Ring>, first: nat, recheck: Recheck, me: Tid, pc: Pc)
    requires ListInv(s, first, recheck) && pc.EInRing? && PcOk(s, recheck, me, pc)
    requires s'.log == s.log && s'.tail == s.tail && |s'.rings| == |s.rings|
    requires Step(s.rings[pc.k], s'.rings[pc.k], me)
    ensures PcOk(s', recheck, me, pc)
  {
    var p := s.rings[pc.k].threads[me];
    NextTicketIsLater(s, first, recheck, pc.since, pc.k);
    FreshAnswerIsUnlogged(s, first, recheck, pc.k, p.Ticket());
  }

  lemma EmptyMeansQuiet(s: List<Ring>, s': List<Ring>, first: nat, me: Tid, k: nat)
    requires ListInv(s, first, true) && k <= s.head && |s.rings| == k + 1
    requires |s'.rings| == |s.rings| && Step(s.rings[k], s'.rings[k], me)
    requires AnswersEmpty(s.rings[k], s'.rings[k], me)
    ensures forall j | 0 <= j < |s.rings| :: AllClaimed(s.rings[j])
  {
    forall j | 0 <= j < |s.rings| ensures AllClaimed(s.rings[j]) {
      assert RingOk(s, first, true, j);
      if j == k { EmptyIsHonest(s.rings[k], s'.rings[k], me); } else { DrainedMeansClaimed(s.rings[j]); }
    }
  }

  /** The moment ring k answers EMPTY: the second time it is drained, the first time all is claimed. */
  lemma EmptyAnswerOk(s: List<Ring>, s': List<Ring>, first: nat, me: Tid, k: nat, again: bool)
    requires ListInv(s, first, true) && k <= s.head && |s'.rings| == |s.rings|
    requires again ==> k + 1 < |s.rings|
    requires Step(s.rings[k], s'.rings[k], me) && AnswersEmpty(s.rings[k], s'.rings[k], me)
    ensures AfterEmpty(s', k, again, forall j | 0 <= j < |s.rings| :: AllClaimed(s.rings[j]))
  {
    assert RingOk(s, first, true, k);
    if again {
      ClosedAndEmptyIsDrained(s.rings[k], s'.rings[k], me);
    } else if |s.rings| == k + 1 {
      EmptyMeansQuiet(s, s', first, me, k);
    }
  }

  lemma StillAfterEmpty(s: List<Ring>, s': List<Ring>, me: Tid, k: nat, again: bool, quiet: bool)
    requires k < |s.rings| == |s'.rings| && Valid(s.rings[k]) && Step(s.rings[k], s'.rings[k], me)
    requires AfterEmpty(s, k, again, quiet)
    ensures AfterEmpty(s', k, again, quiet)
  {
    if again { DrainedForever(s.rings[k], s'.rings[k], me); }
  }

  lemma DequeueInsideHistory(
    s: List<Ring>, first: nat, recheck: Recheck, r': Ring, me: Tid, since: nat, k: nat, again: bool, quiet: bool)
    requires ListInv(s, first, recheck) && PcOk(s, recheck, me, DInRing(since, k, again, quiet))
    requires Step(s.rings[k], r', me)
    ensures me in r'.threads
    ensures match r'.threads[me]
            case Visiting(h) => DequeuedBefore(s.log, since, Pos(k, h))
            case Got(h, _) => DequeuedBefore(s.log, since, Pos(k, h)) && Unlogged(s.log, Pos(k, h), false)
            case p => p.Dequeueing? || p.Checking? || p.Repairing? || p.Empty?
  {
    assert RingOk(s, first, recheck, k);
    NextTicketIsLater(s, first, recheck, since, k);
    FreshAnswerIsUnlogged(s, first, recheck, k, s.rings[k].threads[me].Ticket());
  }

  lemma DequeueInsideEmpty(
    s: List<Ring>, s': List<Ring>, first: nat, me: Tid,
    since: nat, k: nat, again: bool, quiet: bool, quiet': bool)
    requires ListInv(s, first, true) && PcOk(s, true, me, DInRing(since, k, again, quiet))
    requires |s'.rings| == |s.rings| && Step(s.rings[k], s'.rings[k], me)
    requires quiet' == if AnswersEmpty(s.rings[k], s'.rings[k], me)
                       then (forall j | 0 <= j < |s.rings| :: AllClaimed(s.rings[j])) else quiet
    requires s'.rings[k].threads[me].Repairing? || s'.rings[k].threads[me].Empty?
    ensures AfterEmpty(s', k, again, quiet')
  {
    if AnswersEmpty(s.rings[k], s'.rings[k], me) {
      EmptyAnswerOk(s, s', first, me, k, again);
    } else {
      assert RingOk(s, first, true, k);
      StillAfterEmpty(s, s', me, k, again, quiet);
    }
  }

  lemma DequeueInsideOk(
    s: List<Ring>, s': List<Ring>, first: nat, recheck: Recheck, me: Tid,
    since: nat, k: nat, again: bool, quiet: bool, quiet': bool)
    requires ListInv(s, first, recheck) && PcOk(s, recheck, me, DInRing(since, k, again, quiet))
    requires s'.log == s.log && s'.head == s.head && |s'.rings| == |s.rings|
    requires Step(s.rings[k], s'.rings[k], me)
    requires quiet' == if AnswersEmpty(s.rings[k], s'.rings[k], me)
                       then (forall j | 0 <= j < |s.rings| :: AllClaimed(s.rings[j])) else quiet
    ensures PcOk(s', recheck, me, DInRing(since, k, again, quiet'))
  {
    DequeueInsideHistory(s, first, recheck, s'.rings[k], me, since, k, again, quiet);
    if recheck && (s'.rings[k].threads[me].Repairing? || s'.rings[k].threads[me].Empty?) {
      DequeueInsideEmpty(s, s', first, me, since, k, again, quiet, quiet');
    }
  }

  lemma EnqueueInRingKeepsInv(s: List<Ring>, s': List<Ring>, first: nat, recheck: Recheck, me: Tid, pc: Pc)
    requires ListInv(s, first, recheck) && me in s.threads && pc == s.threads[me] && pc.EInRing?
    requires EnqueueStep(TicketApi(first), s, s', me, pc)
    ensures ListInv(s', first, recheck)
  {
    assert PcOk(s, recheck, me, pc);
    var k := pc.k;
    var p := s.rings[k].threads[me];
    assert RingOk(s, first, recheck, k) && PhaseOk(s.rings[k], p);
    if p.Accepted? {
      IdleEverywhere(s, first, recheck, me);
      ListReturn(s, s', first, recheck, me, EDone(pc.x, pc.since), Enqueued(Pos(k, p.t), pc.x, pc.since));
    } else if p.Refused? {
      IdleEverywhere(s, first, recheck, me);
      ListAccess(s, s', first, recheck, me, ELink(pc.x, pc.since, k));
    } else {
      EnqueueInsideOk(s, s', first, recheck, me, pc);
      ListInside(s, s', first, recheck, me, k, pc);
    }
  }

  lemma DequeueInsideKeepsInv(s: List<Ring>, s': List<Ring>, first: nat, recheck: Recheck, me: Tid, pc: Pc)
    requires ListInv(s, first, recheck) && me in s.threads && pc == s.threads[me] && pc.DInRing?
    requires DequeueStep(TicketApi(first), recheck, s, s', me, pc)
    requires PcOk(s, recheck, me, pc) && !s.rings[pc.k].threads[me].Got? && !s.rings[pc.k].threads[me].Empty?
    ensures ListInv(s', first, recheck)
  {
    var k := pc.k;
    var quiet := if AnswersEmpty(s.rings[k], s'.rings[k], me)
                 then (forall j | 0 <= j < |s.rings| :: AllClaimed(s.rings[j])) else pc.quiet;
    DequeueInsideOk(s, s', first, recheck, me, pc.since, k, pc.again, pc.quiet, quiet);
    ListInside(s, s', first, recheck, me, k, DInRing(pc.since, k, pc.again, quiet));
  }

  lemma DequeueInRingKeepsInv(s: List<Ring>, s': List<Ring>, first: nat, recheck: Recheck, me: Tid, pc: Pc)
    requires ListInv(s, first, recheck) && me in s.threads && pc == s.threads[me] && pc.DInRing?
    requires DequeueStep(TicketApi(first), recheck, s, s', me, pc)
    ensures ListInv(s', first, recheck)
  {
    assert PcOk(s, recheck, me, pc);
    var k := pc.k;
    var p := s.rings[k].threads[me];
    if !p.Got? && !p.Empty? {
      DequeueInsideKeepsInv(s, s', first, recheck, me, pc);
    } else {
      IdleEverywhere(s, first, recheck, me);
      if p.Got? {
        assert RingOk(s, first, recheck, k) && PhaseOk(s.rings[k], p);
        ListReturn(s, s', first, recheck, me, DDone(p.x, pc.since), Dequeued(Pos(k, p.h), p.x, pc.since));
      } else {
        ListAccess(s, s', first, recheck, me,
          if pc.again then DSwing(pc.since, k) else DReadNext(pc.since, k, pc.quiet));
      }
    }
  }

  /** The enqueuer that linked ring k + 1 swings the tail to it and returns. */
  lemma PublishKeepsInv(s: List<Ring>, s': List<Ring>, first: nat, recheck: Recheck, me: Tid, pc: Pc)
    requires ListInv(s, first, recheck) && me in s.threads && pc == s.threads[me] && pc.EPublish?
    requires EnqueueStep(TicketApi(first), s, s', me, pc)
    ensures ListInv(s', first, recheck)
  {
    assert PcOk(s, recheck, me, pc);
    PastEvents(s, first, recheck, pc.since);
    IdleEverywhere(s, first, recheck, me);
    assert RingOk(s, first, recheck, pc.k + 1) && PhaseOk(s.rings[pc.k + 1], s.rings[pc.k + 1].threads[me]);
    ListReturn(s, s', first, recheck, me, EDone(pc.x, pc.since), Enqueued(Pos(pc.k + 1, first), pc.x, pc.since));
  }

  lemma EnqueueStepKeepsInv(s: List<Ring>, s': List<Ring>, first: nat, recheck: Recheck, me: Tid, pc: Pc)
    requires ListInv(s, first, recheck) && me in s.threads && pc == s.threads[me] && Enqueues(pc)
    requires EnqueueStep(TicketApi(first), s, s', me, pc)
    ensures ListInv(s', first, recheck)
  {
    assert PcOk(s, recheck, me, pc);
    if pc.EInRing? {
      EnqueueInRingKeepsInv(s, s', first, recheck, me, pc);
    } else if pc.EPublish? {
      PublishKeepsInv(s, s', first, recheck, me, pc);
    } else {
      PastEvents(s, first, recheck, pc.since);
      IdleEverywhere(s, first, recheck, me);
      if pc.ELink? && |s.rings| == pc.k + 1 {
        ListLink(s, s', first, recheck, me, pc);
      } else if pc.EReadNext? && pc.k + 1 == |s.rings| {
        ListEnter(s, s', first, recheck, me, pc.k, Enqueue(pc.x), EInRing(pc.x, pc.since, pc.k));
      } else {
        ListAccess(s, s', first, recheck, me, s'.threads[me]);
      }
    }
  }

  lemma DequeueStepKeepsInv(s: List<Ring>, s': List<Ring>, first: nat, recheck: Recheck, me: Tid, pc: Pc)
    requires ListInv(s, first, recheck) && me in s.threads && pc == s.threads[me]
    requires !Returned(pc) && !Enqueues(pc)
    requires DequeueStep(TicketApi(first), recheck, s, s', me, pc)
    ensures ListInv(s', first, recheck)
  {
    assert PcOk(s, recheck, me, pc);
    PastEvents(s, first, recheck, pc.since);
    match pc
    case DInRing(since, k, again, quiet) => DequeueInRingKeepsInv(s, s', first, recheck, me, pc);
    case DReadHead(since) =>
      IdleEverywhere(s, first, recheck, me);
      ListEnter(s, s', first, recheck, me, s.head, Dequeue, DInRing(since, s.head, false, false));
    case DReadNext(since, k, quiet) =>
      IdleEverywhere(s, first, recheck, me);
      if k + 1 == |s.rings| {
        ListReturn(s, s', first, recheck, me, DFalse(since), FoundEmpty(quiet, since));
      } else if recheck {
        ListEnter(s, s', first, recheck, me, k, Dequeue, DInRing(since, k, true, false));
      } else {
        ListAccess(s, s', first, recheck, me, DSwing(since, k));
      }
    case DSwing(since, k) =>
      IdleEverywhere(s, first, recheck, me);
      ListAccess(s, s', first, recheck, me, DReadHead(since));
  }

  lemma StepKeepsInv(s: List<Ring>, s': List<Ring>, first: nat, recheck: Recheck, me: Tid)
    requires ListInv(s, first, recheck) && ListStep(TicketApi(first), recheck, s, s', me)
    ensures ListInv(s', first, recheck)
  {
    if me !in s.threads || Returned(s.threads[me]) {
      IdleEverywhere(s, first, recheck, me);
      ListAccess(s, s', first, recheck, me, s'.threads[me]);
    } else if Enqueues(s.threads[me]) {
      EnqueueStepKeepsInv(s, s', first, recheck, me, s.threads[me]);
    } else {
      DequeueStepKeepsInv(s, s', first, recheck, me, s.threads[me]);
    }
  }

  lemma {:induction false} EveryRunKeepsInv(
    first: nat, recheck: Recheck, run: seq<List<Ring>>, who: seq<Tid>, i: nat)
    requires IsRun(TicketApi(first), recheck, run, who) && i < |run|
    ensures ListInv(run[i], first, recheck)
  {
    if i == 0 {
      FreshIsValid(first);
      assert RingOk(run[0], first, recheck, 0);
    } else {
      EveryRunKeepsInv(first, recheck, run, who, i - 1);
      StepKeepsInv(run[i - 1], run[i], first, recheck, who[i - 1]);
    }
  }

  // ---- What the log of a run says ----

  /** The call logged at j began after the call logged at i had returned. */
  predicate Follows(log: seq<Event>, i: nat, j: nat) {
    i < |log| && j < |log| && i < log[j].since
  }

  ghost predicate OrderedLog(log: seq<Event>) {
    && (forall i: nat, j: nat :: Follows(log, i, j) && log[i].Enqueued? && log[j].Enqueued? ==>
          PosLt(log[i].at, log[j].at))
    && (forall i: nat, j: nat :: Follows(log, i, j) && log[i].Dequeued? && log[j].Dequeued? ==>
          PosLt(log[i].at, log[j].at))
    && LogDistinct(log)
    && (forall i, j | 0 <= i < |log| && 0 <= j < |log| ::
          log[i].Enqueued? && log[j].Dequeued? && log[i].at == log[j].at ==> log[i].x == log[j].x)
  }

  lemma LogIsOrdered(s: List<Ring>, first: nat, recheck: Recheck)
    requires ListInv(s, first, recheck)
    ensures OrderedLog(s.log)
  {
    forall i: nat, j: nat | Follows(s.log, i, j)
      ensures s.log[i].Enqueued? && s.log[j].Enqueued? ==> PosLt(s.log[i].at, s.log[j].at)
      ensures s.log[i].Dequeued? && s.log[j].Dequeued? ==> PosLt(s.log[i].at, s.log[j].at)
    {
      assert EventOk(s, recheck, j, s.log[j]);
    }
    forall i, j | 0 <= i < |s.log| && 0 <= j < |s.log|
      ensures s.log[i].Enqueued? && s.log[j].Dequeued? && s.log[i].at == s.log[j].at ==> s.log[i].x == s.log[j].x
    {
      assert EventOk(s, recheck, i, s.log[i]) && EventOk(s, recheck, j, s.log[j]);
    }
  }

  /**
   * Real-time FIFO: x was enqueued before the enqueue of y began, and y was dequeued before the
   * dequeue logged at n began. Then that dequeue does not return this x.
   */
  lemma NoOvertaking(log: seq<Event>, x: nat, y: nat, m: nat, n: nat)
    requires OrderedLog(log)
    requires Follows(log, x, y) && log[x].Enqueued? && log[y].Enqueued?
    requires Follows(log, m, n) && log[m].Dequeued? && log[n].Dequeued? && log[m].at == log[y].at
    ensures log[n].at != log[x].at
  {
    assert PosLt(log[x].at, log[y].at) && PosLt(log[m].at, log[n].at);
  }

  /**
   * The deposit under ticket t of ring k belongs to one enqueue: to the one logged there, or, exclusively,
   * to the one thread that has been answered and is about to return.
   */
  ghost predicate DepositedByOneEnqueue(s: List<Ring>, k: nat, t: nat) {
    && (Logged(s.log, Pos(k, t), true) <==> !exists b :: Owes(s, b, k, true, t))
    && (forall a, b :: Owes(s, a, k, true, t) && Owes(s, b, k, true, t) ==> a == b)
    && (forall i, j | 0 <= i < |s.log| && 0 <= j < |s.log| ::
          s.log[i].Enqueued? && s.log[j].Enqueued? && s.log[i].at == s.log[j].at == Pos(k, t) ==> i == j)
  }

  /**
   * The take of ticket t of ring k belongs to one dequeue: to the one logged there, or, exclusively, to
   * the one thread that has been answered and is about to return.
   */
  ghost predicate TakenByOneDequeue(s: List<Ring>, k: nat, t: nat) {
    && (Logged(s.log, Pos(k, t), false) <==> !exists b :: Owes(s, b, k, false, t))
    && (forall a, b :: Owes(s, a, k, false, t) && Owes(s, b, k, false, t) ==> a == b)
    && (forall i, j | 0 <= i < |s.log| && 0 <= j < |s.log| ::
          s.log[i].Dequeued? && s.log[j].Dequeued? && s.log[i].at == s.log[j].at == Pos(k, t) ==> i == j)
  }

  lemma OwedIsUnlogged(s: List<Ring>, first: nat, recheck: Recheck, k: nat, t: nat, b: Tid, enqueue: bool)
    requires ListInv(s, first, recheck) && Owes(s, b, k, enqueue, t)
    ensures !Logged(s.log, Pos(k, t), enqueue)
  {
    assert PcOk(s, recheck, b, s.threads[b]);
  }

  lemma EachDepositIsOneEnqueue(s: List<Ring>, first: nat, recheck: Recheck, k: nat, t: nat)
    requires ListInv(s, first, recheck) && k < |s.rings| && t in s.rings[k].ledger.deposited
    ensures DepositedByOneEnqueue(s, k, t)
  {
    assert Accounted(s, k, true, t) && RingOk(s, first, recheck, k);
    forall b | Owes(s, b, k, true, t) ensures !Logged(s.log, Pos(k, t), true) {
      OwedIsUnlogged(s, first, recheck, k, t, b, true);
    }
  }

  lemma EachTakeIsOneDequeue(s: List<Ring>, first: nat, recheck: Recheck, k: nat, t: nat)
    requires ListInv(s, first, recheck) && k < |s.rings| && t in s.rings[k].ledger.taken
    ensures TakenByOneDequeue(s, k, t)
  {
    assert Accounted(s, k, false, t) && RingOk(s, first, recheck, k);
    forall b | Owes(s, b, k, false, t) ensures !Logged(s.log, Pos(k, t), false) {
      OwedIsUnlogged(s, first, recheck, k, t, b, false);
    }
  }

  /**
   * Conservation. An item enqueued was deposited, and an item dequeued was deposited and taken, at the
   * position logged; every deposit is that of exactly one enqueue, and every take that of exactly one
   * dequeue, which has returned or is about to.
   */
  ghost predicate Conserved(s: List<Ring>) {
    && (forall i | 0 <= i < |s.log| && s.log[i].Enqueued? :: DepositedAt(s, s.log[i].at, s.log[i].x))
    && (forall i | 0 <= i < |s.log| && s.log[i].Dequeued? ::
          DepositedAt(s, s.log[i].at, s.log[i].x) && TakenAt(s, s.log[i].at))
    && (forall k, t | 0 <= k < |s.rings| && t in s.rings[k].ledger.deposited :: DepositedByOneEnqueue(s, k, t))
    && (forall k, t | 0 <= k < |s.rings| && t in s.rings[k].ledger.taken ::
          t in s.rings[k].ledger.deposited && TakenByOneDequeue(s, k, t))
  }

  lemma ItemsAreConserved(s: List<Ring>, first: nat, recheck: Recheck)
    requires ListInv(s, first, recheck)
    ensures Conserved(s)
  {
    forall i | 0 <= i < |s.log| && !s.log[i].FoundEmpty?
      ensures DepositedAt(s, s.log[i].at, s.log[i].x)
      ensures s.log[i].Dequeued? ==> TakenAt(s, s.log[i].at)
    {
      assert EventOk(s, recheck, i, s.log[i]);
    }
    forall k, t | 0 <= k < |s.rings| && t in s.rings[k].ledger.deposited ensures DepositedByOneEnqueue(s, k, t) {
      EachDepositIsOneEnqueue(s, first, recheck, k, t);
    }
    forall k, t | 0 <= k < |s.rings| && t in s.rings[k].ledger.taken
      ensures t in s.rings[k].ledger.deposited && TakenByOneDequeue(s, k, t)
    {
      assert RingOk(s, first, recheck, k);
      EachTakeIsOneDequeue(s, first, recheck, k, t);
    }
  }

  /**
   * No older item is skipped: once an item has been returned, every item at an earlier position is
   * taken or has its own dequeuer at its cell.
   */
  lemma OlderItemsAreClaimed(s: List<Ring>, first: nat, j: nat, p: Pos, x: Item)
    requires ListInv(s, first, true) && j < |s.log| && s.log[j].Dequeued?
    requires PosLt(p, s.log[j].at) && DepositedAt(s, p, x) && !TakenAt(s, p)
    ensures exists b :: Visits(s.rings[p.ring], b, p.ticket)
  {
    assert EventOk(s, true, j, s.log[j]);
    var r := s.rings[p.ring];
    assert RingOk(s, first, true, p.ring);
    if p.ring < s.log[j].at.ring { DrainedMeansClaimed(r); }
    PendingIsVisitedIffPassed(r, p.ticket);
  }

  /** b is inside a ring on behalf of the dequeue that began when the log had length `since`. */
  predicate InDequeue<Q>(s: List<Q>, b: Tid, since: nat) {
    b in s.threads && s.threads[b].DInRing? && s.threads[b].since == since
  }

  predicate Quiet(pc: Pc, since: nat) {
    (pc.DInRing? || pc.DReadNext?) && pc.quiet && pc.since == since
  }

  lemma OthersStay<Q>(api: Api<Q>, recheck: Recheck, s: List<Q>, s': List<Q>, who: Tid, me: Tid)
    requires ListStep(api, recheck, s, s', who) && who != me
    ensures me in s.threads <==> me in s'.threads
    ensures me in s.threads ==> s'.threads[me] == s.threads[me]
  {}

  lemma EnqueuesStay<Q>(api: Api<Q>, s: List<Q>, s': List<Q>, me: Tid, pc: Pc)
    requires EnqueueStep(api, s, s', me, pc) && Enqueues(pc) && me in s'.threads
    ensures Enqueues(s'.threads[me]) || s'.threads[me].EDone? || s'.threads == s.threads
  {}

  lemma QuietBeforeMine<Q>(api: Api<Q>, recheck: Recheck, s: List<Q>, s': List<Q>, me: Tid, since: nat)
    requires me in s.threads && DequeueStep(api, recheck, s, s', me, s.threads[me])
    requires me in s'.threads && Quiet(s'.threads[me], since)
    ensures Quiet(s.threads[me], since) || (EverythingClaimed(api, s) && InDequeue(s, me, since))
  {}

  /** `quiet` is set only by a step inside a ring, at an instant when every item is claimed. */
  lemma QuietBefore<Q>(api: Api<Q>, recheck: Recheck, s: List<Q>, s': List<Q>, who: Tid, me: Tid, since: nat)
    requires ListStep(api, recheck, s, s', who) && me in s'.threads && Quiet(s'.threads[me], since)
    ensures me in s.threads
    ensures Quiet(s.threads[me], since) || (EverythingClaimed(api, s) && InDequeue(s, me, since))
  {
    if who != me {
      OthersStay(api, recheck, s, s', who, me);
    } else if me in s.threads && !Returned(s.threads[me]) {
      if Enqueues(s.threads[me]) {
        EnqueuesStay(api, s, s', me, s.threads[me]);
      } else {
        QuietBeforeMine(api, recheck, s, s', me, since);
      }
    }
  }

  /** A dequeue that has `quiet` set was in a ring at an instant when every item was claimed. */
  lemma {:induction false} QuietWitness<Q>(
    api: Api<Q>, recheck: Recheck, run: seq<List<Q>>, who: seq<Tid>, i: nat, me: Tid, since: nat)
    requires IsRun(api, recheck, run, who) && i < |run| && me in run[i].threads
    requires Quiet(run[i].threads[me], since)
    ensures exists m | 0 <= m < i :: EverythingClaimed(api, run[m]) && InDequeue(run[m], me, since)
  {
    if i != 0 {
      QuietBefore(api, recheck, run[i - 1], run[i], who[i - 1], me, since);
      if Quiet(run[i - 1].threads[me], since) {
        QuietWitness(api, recheck, run, who, i - 1, me, since);
      }
    }
  }
}
