/**
 * What a call on a list of rings returns with, whatever the ring: an enqueue has deposited the item it
 * was called with, a dequeue has taken the item it answers with, and `false` comes from an empty ring.
 */
module RingListAnswers {
  import opened TicketRing
  import opened RingList
  import opened RingListSafety
  import opened RingListRefinement

  // ---- One call in a run ----

  /** me's call that step i begins is still its latest at run[j]. */
  ghost predicate CallFrom<Q>(run: seq<List<Q>>, who: seq<Tid>, me: Tid, i: nat, j: nat) {
    && |run| == |who| + 1 && i < j < |run| && who[i] == me
    && (me in run[i].threads ==> Returned(run[i].threads[me]))
    && (forall m | i < m < j && who[m] == me :: me in run[m].threads && !Returned(run[m].threads[me]))
  }

  /** What a call was invoked with stays with it, and what kind of call it is. */
  predicate SameCall(pc: Pc, pc': Pc) {
    && pc'.since == pc.since
    && if Enqueues(pc) then (Enqueues(pc') || pc'.EDone?) && pc'.x == pc.x else !Enqueues(pc') && !pc'.EDone?
  }

  /** e is what a call that returns to pc says it has done. */
  predicate Explains(e: Event, pc: Pc) {
    && e.since == pc.since
    && match pc
       case EDone(x, _) => e.Enqueued? && e.x == x
       case DDone(x, _) => e.Dequeued? && e.x == x
       case DFalse(_) => e.FoundEmpty?
       case _ => false
  }

  /** A running call keeps what it was invoked with; the step that returns logs what was done. */
  lemma CallSteps<Q>(api: Api<Q>, recheck: Recheck, s: List<Q>, s': List<Q>, me: Tid)
    requires ListStep(api, recheck, s, s', me) && me in s.threads && !Returned(s.threads[me])
    ensures me in s'.threads && SameCall(s.threads[me], s'.threads[me])
    ensures if Returned(s'.threads[me])
            then |s'.log| == |s.log| + 1 && s'.log[..|s.log|] == s.log && Explains(s'.log[|s.log|], s'.threads[me])
            else s'.log == s.log
  {
    var pc := s.threads[me];
    if Enqueues(pc) { EnqueueCallSteps(api, s, s', me, pc); } else { DequeueCallSteps(api, recheck, s, s', me, pc); }
  }

  lemma EnqueueCallSteps<Q>(api: Api<Q>, s: List<Q>, s': List<Q>, me: Tid, pc: Pc)
    requires EnqueueStep(api, s, s', me, pc) && Enqueues(pc)
    ensures me in s'.threads && SameCall(pc, s'.threads[me])
    ensures if Returned(s'.threads[me])
            then |s'.log| == |s.log| + 1 && s'.log[..|s.log|] == s.log && Explains(s'.log[|s.log|], s'.threads[me])
            else s'.log == s.log
  {}

  lemma DequeueCallSteps<Q>(api: Api<Q>, recheck: Recheck, s: List<Q>, s': List<Q>, me: Tid, pc: Pc)
    requires DequeueStep(api, recheck, s, s', me, pc) && !Enqueues(pc) && !Returned(pc)
    ensures me in s'.threads && SameCall(pc, s'.threads[me])
    ensures if Returned(s'.threads[me])
            then |s'.log| == |s.log| + 1 && s'.log[..|s.log|] == s.log && Explains(s'.log[|s.log|], s'.threads[me])
            else s'.log == s.log
  {}

  /** Step m of the run is by me and logs e. */
  ghost predicate Logs<Q>(run: seq<List<Q>>, who: seq<Tid>, me: Tid, m: nat, e: Event) {
    m < |who| && m + 1 < |run| && who[m] == me && run[m + 1].log == run[m].log + [e]
  }

  /** Until it returns a call knows what it was invoked with; it has returned by logging what it did. */
  lemma {:induction false} CallKeeps<Q>(
    api: Api<Q>, recheck: Recheck, run: seq<List<Q>>, who: seq<Tid>, me: Tid, i: nat, j: nat)
    requires IsRun(api, recheck, run, who) && CallFrom(run, who, me, i, j)
    ensures me in run[i + 1].threads && me in run[j].threads && run[j].threads[me].since == |run[i].log|
    ensures SameCall(run[i + 1].threads[me], run[j].threads[me])
    ensures Returned(run[j].threads[me]) ==>
      exists m: nat, e | i < m < j :: Logs(run, who, me, m, e) && Explains(e, run[j].threads[me])
  {
    assert ListStep(api, recheck, run[i], run[i + 1], me);
    if i + 1 < j {
      assert CallFrom(run, who, me, i, j - 1);
      CallKeeps(api, recheck, run, who, me, i, j - 1);
      var s, s' := run[j - 1], run[j];
      assert ListStep(api, recheck, s, s', who[j - 1]);
      if who[j - 1] != me {
        OthersStay(api, recheck, s, s', who[j - 1], me);
      } else {
        CallSteps(api, recheck, s, s', me);
        if Returned(s'.threads[me]) {
          assert s'.log == s.log + [s'.log[|s.log|]];
          assert Logs(run, who, me, j - 1, s'.log[|s.log|]);
        }
      }
    }
  }

  lemma {:induction false} LogGrows<Q>(
    api: Api<Q>, recheck: Recheck, run: seq<List<Q>>, who: seq<Tid>, m: nat, j: nat)
    requires IsRun(api, recheck, run, who) && m <= j < |run|
    ensures run[m].log <= run[j].log && |run[m].rings| <= |run[j].rings|
    decreases j - m
  {
    if m < j {
      LogGrows(api, recheck, run, who, m, j - 1);
      assert ListStep(api, recheck, run[j - 1], run[j], who[j - 1]);
    }
  }

  /** x lies under position p in the ledger of its ring. */
  predicate Deposited<Q>(api: Api<Q>, s: List<Q>, p: Pos, x: Item) {
    && p.ring < |s.rings|
    && var l := api.view(s.rings[p.ring]).ledger;
       p.ticket in l.deposited && l.deposited[p.ticket] == x
  }

  predicate Taken<Q>(api: Api<Q>, s: List<Q>, p: Pos) {
    p.ring < |s.rings| && p.ticket in api.view(s.rings[p.ring]).ledger.taken
  }

  /** What the log says of an item is so in the ring it names, at the end of every run. */
  lemma LoggedIsDone<Q(!new)>(
    api: Api<Q>, inv: Q -> bool, first: nat, recheck: Recheck, run: seq<List<Q>>, who: seq<Tid>, j: nat, n: nat)
    requires RefinesTickets(api, inv, first) && IsRun(api, recheck, run, who) && j < |run| && n < |run[j].log|
    ensures var e := run[j].log[n];
      !e.FoundEmpty? ==> Deposited(api, run[j], e.at, e.x) && (e.Dequeued? ==> Taken(api, run[j], e.at))
  {
    RingListRefinement.EveryRunKeepsInv(api, inv, first, recheck, run, who, j);
    assert EventOk(View(api, run[j]), recheck, n, run[j].log[n]);
  }

  /** What was logged stays in the log, and is so. */
  lemma LoggedStays<Q(!new)>(
    api: Api<Q>, inv: Q -> bool, first: nat, recheck: Recheck, run: seq<List<Q>>, who: seq<Tid>,
    me: Tid, m: nat, e: Event, j: nat)
    requires RefinesTickets(api, inv, first) && IsRun(api, recheck, run, who)
    requires m < j < |run| && Logs(run, who, me, m, e)
    ensures !e.FoundEmpty? ==> Deposited(api, run[j], e.at, e.x) && (e.Dequeued? ==> Taken(api, run[j], e.at))
  {
    var n := |run[m].log|;
    LogGrows(api, recheck, run, who, m + 1, j);
    assert run[m + 1].log[n] == e == run[j].log[n];
    LoggedIsDone(api, inv, first, recheck, run, who, j, n);
  }

  /** The event that a call has returned with, and the step of its own that logged it. */
  lemma ReturnIsLogged<Q(!new)>(
    api: Api<Q>, inv: Q -> bool, first: nat, recheck: Recheck, run: seq<List<Q>>, who: seq<Tid>,
    me: Tid, i: nat, j: nat) returns (m: nat, e: Event)
    requires RefinesTickets(api, inv, first) && IsRun(api, recheck, run, who) && CallFrom(run, who, me, i, j)
    requires me in run[j].threads && Returned(run[j].threads[me])
    ensures i < m < j && Logs(run, who, me, m, e) && Explains(e, run[j].threads[me])
    ensures !e.FoundEmpty? ==> Deposited(api, run[j], e.at, e.x) && (e.Dequeued? ==> Taken(api, run[j], e.at))
  {
    CallKeeps(api, recheck, run, who, me, i, j);
    m, e :| i < m < j && Logs(run, who, me, m, e) && Explains(e, run[j].threads[me]);
    LoggedStays(api, inv, first, recheck, run, who, me, m, e, j);
  }

  /**
   * A call enqueue(x) that has returned has logged, by one step of its own, that it enqueued x, and x is
   * deposited there.
   */
  lemma EnqueueDeposits<Q(!new)>(
    api: Api<Q>, inv: Q -> bool, first: nat, recheck: Recheck, run: seq<List<Q>>, who: seq<Tid>,
    me: Tid, i: nat, j: nat, x: Item)
    requires RefinesTickets(api, inv, first) && IsRun(api, recheck, run, who) && CallFrom(run, who, me, i, j)
    requires me in run[i + 1].threads && run[i + 1].threads[me] == EReadTail(x, |run[i].log|)
    requires me in run[j].threads && Returned(run[j].threads[me])
    ensures run[j].threads[me] == EDone(x, |run[i].log|)
    ensures exists m: nat, p | i < m < j ::
      Logs(run, who, me, m, Enqueued(p, x, |run[i].log|)) && Deposited(api, run[j], p, x)
  {
    var m, e := ReturnIsLogged(api, inv, first, recheck, run, who, me, i, j);
    CallKeeps(api, recheck, run, who, me, i, j);
    assert e == Enqueued(e.at, x, |run[i].log|);
  }

  /**
   * A call dequeue() that has returned has logged so, by one step of its own: that it dequeued the very
   * item it answers with, which was deposited and is taken there, or that it found an empty ring.
   */
  lemma DequeueAnswers<Q(!new)>(
    api: Api<Q>, inv: Q -> bool, first: nat, recheck: Recheck, run: seq<List<Q>>, who: seq<Tid>,
    me: Tid, i: nat, j: nat)
    requires RefinesTickets(api, inv, first) && IsRun(api, recheck, run, who) && CallFrom(run, who, me, i, j)
    requires me in run[i + 1].threads && run[i + 1].threads[me] == DReadHead(|run[i].log|)
    requires me in run[j].threads && Returned(run[j].threads[me])
    ensures match run[j].threads[me]
            case DDone(x, since) =>
              since == |run[i].log| && exists m: nat, p | i < m < j ::
                && Logs(run, who, me, m, Dequeued(p, x, since))
                && Deposited(api, run[j], p, x) && Taken(api, run[j], p)
            case DFalse(since) =>
              since == |run[i].log| && exists m: nat, q | i < m < j :: Logs(run, who, me, m, FoundEmpty(q, since))
            case _ => false
  {
    var m, e := ReturnIsLogged(api, inv, first, recheck, run, who, me, i, j);
    CallKeeps(api, recheck, run, who, me, i, j);
    match run[j].threads[me]
    case DDone(x, since) => assert e == Dequeued(e.at, x, since);
    case DFalse(since) => assert e == FoundEmpty(e.quiet, since);
  }

  /** Every thread that has called has one latest call. */
  lemma {:induction false} LatestCall<Q>(
    api: Api<Q>, recheck: Recheck, run: seq<List<Q>>, who: seq<Tid>, me: Tid, j: nat) returns (i: nat)
    requires IsRun(api, recheck, run, who) && j < |run| && me in run[j].threads
    ensures CallFrom(run, who, me, i, j)
  {
    var s, s' := run[j - 1], run[j];
    assert ListStep(api, recheck, s, s', who[j - 1]);
    if who[j - 1] == me && (me in s.threads ==> Returned(s.threads[me])) {
      i := j - 1;
    } else {
      if who[j - 1] != me { OthersStay(api, recheck, s, s', who[j - 1], me); }
      i := LatestCall(api, recheck, run, who, me, j - 1);
    }
  }

  // ---- The same, of a state ----

  /** A thread that has returned has the event of its call in the log. */
  ghost predicate AnswerLogged(log: seq<Event>, pc: Pc) {
    Returned(pc) ==> exists n | pc.since <= n < |log| :: Explains(log[n], pc)
  }

  ghost predicate AnswersLogged<Q>(s: List<Q>) {
    forall b <- s.threads :: AnswerLogged(s.log, s.threads[b]) && s.threads[b].since <= |s.log|
  }

  lemma StepKeepsAnswers<Q>(api: Api<Q>, recheck: Recheck, s: List<Q>, s': List<Q>, me: Tid)
    requires AnswersLogged(s) && ListStep(api, recheck, s, s', me)
    ensures AnswersLogged(s')
  {
    if me in s.threads && !Returned(s.threads[me]) {
      CallSteps(api, recheck, s, s', me);
    }
    forall b <- s'.threads ensures AnswerLogged(s'.log, s'.threads[b]) && s'.threads[b].since <= |s'.log| {
      if b != me {
        OthersStay(api, recheck, s, s', me, b);
        if Returned(s.threads[b]) {
          var n :| s.threads[b].since <= n < |s.log| && Explains(s.log[n], s.threads[b]);
          assert s'.log[n] == s.log[n];
        }
      }
    }
  }

  // ---- Where `false` comes from ----

  /** Ring k has answered EMPTY to me, whose dequeue began when the log had length since. */
  ghost predicate Emptied(s: List<Ring>, me: Tid, since: nat, k: nat) {
    && me in s.threads && k < |s.rings|
    && (match s.threads[me]
        case DInRing(n, j, _, _) =>
          && n == since && j == k && me in s.rings[k].threads
          && (s.rings[k].threads[me].Repairing? || s.rings[k].threads[me].Empty?)
        case DReadNext(n, j, _) => n == since && j == k
        case _ => false)
  }

  /** me's dequeue is inside ring k, which is the head's, and all items there have their dequeuers. */
  ghost predicate SeesNothing(s: List<Ring>, me: Tid, since: nat, k: nat) {
    && me in s.threads && s.threads[me].DInRing? && s.threads[me].since == since && s.threads[me].k == k
    && k < |s.rings| && k <= s.head && AllClaimed(s.rings[k])
  }

  /** A step of another thread changes nothing of where me stands in its ring. */
  lemma OtherStaysInRing(
    first: nat, recheck: Recheck, s: List<Ring>, s': List<Ring>, who: Tid, me: Tid, k: nat)
    requires ListStep(TicketApi(first), recheck, s, s', who) && who != me
    requires k < |s.rings| && me in s.rings[k].threads
    ensures k < |s'.rings| && me in s'.rings[k].threads && s'.rings[k].threads[me] == s.rings[k].threads[me]
  {
    if who in s.threads && !Returned(s.threads[who]) {
      if Enqueues(s.threads[who]) {
        OtherEnqueues(first, s, s', who, me, k);
      } else {
        OtherDequeues(first, recheck, s, s', who, me, k);
      }
    }
  }

  lemma OtherEnqueues(first: nat, s: List<Ring>, s': List<Ring>, who: Tid, me: Tid, k: nat)
    requires who in s.threads && Enqueues(s.threads[who]) && who != me
    requires EnqueueStep(TicketApi(first), s, s', who, s.threads[who]) && k < |s.rings| && me in s.rings[k].threads
    ensures k < |s'.rings| && me in s'.rings[k].threads && s'.rings[k].threads[me] == s.rings[k].threads[me]
  {
    if s.threads[who].EInRing? && k == s.threads[who].k && s'.rings != s.rings {
      OnlyMine(s.rings[k], s'.rings[k], who, me);
    }
  }

  lemma OtherDequeues(first: nat, recheck: Recheck, s: List<Ring>, s': List<Ring>, who: Tid, me: Tid, k: nat)
    requires who in s.threads && !Enqueues(s.threads[who]) && !Returned(s.threads[who]) && who != me
    requires DequeueStep(TicketApi(first), recheck, s, s', who, s.threads[who])
    requires k < |s.rings| && me in s.rings[k].threads
    ensures k < |s'.rings| && me in s'.rings[k].threads && s'.rings[k].threads[me] == s.rings[k].threads[me]
  {
    if s.threads[who].DInRing? && k == s.threads[who].k && s'.rings != s.rings {
      OnlyMine(s.rings[k], s'.rings[k], who, me);
    }
  }

  /** A step in a ring is a step of one thread. */
  lemma OnlyMine(r: Ring, r': Ring, who: Tid, me: Tid)
    requires Step(r, r', who) && who != me && me in r.threads
    ensures me in r'.threads && r'.threads[me] == r.threads[me]
  {}

  lemma EmptiedByMe(first: nat, recheck: Recheck, s: List<Ring>, s': List<Ring>, me: Tid, since: nat, k: nat)
    requires ListInv(s, first, recheck) && me in s.threads && !Enqueues(s.threads[me]) && !Returned(s.threads[me])
    requires DequeueStep(TicketApi(first), recheck, s, s', me, s.threads[me]) && Emptied(s', me, since, k)
    ensures Emptied(s, me, since, k) || SeesNothing(s, me, since, k)
  {
    var pc := s.threads[me];
    assert PcOk(s, recheck, me, pc);
    assert pc.DInRing? && pc.k == k && pc.since == since;
    assert RingOk(s, first, recheck, k);
    var p := s.rings[k].threads[me];
    if p.Checking? { EmptyIsHonest(s.rings[k], s'.rings[k], me); }
  }

  lemma EmptiedBefore(
    first: nat, recheck: Recheck, s: List<Ring>, s': List<Ring>, who: Tid, me: Tid, since: nat, k: nat)
    requires ListInv(s, first, recheck) && ListStep(TicketApi(first), recheck, s, s', who)
    requires Emptied(s', me, since, k)
    ensures Emptied(s, me, since, k) || SeesNothing(s, me, since, k)
  {
    if who != me {
      OthersStay(TicketApi(first), recheck, s, s', who, me);
      assert PcOk(s, recheck, me, s.threads[me]);
      if s.threads[me].DInRing? { OtherStaysInRing(first, recheck, s, s', who, me, k); }
    } else if me in s.threads && !Returned(s.threads[me]) {
      if Enqueues(s.threads[me]) {
        EnqueueCallSteps(TicketApi(first), s, s', me, s.threads[me]);
      } else {
        EmptiedByMe(first, recheck, s, s', me, since, k);
      }
    }
  }

  /** A dequeue that ring k has answered EMPTY was in that ring when all its items had their dequeuers. */
  lemma {:induction false} EmptiedWitness<Q(!new)>(
    api: Api<Q>, inv: Q -> bool, first: nat, recheck: Recheck, run: seq<List<Q>>, who: seq<Tid>,
    i: nat, me: Tid, since: nat, k: nat)
    requires RefinesTickets(api, inv, first) && IsRun(api, recheck, run, who) && i < |run|
    requires Emptied(View(api, run[i]), me, since, k)
    ensures exists m: nat | m < i :: SeesNothing(View(api, run[m]), me, since, k)
  {
    if i != 0 {
      RingListRefinement.EveryRunKeepsInv(api, inv, first, recheck, run, who, i - 1);
      StepRefines(api, inv, first, recheck, run[i - 1], run[i], who[i - 1]);
      EmptiedBefore(first, recheck, View(api, run[i - 1]), View(api, run[i]), who[i - 1], me, since, k);
      if Emptied(View(api, run[i - 1]), me, since, k) {
        EmptiedWitness(api, inv, first, recheck, run, who, i - 1, me, since, k);
      }
    }
  }

  /** Only a null `next` after an EMPTY leads to `return false`. */
  lemma FalseStep<Q>(api: Api<Q>, recheck: Recheck, s: List<Q>, s': List<Q>, me: Tid)
    requires ListStep(api, recheck, s, s', me) && me in s.threads && !s.threads[me].DFalse?
    requires me in s'.threads && s'.threads[me].DFalse?
    ensures s.threads[me].DReadNext? && |s.rings| == s.threads[me].k + 1 && s'.threads[me].since == s.threads[me].since
  {
    if !Returned(s.threads[me]) { CallSteps(api, recheck, s, s', me); }
  }

  /**
   * `return false`: at some instant of that very call its ring was the last of the list and the head's,
   * and every item in that ring had been taken or had its dequeuer there.
   */
  lemma FalseSawLastRing<Q(!new)>(
    api: Api<Q>, inv: Q -> bool, first: nat, recheck: Recheck, run: seq<List<Q>>, who: seq<Tid>, i: nat, me: Tid)
    returns (m: nat, k: nat)
    requires RefinesTickets(api, inv, first) && IsRun(api, recheck, run, who) && i < |who| && who[i] == me
    requires me in run[i].threads && !run[i].threads[me].DFalse?
    requires me in run[i + 1].threads && run[i + 1].threads[me].DFalse?
    ensures m < i && |run[m].rings| == |run[i].rings| == k + 1 && run[m].head == k
    ensures SeesNothing(View(api, run[m]), me, run[i + 1].threads[me].since, k)
  {
    assert ListStep(api, recheck, run[i], run[i + 1], me);
    FalseStep(api, recheck, run[i], run[i + 1], me);
    k := run[i].threads[me].k;
    var since := run[i].threads[me].since;
    EmptiedWitness(api, inv, first, recheck, run, who, i, me, since, k);
    m :| m < i && SeesNothing(View(api, run[m]), me, since, k);
    LogGrows(api, recheck, run, who, m, i);
    RingListRefinement.EveryRunKeepsInv(api, inv, first, recheck, run, who, m);
  }
}
