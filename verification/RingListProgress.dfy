/** A thread that runs alone on a list of rings returns, provided that rings answer threads that run alone. */
module RingListProgress {
  import opened TicketRing
  import opened RingList
  import opened RingListSafety
  import opened RingListRefinement

  /** A running call on a ring always has a step that brings its answer nearer. */
  ghost predicate RingsAnswer<Q(!new)>(api: Api<Q>, inv: Q -> bool, cost: (Q, Tid) -> nat) {
    forall q, me :: inv(q) && !Idle(api.view(q), me) ==>
      exists q' :: api.step(q, q', me) && cost(q', me) < cost(q, me)
  }

  /** From run[0] on only me takes steps, all of them in its running call. */
  ghost predicate RunsAlone<Q>(api: Api<Q>, recheck: Recheck, run: seq<List<Q>>, me: Tid) {
    && run != []
    && (forall i | 0 <= i < |run| - 1 ::
          me in run[i].threads && !Returned(run[i].threads[me]) && ListStep(api, recheck, run[i], run[i + 1], me))
  }

  /** The rings that a call may still have to move past. */
  function RingsLeft<Q>(s: List<Q>, pc: Pc): nat {
    if pc.EPublish? then 0
    else if Enqueues(pc) then (if s.tail < |s.rings| then |s.rings| - s.tail else 0)
    else (if s.head < |s.rings| then |s.rings| - s.head else 0)
  }

  /** The accesses to the list until the call has moved past a ring; one that lags behind has more. */
  function Rank<Q>(s: List<Q>, pc: Pc): nat {
    match pc
    case EReadTail(_, _) => 5
    case EReadNext(_, _, k) => if k == s.tail then 4 else 8
    case EHelp(_, _, k) => if k == s.tail then 3 else 7
    case EInRing(_, _, k) => if k + 1 == |s.rings| then 3 else 7
    case ELink(_, _, k) => if k + 1 == |s.rings| then 2 else 6
    case DReadHead(_) => 6
    case DInRing(_, k, again, _) => (if k == s.head then 0 else 10) + (if again then 3 else 5)
    case DReadNext(_, k, _) => if k == s.head then 4 else 14
    case DSwing(_, k) => if k == s.head then 2 else 12
    case _ => 0
  }

  function RingCost<Q>(cost: (Q, Tid) -> nat, s: List<Q>, me: Tid, pc: Pc): nat {
    if (pc.EInRing? || pc.DInRing?) && pc.k < |s.rings| then cost(s.rings[pc.k], me) else 0
  }

  /** me has returned, or is nearer to that in s' than at pc in s. */
  predicate Nearer<Q>(cost: (Q, Tid) -> nat, s: List<Q>, s': List<Q>, me: Tid, pc: Pc) {
    && me in s'.threads
    && var pc' := s'.threads[me];
       || Returned(pc')
       || RingsLeft(s', pc') < RingsLeft(s, pc)
       || (RingsLeft(s', pc') == RingsLeft(s, pc) && Rank(s', pc') < Rank(s, pc))
       || (&& RingsLeft(s', pc') == RingsLeft(s, pc) && Rank(s', pc') == Rank(s, pc)
           && RingCost(cost, s', me, pc') < RingCost(cost, s, me, pc))
  }

  /** An access of an enqueuer to the list itself, or to the answer of its ring. */
  lemma EnqueueOutside<Q>(api: Api<Q>, cost: (Q, Tid) -> nat, s: List<Q>, me: Tid, pc: Pc) returns (s': List<Q>)
    requires Enqueues(pc) && s.head < |s.rings| && s.tail < |s.rings|
    requires pc.EInRing? ==>
      pc.k < |s.rings| && (PhaseIn(api, s.rings[pc.k], me).Accepted? || PhaseIn(api, s.rings[pc.k], me).Refused?)
    requires pc.EReadNext? ==> pc.k <= s.tail
    requires pc.EHelp? || pc.EPublish? ==> pc.k + 1 < |s.rings|
    ensures EnqueueStep(api, s, s', me, pc) && Nearer(cost, s, s', me, pc)
  {
    match pc
    case EReadTail(x, since) => s' := Goto(s, me, EReadNext(x, since, s.tail));
    case EReadNext(x, since, k) =>
      s' := if k + 1 < |s.rings| then Goto(s, me, EHelp(x, since, k))
            else EnterRing(api, s, me, k, Enqueue(x), EInRing(x, since, k));
    case EHelp(x, since, k) =>
      s' := Goto(if s.tail == k then s.(tail := k + 1) else s, me, EReadTail(x, since));
    case EInRing(x, since, k) =>
      match PhaseIn(api, s.rings[k], me) {
        case Accepted(_, t) => s' := Goto(Note(s, Enqueued(Pos(k, t), x, since)), me, EDone(x, since));
        case Refused(_) => s' := Goto(s, me, ELink(x, since, k));
      }
    case ELink(x, since, k) =>
      s' := if |s.rings| == k + 1
            then Goto(s.(rings := s.rings + [api.freshWith(me, x)]), me, EPublish(x, since, k))
            else Goto(s, me, EReadTail(x, since));
    case EPublish(x, since, k) =>
      s' := Goto(Note(if s.tail == k then s.(tail := k + 1) else s,
                      Enqueued(Pos(k + 1, api.view(s.rings[k + 1]).first), x, since)), me, EDone(x, since));
  }

  /** An access of a dequeuer to the list itself, or to the answer of its ring. */
  lemma DequeueOutside<Q>(
    api: Api<Q>, recheck: Recheck, cost: (Q, Tid) -> nat, s: List<Q>, me: Tid, pc: Pc) returns (s': List<Q>)
    requires !Enqueues(pc) && !Returned(pc) && s.head < |s.rings|
    requires pc.DInRing? ==>
      pc.k < |s.rings| && (PhaseIn(api, s.rings[pc.k], me).Got? || PhaseIn(api, s.rings[pc.k], me).Empty?)
    requires pc.DReadNext? ==> pc.k < |s.rings|
    requires pc.DSwing? ==> pc.k + 1 < |s.rings|
    ensures DequeueStep(api, recheck, s, s', me, pc) && Nearer(cost, s, s', me, pc)
  {
    match pc
    case DReadHead(since) => s' := EnterRing(api, s, me, s.head, Dequeue, DInRing(since, s.head, false, false));
    case DInRing(since, k, again, quiet) =>
      match PhaseIn(api, s.rings[k], me) {
        case Got(h, x) => s' := Goto(Note(s, Dequeued(Pos(k, h), x, since)), me, DDone(x, since));
        case Empty => s' := Goto(s, me, if again then DSwing(since, k) else DReadNext(since, k, quiet));
      }
    case DReadNext(since, k, quiet) =>
      s' := if k + 1 == |s.rings| then Goto(Note(s, FoundEmpty(quiet, since)), me, DFalse(since))
            else if recheck then EnterRing(api, s, me, k, Dequeue, DInRing(since, k, true, false))
            else Goto(s, me, DSwing(since, k));
    case DSwing(since, k) => s' := Goto(if s.head == k then s.(head := k + 1) else s, me, DReadHead(since));
  }

  /** A step inside a ring that brings the ring's answer nearer. */
  lemma StepInside<Q(!new)>(
    api: Api<Q>, inv: Q -> bool, recheck: Recheck, cost: (Q, Tid) -> nat, s: List<Q>, me: Tid, pc: Pc)
    returns (s': List<Q>)
    requires RingsAnswer(api, inv, cost) && AllInv(inv, s) && (pc.EInRing? || pc.DInRing?) && pc.k < |s.rings|
    requires !Idle(api.view(s.rings[pc.k]), me)
    ensures if pc.EInRing? then EnqueueStep(api, s, s', me, pc) else DequeueStep(api, recheck, s, s', me, pc)
    ensures Nearer(cost, s, s', me, pc)
  {
    var q := s.rings[pc.k];
    assert inv(q);
    var q' :| api.step(q, q', me) && cost(q', me) < cost(q, me);
    s' := s.(rings := s.rings[pc.k := q']);
    if pc.EInRing? {
      s' := Goto(s', me, pc);
    } else {
      var quiet := if AnswersEmpty(api.view(q), api.view(q'), me) then EverythingClaimed(api, s) else pc.quiet;
      s' := Goto(s', me, DInRing(pc.since, pc.k, pc.again, quiet));
    }
  }

  /** Every state of a running call has a next access of its thread, and it brings the return nearer. */
  lemma NextIsNearer<Q(!new)>(
    api: Api<Q>, inv: Q -> bool, first: nat, recheck: Recheck, cost: (Q, Tid) -> nat, s: List<Q>, me: Tid)
    returns (s': List<Q>)
    requires RingsAnswer(api, inv, cost) && AllInv(inv, s) && ListInv(View(api, s), first, recheck)
    requires me in s.threads && !Returned(s.threads[me])
    ensures ListStep(api, recheck, s, s', me) && Nearer(cost, s, s', me, s.threads[me])
  {
    var pc, v := s.threads[me], View(api, s);
    assert PcOk(v, recheck, me, pc);
    if pc.EInRing? || pc.DInRing? {
      assert v.rings[pc.k] == api.view(s.rings[pc.k]);
      if !Idle(v.rings[pc.k], me) {
        s' := StepInside(api, inv, recheck, cost, s, me, pc);
        return;
      }
    }
    if Enqueues(pc) {
      s' := EnqueueOutside(api, cost, s, me, pc);
    } else {
      s' := DequeueOutside(api, recheck, cost, s, me, pc);
    }
  }

  /** Running alone, from any reachable state, a thread returns from its call. */
  lemma {:induction false} AloneReturns<Q(!new)>(
    api: Api<Q>, inv: Q -> bool, first: nat, recheck: Recheck, cost: (Q, Tid) -> nat, s: List<Q>, me: Tid)
    returns (run: seq<List<Q>>)
    requires RefinesTickets(api, inv, first) && RingsAnswer(api, inv, cost)
    requires AllInv(inv, s) && ListInv(View(api, s), first, recheck) && me in s.threads
    ensures RunsAlone(api, recheck, run, me) && run[0] == s
    ensures me in run[|run| - 1].threads && Returned(run[|run| - 1].threads[me])
    decreases !Returned(s.threads[me]), RingsLeft(s, s.threads[me]), Rank(s, s.threads[me]),
              RingCost(cost, s, me, s.threads[me])
  {
    if Returned(s.threads[me]) {
      run := [s];
    } else {
      var s' := NextIsNearer(api, inv, first, recheck, cost, s, me);
      StepRefines(api, inv, first, recheck, s, s', me);
      StepKeepsInv(View(api, s), View(api, s'), first, recheck, me);
      var rest := AloneReturns(api, inv, first, recheck, cost, s', me);
      run := [s] + rest;
      forall i | 0 <= i < |run| - 1
        ensures me in run[i].threads && !Returned(run[i].threads[me]) && ListStep(api, recheck, run[i], run[i + 1], me)
      {
        if i != 0 { assert run[i] == rest[i - 1] && run[i + 1] == rest[i]; }
      }
    }
  }
}
