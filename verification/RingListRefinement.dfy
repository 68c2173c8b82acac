/** A list over any ring that refines the ticket ring behaves as a list of ticket rings. */
module RingListRefinement {
  import opened TicketRing
  import opened RingList
  import opened RingListSafety

  /** The ring q has an invariant inv that every operation keeps, and refines the ticket ring. */
  ghost predicate RefinesTickets<Q(!new)>(api: Api<Q>, inv: Q -> bool, first: nat) {
    && inv(api.init) && api.view(api.init) == TicketRing.Fresh(first)
    && (forall q, me, call :: inv(q) && Idle(api.view(q), me) ==>
          inv(api.begin(q, me, call)) && api.view(api.begin(q, me, call)) == Start(api.view(q), me, call))
    && (forall q, q', me :: inv(q) && api.step(q, q', me) ==>
          inv(q') && Step(api.view(q), api.view(q'), me))
    && (forall me, x ::
          inv(api.freshWith(me, x)) && api.view(api.freshWith(me, x)) == FreshWith(first, me, x))
  }

  ghost function View<Q>(api: Api<Q>, s: List<Q>): List<Ring> {
    List(seq(|s.rings|, k requires 0 <= k < |s.rings| => api.view(s.rings[k])),
         s.head, s.tail, s.threads, s.log)
  }

  ghost predicate AllInv<Q>(inv: Q -> bool, s: List<Q>) {
    forall k | 0 <= k < |s.rings| :: inv(s.rings[k])
  }

  /** One ring changes under a view. */
  lemma ViewUpdate<Q>(api: Api<Q>, s: List<Q>, s': List<Q>, k: nat)
    requires k < |s.rings| == |s'.rings| && s'.rings == s.rings[k := s'.rings[k]]
    ensures View(api, s').rings == View(api, s).rings[k := api.view(s'.rings[k])]
  {}

  lemma ViewSame<Q>(api: Api<Q>, s: List<Q>, s': List<Q>)
    requires s'.rings == s.rings
    ensures View(api, s').rings == View(api, s).rings
  {}

  lemma ViewLink<Q>(api: Api<Q>, s: List<Q>, s': List<Q>, q: Q)
    requires s'.rings == s.rings + [q]
    ensures View(api, s').rings == View(api, s).rings + [api.view(q)]
  {}

  lemma StepInRingRefines<Q(!new)>(
    api: Api<Q>, inv: Q -> bool, first: nat, s: List<Q>, s': List<Q>, me: Tid, k: nat, pc: Pc)
    requires RefinesTickets(api, inv, first) && AllInv(inv, s) && StepInRing(api, s, s', me, k, pc)
    ensures AllInv(inv, s') && StepInRing(TicketApi(first), View(api, s), View(api, s'), me, k, pc)
  {
    ViewUpdate(api, s, s', k);
    assert inv(s.rings[k]);
  }

  lemma EnterRingRefines<Q(!new)>(
    api: Api<Q>, inv: Q -> bool, first: nat, s: List<Q>, me: Tid, k: nat, call: Call, pc: Pc)
    requires RefinesTickets(api, inv, first) && AllInv(inv, s)
    requires k < |s.rings| && Idle(api.view(s.rings[k]), me)
    ensures AllInv(inv, EnterRing(api, s, me, k, call, pc))
    ensures View(api, EnterRing(api, s, me, k, call, pc)) ==
      EnterRing(TicketApi(first), View(api, s), me, k, call, pc)
  {
    ViewUpdate(api, s, EnterRing(api, s, me, k, call, pc), k);
    assert inv(s.rings[k]);
  }

  lemma EnqueueRefines<Q(!new)>(
    api: Api<Q>, inv: Q -> bool, first: nat, s: List<Q>, s': List<Q>, me: Tid, pc: Pc)
    requires RefinesTickets(api, inv, first) && AllInv(inv, s) && EnqueueStep(api, s, s', me, pc)
    requires pc.EReadNext? && pc.k < |s.rings| ==> Idle(api.view(s.rings[pc.k]), me)
    ensures AllInv(inv, s') && EnqueueStep(TicketApi(first), View(api, s), View(api, s'), me, pc)
  {
    if s'.rings == s.rings {
      ViewSame(api, s, s');
    }
    match pc
    case EReadNext(x, since, k) =>
      if k + 1 == |s.rings| {
        EnterRingRefines(api, inv, first, s, me, k, Enqueue(x), EInRing(x, since, k));
      }
    case EInRing(x, since, k) =>
      var p := PhaseIn(api, s.rings[k], me);
      if !p.Accepted? && !p.Refused? {
        StepInRingRefines(api, inv, first, s, s', me, k, pc);
      }
    case ELink(x, since, k) =>
      if |s.rings| == k + 1 {
        ViewLink(api, s, s', api.freshWith(me, x));
      }
    case _ =>
  }

  lemma ClaimedRefines<Q>(api: Api<Q>, s: List<Q>, first: nat)
    ensures EverythingClaimed(api, s) == EverythingClaimed(TicketApi(first), View(api, s))
  {
    var v := View(api, s);
    assert forall k | 0 <= k < |s.rings| ::
      AllClaimed(api.view(s.rings[k])) == AllClaimed(TicketApi(first).view(v.rings[k]));
  }

  lemma PhaseRefines<Q>(api: Api<Q>, s: List<Q>, first: nat, k: nat, me: Tid)
    requires k < |s.rings|
    ensures PhaseIn(TicketApi(first), View(api, s).rings[k], me) == PhaseIn(api, s.rings[k], me)
  {}

  lemma DequeueAnsweredRefines<Q(!new)>(
    api: Api<Q>, first: nat, recheck: Recheck, s: List<Q>, s': List<Q>, me: Tid, pc: Pc)
    requires DequeueStep(api, recheck, s, s', me, pc) && pc.DInRing?
    requires PhaseIn(api, s.rings[pc.k], me).Got? || PhaseIn(api, s.rings[pc.k], me).Empty?
    ensures s'.rings == s.rings
    ensures DequeueStep(TicketApi(first), recheck, View(api, s), View(api, s'), me, pc)
  {
    PhaseRefines(api, s, first, pc.k, me);
    ViewSame(api, s, s');
  }

  lemma DequeueInsideRefines<Q(!new)>(
    api: Api<Q>, inv: Q -> bool, first: nat, recheck: Recheck, s: List<Q>, s': List<Q>, me: Tid, pc: Pc)
    requires RefinesTickets(api, inv, first) && AllInv(inv, s) && DequeueStep(api, recheck, s, s', me, pc)
    requires pc.DInRing? && !PhaseIn(api, s.rings[pc.k], me).Got? && !PhaseIn(api, s.rings[pc.k], me).Empty?
    ensures AllInv(inv, s') && DequeueStep(TicketApi(first), recheck, View(api, s), View(api, s'), me, pc)
  {
    PhaseRefines(api, s, first, pc.k, me);
    StepInRingRefines(api, inv, first, s, s', me, pc.k, s'.threads[me]);
    ClaimedRefines(api, s, first);
  }

  lemma DequeueInRingRefines<Q(!new)>(
    api: Api<Q>, inv: Q -> bool, first: nat, recheck: Recheck, s: List<Q>, s': List<Q>, me: Tid, pc: Pc)
    requires RefinesTickets(api, inv, first) && AllInv(inv, s) && DequeueStep(api, recheck, s, s', me, pc)
    requires pc.DInRing?
    ensures AllInv(inv, s') && DequeueStep(TicketApi(first), recheck, View(api, s), View(api, s'), me, pc)
  {
    var p := PhaseIn(api, s.rings[pc.k], me);
    if p.Got? || p.Empty? {
      DequeueAnsweredRefines(api, first, recheck, s, s', me, pc);
    } else {
      DequeueInsideRefines(api, inv, first, recheck, s, s', me, pc);
    }
  }

  lemma DequeueRefines<Q(!new)>(
    api: Api<Q>, inv: Q -> bool, first: nat, recheck: Recheck, s: List<Q>, s': List<Q>, me: Tid, pc: Pc)
    requires RefinesTickets(api, inv, first) && AllInv(inv, s) && DequeueStep(api, recheck, s, s', me, pc)
    requires !pc.DInRing? ==> forall k | 0 <= k < |s.rings| :: Idle(api.view(s.rings[k]), me)
    ensures AllInv(inv, s') && DequeueStep(TicketApi(first), recheck, View(api, s), View(api, s'), me, pc)
  {
    if pc.DInRing? {
      DequeueInRingRefines(api, inv, first, recheck, s, s', me, pc);
    } else if pc.DReadHead? {
      EnterRingRefines(api, inv, first, s, me, s.head, Dequeue, DInRing(pc.since, s.head, false, false));
    } else if pc.DReadNext? && pc.k + 1 < |s.rings| && recheck {
      EnterRingRefines(api, inv, first, s, me, pc.k, Dequeue, DInRing(pc.since, pc.k, true, false));
    } else {
      ViewSame(api, s, s');
    }
  }

  lemma StepRefines<Q(!new)>(
    api: Api<Q>, inv: Q -> bool, first: nat, recheck: Recheck, s: List<Q>, s': List<Q>, me: Tid)
    requires RefinesTickets(api, inv, first) && AllInv(inv, s)
    requires ListInv(View(api, s), first, recheck) && ListStep(api, recheck, s, s', me)
    ensures AllInv(inv, s') && ListStep(TicketApi(first), recheck, View(api, s), View(api, s'), me)
  {
    var v := View(api, s);
    if me !in s.threads || Returned(s.threads[me]) {
      ViewSame(api, s, s');
    } else {
      var pc := s.threads[me];
      if !pc.EInRing? && !pc.DInRing? {
        IdleEverywhere(v, first, recheck, me);
        assert forall k | 0 <= k < |s.rings| :: v.rings[k] == api.view(s.rings[k]);
      }
      if Enqueues(pc) {
        EnqueueRefines(api, inv, first, s, s', me, pc);
      } else {
        DequeueRefines(api, inv, first, recheck, s, s', me, pc);
      }
    }
  }

  /** Every run of a list of real rings is a run of a list of ticket rings, so it keeps ListInv. */
  lemma {:induction false} EveryRunKeepsInv<Q(!new)>(
    api: Api<Q>, inv: Q -> bool, first: nat, recheck: Recheck, run: seq<List<Q>>, who: seq<Tid>, i: nat)
    requires RefinesTickets(api, inv, first) && IsRun(api, recheck, run, who) && i < |run|
    ensures AllInv(inv, run[i]) && ListInv(View(api, run[i]), first, recheck)
  {
    if i == 0 {
      var one := [View(api, run[0])];
      assert one[0].rings == [TicketRing.Fresh(first)];
      RingListSafety.EveryRunKeepsInv(first, recheck, one, [], 0);
    } else {
      EveryRunKeepsInv(api, inv, first, recheck, run, who, i - 1);
      StepRefines(api, inv, first, recheck, run[i - 1], run[i], who[i - 1]);
      StepKeepsInv(View(api, run[i - 1]), View(api, run[i]), first, recheck, who[i - 1]);
    }
  }
}
