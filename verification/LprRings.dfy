/**
 * LPRQueue as the program runs it: a growing list of PRQ objects, each updated in place, one access
 * of one thread at a time. `rings[k].next` is `rings[k + 1]`.
 */
module LprRings {
  import opened RingGeometry
  import opened TicketRing
  import opened Words
  import opened RingListSafety
  import opened RingListAnswers
  import RingList
  import RingListRefinement
  import LprQueue
  import Prq
  import PrqRing

  /** A thread's place in `enqueue` or `dequeue`, without the history that RingList.Pc carries. */
  datatype Place =
    | EReadTail(x: Item)
    | EReadNext(x: Item, k: nat)
    | EHelp(x: Item, k: nat)
    | EInRing(x: Item, k: nat)
    | ELink(x: Item, k: nat)
    | EPublish(x: Item, k: nat)
    | EDone
    | DReadHead
    | DInRing(k: nat, again: bool)
    | DReadNext(k: nat)
    | DSwing(k: nat)
    | DDone(x: Item)
    | DFalse

  function PlaceOf(pc: RingList.Pc): Place {
    match pc
    case EReadTail(x, _) => EReadTail(x)
    case EReadNext(x, _, k) => EReadNext(x, k)
    case EHelp(x, _, k) => EHelp(x, k)
    case EInRing(x, _, k) => EInRing(x, k)
    case ELink(x, _, k) => ELink(x, k)
    case EPublish(x, _, k) => EPublish(x, k)
    case EDone(_, _) => EDone
    case DReadHead(_) => DReadHead
    case DInRing(_, k, again, _) => DInRing(k, again)
    case DReadNext(_, k, _) => DReadNext(k)
    case DSwing(_, k) => DSwing(k)
    case DDone(x, _) => DDone(x)
    case DFalse(_) => DFalse
  }

  /** Thread me's item, if any, is a word PRQ can hold. */
  predicate Fits(me: Tid, pc: RingList.Pc) {
    me < Top && (RingList.Enqueues(pc) ==> PrqRing.ItemFits(pc.x))
  }

  lemma OneChanges(a: seq<Prq.State>, b: seq<Prq.State>, k: nat)
    requires k < |a| == |b| && forall j | 0 <= j < |a| && j != k :: b[j] == a[j]
    ensures b == a[k := b[k]]
  {}

  ghost function ViewsOf(rings: seq<PrqRing.Ring>): seq<Prq.State>
    reads rings, set r | r in rings :: r.cells
  {
    seq(|rings|, k requires 0 <= k < |rings| reads rings, set r | r in rings :: r.cells => rings[k].View())
  }

  class Queue {
    var rings: seq<PrqRing.Ring>
    var head: nat
    var tail: nat
    var places: map<Tid, Place>
    ghost var threads: map<Tid, RingList.Pc>
    ghost var log: seq<RingList.Event>

    ghost function Views(): seq<Prq.State>
      reads `rings, rings, set r | r in rings :: r.cells
    {
      ViewsOf(rings)
    }

    ghost function View(): RingList.List<Prq.State>
      reads `rings, `head, `tail, `threads, `log, rings, set r | r in rings :: r.cells
    {
      RingList.List(Views(), head, tail, threads, log)
    }

    /** The rings are different objects over different cells, and the words of each are in range. */
    ghost predicate RingsFit()
      reads `rings, rings
    {
      && (forall i, j | 0 <= i < j < |rings| :: rings[i] != rings[j] && rings[i].cells != rings[j].cells)
      && (forall k: nat :: FitsAt(k))
    }

    ghost predicate FitsAt(k: nat)
      reads `rings, rings
    {
      k < |rings| ==> rings[k].Fits()
    }

    ghost predicate PlacesValid()
      reads `places, `threads
    {
      && places.Keys == threads.Keys
      && (forall b <- threads :: places[b] == PlaceOf(threads[b]) && Fits(b, threads[b]))
    }

    ghost predicate Valid()
      reads this, rings, set r | r in rings :: r.cells
    {
      RingsFit() && PlacesValid() && Sound(View())
    }

    constructor ()
      requires R + 6 < Top
      ensures Valid() && RingList.InitList(LprQueue.PrqApi(), View()) && fresh(rings[0]) && fresh(rings[0].cells)
    {
      var prq := new PrqRing.Ring();
      rings, head, tail, places, threads, log := [prq], 0, 0, map[], map[], [];
      new;
      assert View().rings == [Prq.Init()];
      InitSound(View());
    }

    /** A call begins. */
    method Begin(me: Tid, call: Call)
      requires Valid() && (me in threads ==> RingList.Returned(threads[me]))
      requires me < Top && (call.Enqueue? ==> PrqRing.ItemFits(call.x))
      modifies `places, `threads
      ensures Valid() && RingList.ListStep(LprQueue.PrqApi(), true, old(View()), View(), me)
      ensures match call
              case Enqueue(x) =>
                && places == old(places)[me := EReadTail(x)]
                && threads == old(threads)[me := RingList.EReadTail(x, |log|)]
              case Dequeue =>
                && places == old(places)[me := DReadHead]
                && threads == old(threads)[me := RingList.DReadHead(|log|)]
    {
      ghost var s := View();
      match call {
        case Enqueue(x) => Goto(me, EReadTail(x), FirstPc(call, |log|));
        case Dequeue => Goto(me, DReadHead, FirstPc(call, |log|));
      }
      BeginSteps(s, View(), me, call);
      StepKeepsSound(s, View(), me);
    }

    /** A thread moves on in the list; the rings stay as they are. */
    method Goto(me: Tid, place: Place, ghost pc: RingList.Pc)
      requires PlacesValid() && place == PlaceOf(pc) && Fits(me, pc)
      modifies `places, `threads
      ensures PlacesValid() && threads == old(threads)[me := pc] && places == old(places)[me := place]
    {
      places := places[me := place];
      threads := threads[me := pc];
    }

    /** One access of a thread inside ring k. */
    method RingStep(k: nat, me: Tid)
      requires RingsFit() && k < |rings| && me in rings[k].threads && Prq.WellFormed(rings[k].View())
      requires rings[k].head + 1 < Top && Low(rings[k].tail) + 1 < Top
      modifies rings[k], rings[k].cells
      ensures RingsFit() && rings[k].View() == Prq.Next(old(rings[k].View()), me)
      ensures Views() == old(Views())[k := rings[k].View()]
    {
      assert FitsAt(k);
      ghost var views := Views();
      rings[k].Access(me);
      forall j: nat ensures FitsAt(j) && (j < |rings| && j != k ==> Views()[j] == views[j]) {
        assert old(FitsAt(j));
      }
      OneChanges(views, Views(), k);
    }

    /** A thread begins a call on ring k. */
    method RingBegin(k: nat, me: Tid, call: Call)
      requires RingsFit() && k < |rings| && me < Top
      requires call.Enqueue? ==> PrqRing.ItemFits(call.x)
      modifies rings[k]
      ensures RingsFit() && rings[k].View() == Prq.Begin(old(rings[k].View()), me, call)
      ensures Views() == old(Views())[k := rings[k].View()]
    {
      assert FitsAt(k);
      ghost var views := Views();
      rings[k].Start(me, call);
      forall j: nat ensures FitsAt(j) && (j < |rings| && j != k ==> Views()[j] == views[j]) {
        assert old(FitsAt(j));
      }
      OneChanges(views, Views(), k);
    }

    /** `_tail.compare_exchange_strong(prq, prq->next)` */
    method CasTail(k: nat)
      modifies `tail
      ensures tail == if old(tail) == k then k + 1 else old(tail)
    {
      if tail == k { tail := k + 1; }
    }

    /** `_head.compare_exchange_strong(prq, next)` */
    method CasHead(k: nat)
      modifies `head
      ensures head == if old(head) == k then k + 1 else old(head)
    {
      if head == k { head := k + 1; }
    }

    /** `newprq = new PRQ(); newprq->enqueue(x);` by a thread that is alone there. */
    method NewRing(me: Tid, x: Item) returns (r: PrqRing.Ring)
      requires me < Top && PrqRing.ItemFits(x) && R + 6 < Top
      ensures fresh(r) && fresh(r.cells) && r.Valid() && r.View() == Prq.FreshWith(me, x)
    {
      r := new PrqRing.Ring();
      r.Begin(me, Enqueue(x));
      ghost var s := r.View();
      var n := 0;
      while n < 6
        invariant 0 <= n <= 6 && fresh(r) && fresh(r.cells) && r.Valid() && r.View() == Prq.Alone(s, me, n)
      {
        AloneDraws(s, me, n);
        r.Step(me);
        n := n + 1;
      }
      Prq.FreshEnqueueSucceeds(me, x);
    }

    // ---- enqueue ----

    /** Reading the tail and its next, and helping a lagging tail. */
    method EnqueueOutside(me: Tid, ghost pc: RingList.Pc)
      requires PlacesValid() && me in threads && pc == threads[me]
      requires pc.EReadTail? || pc.EHelp? || (pc.EReadNext? && pc.k + 1 < |rings|)
      modifies `tail, `places, `threads
      ensures PlacesValid() && RingList.EnqueueStep(LprQueue.PrqApi(), old(View()), View(), me, pc)
    {
      var x := places[me].x;
      if places[me].EReadTail? {
        Goto(me, EReadNext(x, tail), RingList.EReadNext(x, pc.since, tail));
      } else if places[me].EReadNext? {
        Goto(me, EHelp(x, places[me].k), RingList.EHelp(x, pc.since, pc.k));
      } else {
        CasTail(places[me].k);
        Goto(me, EReadTail(x), RingList.EReadTail(x, pc.since));
      }
    }

    /** `prq->next` is null: `prq->enqueue(x)` begins. */
    method EnqueueEnter(me: Tid, ghost pc: RingList.Pc)
      requires RingsFit() && PlacesValid() && me in threads && pc == threads[me]
      requires pc.EReadNext? && pc.k + 1 == |rings|
      modifies `places, `threads, rings[pc.k]
      ensures RingsFit() && PlacesValid()
      ensures RingList.EnqueueStep(LprQueue.PrqApi(), old(View()), View(), me, pc)
    {
      var x, k := places[me].x, places[me].k;
      RingBegin(k, me, Enqueue(x));
      Goto(me, EInRing(x, k), RingList.EInRing(x, pc.since, k));
    }

    /** Inside `prq->enqueue(x)`. */
    method EnqueueInside(me: Tid, ghost pc: RingList.Pc)
      requires RingsFit() && PlacesValid() && me in threads && pc == threads[me] && pc.EInRing?
      requires pc.k < |rings| && me in rings[pc.k].threads && Prq.WellFormed(rings[pc.k].View())
      requires !rings[pc.k].threads[me].EOk? && !rings[pc.k].threads[me].EClosed?
      requires rings[pc.k].head + 1 < Top && Low(rings[pc.k].tail) + 1 < Top
      modifies rings[pc.k], rings[pc.k].cells
      ensures RingsFit() && RingList.EnqueueStep(LprQueue.PrqApi(), old(View()), View(), me, pc)
    {
      ghost var s := View();
      RingStep(places[me].k, me);
      EnqueueMoves(s, View(), me, pc);
    }

    /** `prq->enqueue(x)` has answered. */
    method EnqueueReturns(me: Tid, ghost pc: RingList.Pc)
      requires PlacesValid() && me in threads && pc == threads[me] && pc.EInRing?
      requires pc.k < |rings| && me in rings[pc.k].threads
      requires rings[pc.k].threads[me].EOk? || rings[pc.k].threads[me].EClosed?
      modifies `places, `threads, `log
      ensures PlacesValid() && RingList.EnqueueStep(LprQueue.PrqApi(), old(View()), View(), me, pc)
    {
      ghost var s := View();
      var x, k := places[me].x, places[me].k;
      if rings[k].threads[me].EOk? {
        log := log + [RingList.Enqueued(RingList.Pos(k, rings[k].threads[me].t), x, pc.since)];
        Goto(me, EDone, RingList.EDone(x, pc.since));
      } else {
        Goto(me, ELink(x, k), RingList.ELink(x, pc.since, k));
      }
      EnqueueAnswered(s, View(), me, pc);
    }

    /** A fresh ring with the item is published behind ring k, unless another thread was first. */
    method LinkNew(me: Tid, x: Item, k: nat) returns (ok: bool)
      requires RingsFit() && me < Top && PrqRing.ItemFits(x) && R + 6 < Top
      modifies `rings
      ensures RingsFit() && ok == (|old(rings)| == k + 1)
      ensures Views() == if ok then old(Views()) + [Prq.FreshWith(me, x)] else old(Views())
      ensures forall r <- rings :: r in old(rings) || (fresh(r) && fresh(r.cells))
    {
      var newprq := NewRing(me, x);
      ok := |rings| == k + 1;
      if ok { Publish(newprq); }
    }

    method EnqueueLinks(me: Tid, ghost pc: RingList.Pc)
      requires RingsFit() && PlacesValid() && me in threads && pc == threads[me] && pc.ELink?
      requires R + 6 < Top
      modifies `rings, `places, `threads
      ensures RingsFit() && PlacesValid()
      ensures RingList.EnqueueStep(LprQueue.PrqApi(), old(View()), View(), me, pc)
      ensures forall r <- rings :: r in old(rings) || (fresh(r) && fresh(r.cells))
    {
      ghost var s := View();
      var x, k := places[me].x, places[me].k;
      var ok := LinkNew(me, x, k);
      if ok {
        Goto(me, EPublish(x, k), RingList.EPublish(x, pc.since, k));
      } else {
        Goto(me, EReadTail(x), RingList.EReadTail(x, pc.since));
      }
      EnqueueLinked(s, View(), me, pc);
    }

    /** `prq->next.compare_exchange_strong(expected, newprq)` */
    method Publish(newprq: PrqRing.Ring)
      requires RingsFit() && newprq.Fits() && newprq !in rings
      requires forall r <- rings :: r.cells != newprq.cells
      modifies `rings
      ensures RingsFit() && rings == old(rings) + [newprq] && Views() == old(Views()) + [newprq.View()]
    {
      ghost var views, before := Views(), rings;
      rings := rings + [newprq];
      forall j: nat ensures FitsAt(j) {
        if j < |before| { assert old(FitsAt(j)); }
      }
      assert Views() == views + [newprq.View()];
    }

    /** The thread that published a ring swings the tail to it and returns. */
    method EnqueuePublished(me: Tid, ghost pc: RingList.Pc)
      requires PlacesValid() && me in threads && pc == threads[me] && pc.EPublish? && pc.k + 1 < |rings|
      modifies `tail, `places, `threads, `log
      ensures PlacesValid() && RingList.EnqueueStep(LprQueue.PrqApi(), old(View()), View(), me, pc)
    {
      var x, k := places[me].x, places[me].k;
      CasTail(k);
      log := log + [RingList.Enqueued(RingList.Pos(k + 1, R), x, pc.since)];
      Goto(me, EDone, RingList.EDone(x, pc.since));
    }

    // ---- dequeue ----

    /** `_head` is read, and `prq->dequeue()` begins. */
    method DequeueEnter(me: Tid, ghost pc: RingList.Pc)
      requires RingsFit() && PlacesValid() && me in threads && pc == threads[me] && pc.DReadHead?
      requires head < |rings| && me < Top
      modifies `places, `threads, rings[head]
      ensures RingsFit() && PlacesValid()
      ensures RingList.DequeueStep(LprQueue.PrqApi(), true, old(View()), View(), me, pc)
    {
      RingBegin(head, me, Dequeue);
      Goto(me, DInRing(head, false), RingList.DInRing(pc.since, head, false, false));
    }

    /** `next` is not null: `prq->dequeue()` begins a second time. */
    method DequeueAgain(me: Tid, ghost pc: RingList.Pc)
      requires RingsFit() && PlacesValid() && me in threads && pc == threads[me] && pc.DReadNext?
      requires pc.k + 1 < |rings| && me < Top
      modifies `places, `threads, rings[pc.k]
      ensures RingsFit() && PlacesValid()
      ensures RingList.DequeueStep(LprQueue.PrqApi(), true, old(View()), View(), me, pc)
    {
      var k := places[me].k;
      RingBegin(k, me, Dequeue);
      Goto(me, DInRing(k, true), RingList.DInRing(pc.since, k, true, false));
    }

    /** `next` is null and `dequeue` returns false, or the head is swung. */
    method DequeueOutside(me: Tid, ghost pc: RingList.Pc)
      requires PlacesValid() && me in threads && pc == threads[me]
      requires (pc.DReadNext? && pc.k + 1 == |rings|) || pc.DSwing?
      modifies `head, `places, `threads, `log
      ensures PlacesValid() && RingList.DequeueStep(LprQueue.PrqApi(), true, old(View()), View(), me, pc)
    {
      if places[me].DReadNext? {
        log := log + [RingList.FoundEmpty(pc.quiet, pc.since)];
        Goto(me, DFalse, RingList.DFalse(pc.since));
      } else {
        CasHead(places[me].k);
        Goto(me, DReadHead, RingList.DReadHead(pc.since));
      }
    }

    /** Inside `prq->dequeue()`. */
    method DequeueInside(me: Tid, ghost pc: RingList.Pc)
      requires RingsFit() && PlacesValid() && me in threads && pc == threads[me] && pc.DInRing?
      requires pc.k < |rings| && me in rings[pc.k].threads && Prq.WellFormed(rings[pc.k].View())
      requires !rings[pc.k].threads[me].DGot? && !rings[pc.k].threads[me].DEmpty?
      requires rings[pc.k].head + 1 < Top && Low(rings[pc.k].tail) + 1 < Top
      modifies `threads, rings[pc.k], rings[pc.k].cells
      ensures RingsFit() && PlacesValid()
      ensures RingList.DequeueStep(LprQueue.PrqApi(), true, old(View()), View(), me, pc)
    {
      ghost var s, q := View(), rings[pc.k].View();
      ghost var quiet := QuietAfter(s, q, Prq.Next(q, me), me, pc.quiet);
      RingStep(places[me].k, me);
      Remember(me, RingList.DInRing(pc.since, pc.k, pc.again, quiet));
      DequeueMoves(s, View(), me, pc);
    }

    /** The history of a thread changes, not its place. */
    ghost method Remember(me: Tid, pc: RingList.Pc)
      requires PlacesValid() && me in threads && PlaceOf(pc) == places[me] && Fits(me, pc)
      modifies `threads
      ensures PlacesValid() && threads == old(threads)[me := pc]
    {
      threads := threads[me := pc];
    }

    /** `prq->dequeue()` has answered with an item. */
    method DequeueReturns(me: Tid, ghost pc: RingList.Pc)
      requires PlacesValid() && me in threads && pc == threads[me] && pc.DInRing?
      requires pc.k < |rings| && me in rings[pc.k].threads && rings[pc.k].threads[me].DGot?
      modifies `places, `threads, `log
      ensures PlacesValid() && RingList.DequeueStep(LprQueue.PrqApi(), true, old(View()), View(), me, pc)
    {
      ghost var s := View();
      var k := places[me].k;
      var h, x := rings[k].threads[me].h, rings[k].threads[me].x;
      log := log + [RingList.Dequeued(RingList.Pos(k, h), x, pc.since)];
      Goto(me, DDone(x), RingList.DDone(x, pc.since));
      DequeueAnswered(s, View(), me, pc);
    }

    /** `prq->dequeue()` has answered EMPTY, for the first or the second time. */
    method DequeueFindsEmpty(me: Tid, ghost pc: RingList.Pc)
      requires PlacesValid() && me in threads && pc == threads[me] && pc.DInRing?
      requires pc.k < |rings| && me in rings[pc.k].threads && rings[pc.k].threads[me].DEmpty?
      modifies `places, `threads
      ensures PlacesValid() && RingList.DequeueStep(LprQueue.PrqApi(), true, old(View()), View(), me, pc)
    {
      ghost var s := View();
      var k := places[me].k;
      if places[me].again {
        Goto(me, DSwing(k), RingList.DSwing(pc.since, k));
      } else {
        Goto(me, DReadNext(k), RingList.DReadNext(pc.since, k, pc.quiet));
      }
      DequeueAnswered(s, View(), me, pc);
    }

    // ---- One access of any thread ----

    method EnqueueAccess(me: Tid, ghost pc: RingList.Pc)
      requires RingsFit() && PlacesValid() && me in threads && pc == threads[me] && RingList.Enqueues(pc)
      requires Ready(View(), me, pc) && Roomy()
      modifies this, rings, set r | r in rings :: r.cells
      ensures RingsFit() && PlacesValid()
      ensures RingList.EnqueueStep(LprQueue.PrqApi(), old(View()), View(), me, pc)
      ensures forall r <- rings :: r in old(rings) || (fresh(r) && fresh(r.cells))
    {
      var place := places[me];
      if place.EInRing? {
        var answer := rings[place.k].threads[me];
        if answer.EOk? || answer.EClosed? { EnqueueReturns(me, pc); } else { EnqueueInside(me, pc); }
      } else if place.ELink? {
        EnqueueLinks(me, pc);
      } else if place.EPublish? {
        EnqueuePublished(me, pc);
      } else if place.EReadNext? && place.k + 1 == |rings| {
        EnqueueEnter(me, pc);
      } else {
        EnqueueOutside(me, pc);
      }
    }

    method DequeueAccess(me: Tid, ghost pc: RingList.Pc)
      requires RingsFit() && PlacesValid() && me in threads && pc == threads[me]
      requires !RingList.Enqueues(pc) && !RingList.Returned(pc)
      requires Ready(View(), me, pc) && Roomy()
      modifies this, rings, set r | r in rings :: r.cells
      ensures RingsFit() && PlacesValid()
      ensures RingList.DequeueStep(LprQueue.PrqApi(), true, old(View()), View(), me, pc)
      ensures rings == old(rings)
    {
      var place := places[me];
      if place.DInRing? {
        var answer := rings[place.k].threads[me];
        if answer.DGot? {
          DequeueReturns(me, pc);
        } else if answer.DEmpty? {
          DequeueFindsEmpty(me, pc);
        } else {
          DequeueInside(me, pc);
        }
      } else if place.DReadHead? {
        DequeueEnter(me, pc);
      } else if place.DReadNext? && place.k + 1 < |rings| {
        DequeueAgain(me, pc);
      } else {
        DequeueOutside(me, pc);
      }
    }

    /** Tickets stay below 2^63 in every ring. */
    ghost predicate Roomy()
      reads `rings, rings
    {
      R + 6 < Top && forall k | 0 <= k < |rings| :: rings[k].head + 1 < Top && Low(rings[k].tail) + 1 < Top
    }

    method Advance(me: Tid)
      requires RingsFit() && PlacesValid() && me in threads && !RingList.Returned(threads[me])
      requires Ready(View(), me, threads[me]) && Roomy()
      modifies this, rings, set r | r in rings :: r.cells
      ensures RingsFit() && PlacesValid()
      ensures RingList.ListStep(LprQueue.PrqApi(), true, old(View()), View(), me)
      ensures forall r <- rings :: r in old(rings) || (fresh(r) && fresh(r.cells))
    {
      if places[me].EReadTail? || places[me].EReadNext? || places[me].EHelp? || places[me].EInRing?
         || places[me].ELink? || places[me].EPublish? {
        EnqueueAccess(me, threads[me]);
      } else {
        DequeueAccess(me, threads[me]);
      }
    }

    /** The next atomic access of a thread whose call is running. */
    method Step(me: Tid)
      requires Valid() && me in threads && !RingList.Returned(threads[me]) && Roomy()
      modifies this, rings, set r | r in rings :: r.cells
      ensures Valid() && RingList.ListStep(LprQueue.PrqApi(), true, old(View()), View(), me)
      ensures forall r <- rings :: r in old(rings) || (fresh(r) && fresh(r.cells))
    {
      ghost var s := View();
      InvMeansReady(s, me);
      Advance(me);
      StepKeepsSound(s, View(), me);
    }

    // ---- What a caller is given ----

    /** x was deposited at position p. */
    ghost predicate HoldsAt(p: RingList.Pos, x: Item)
      reads `rings, rings
    {
      && p.ring < |rings| && p.ticket in rings[p.ring].ledger.deposited
      && rings[p.ring].ledger.deposited[p.ticket] == x
    }

    /** me's call, begun when the log had length `since`, has logged e. */
    ghost predicate LoggedSince(since: nat, e: RingList.Event)
      reads `log
    {
      e.since == since && exists n | since <= n < |log| :: log[n] == e
    }

    /** A dequeue that answers x has logged that it dequeued x, which was deposited and is taken there. */
    lemma DequeueGivesItem(me: Tid, x: Item)
      requires Valid() && me in places && places[me] == DDone(x)
      ensures me in threads && threads[me].DDone?
      ensures exists p: RingList.Pos ::
        && LoggedSince(threads[me].since, RingList.Dequeued(p, x, threads[me].since))
        && HoldsAt(p, x) && p.ticket in rings[p.ring].ledger.taken
    {
      assert AnswerLogged(log, threads[me]);
      var n :| threads[me].since <= n < |log| && Explains(log[n], threads[me]);
      assert log[n] == RingList.Dequeued(log[n].at, x, threads[me].since);
      LoggedItem(View(), n);
    }

    /** An enqueue that has returned has logged that it enqueued its item, which was deposited there. */
    lemma EnqueuePutsItem(me: Tid)
      requires Valid() && me in places && places[me] == EDone
      ensures me in threads && threads[me].EDone?
      ensures exists p: RingList.Pos ::
        && LoggedSince(threads[me].since, RingList.Enqueued(p, threads[me].x, threads[me].since))
        && HoldsAt(p, threads[me].x)
    {
      assert AnswerLogged(log, threads[me]);
      var n :| threads[me].since <= n < |log| && Explains(log[n], threads[me]);
      assert log[n] == RingList.Enqueued(log[n].at, threads[me].x, threads[me].since);
      LoggedItem(View(), n);
    }

    /** A dequeue that answers false has logged that it found every item claimed by other dequeues. */
    lemma FalseFoundEmpty(me: Tid)
      requires Valid() && me in places && places[me] == DFalse
      ensures me in threads && threads[me].DFalse?
      ensures LoggedSince(threads[me].since, RingList.FoundEmpty(true, threads[me].since))
    {
      assert AnswerLogged(log, threads[me]);
      var n :| threads[me].since <= n < |log| && Explains(log[n], threads[me]);
      LoggedItem(View(), n);
      assert log[n] == RingList.FoundEmpty(true, threads[me].since);
    }

    /** No answer is withheld: a call that has returned shows its answer. */
    lemma ReturnedShows(me: Tid)
      requires Valid() && me in threads && RingList.Returned(threads[me])
      ensures me in places
      ensures match threads[me]
              case EDone(_, _) => places[me] == EDone
              case DDone(x, _) => places[me] == DDone(x)
              case DFalse(_) => places[me] == DFalse
              case _ => false
    {}
  }

  // ---- The same steps on values ----

  /** What the log says of an item is so in its ring. */
  lemma LoggedItem(s: RingList.List<Prq.State>, n: nat)
    requires Sound(s) && n < |s.log|
    ensures match s.log[n]
            case Enqueued(p, x, _) => Deposited(LprQueue.PrqApi(), s, p, x)
            case Dequeued(p, x, _) => Deposited(LprQueue.PrqApi(), s, p, x) && Taken(LprQueue.PrqApi(), s, p)
            case FoundEmpty(quiet, _) => quiet
  {
    assert EventOk(RingListRefinement.View(LprQueue.PrqApi(), s), true, n, s.log[n]);
  }

  /** What a thread at pc finds: the rings it works on exist, and it is free to begin a call there. */
  predicate Ready(s: RingList.List<Prq.State>, me: Tid, pc: RingList.Pc) {
    match pc
    case EReadNext(_, _, k) => k < |s.rings| && Prq.IsIdle(s.rings[k], me)
    case EInRing(_, _, k) => k < |s.rings| && Prq.WellFormed(s.rings[k]) && me in s.rings[k].threads
    case EPublish(_, _, k) => k + 1 < |s.rings|
    case DReadHead(_) => s.head < |s.rings| && Prq.IsIdle(s.rings[s.head], me)
    case DInRing(_, k, _, _) => k < |s.rings| && Prq.WellFormed(s.rings[k]) && me in s.rings[k].threads
    case DReadNext(_, k, _) => k < |s.rings| && Prq.IsIdle(s.rings[k], me)
    case _ => true
  }

  lemma IdleInRing(q: Prq.State, me: Tid)
    ensures Idle(Prq.Abs(q), me) <==> Prq.IsIdle(q, me)
  {}

  /** Each ring and the list of them keep their invariants, and every answer is in the log. */
  ghost predicate Sound(s: RingList.List<Prq.State>) {
    && AnswersLogged(s)
    && (forall k | 0 <= k < |s.rings| :: Prq.Inv(s.rings[k]))
    && ListInv(RingListRefinement.View(LprQueue.PrqApi(), s), R, true)
  }

  lemma InvMeansReady(s: RingList.List<Prq.State>, me: Tid)
    requires Sound(s) && me in s.threads
    ensures Ready(s, me, s.threads[me])
  {
    var pc, v := s.threads[me], RingListRefinement.View(LprQueue.PrqApi(), s);
    assert PcOk(v, true, me, pc);
    if !pc.EInRing? && !pc.DInRing? {
      IdleEverywhere(v, R, true, me);
      forall k | 0 <= k < |s.rings| ensures Prq.IsIdle(s.rings[k], me) {
        assert v.rings[k] == Prq.Abs(s.rings[k]);
        IdleInRing(s.rings[k], me);
      }
    } else {
      assert v.rings[pc.k] == Prq.Abs(s.rings[pc.k]);
    }
  }

  lemma InitSound(s: RingList.List<Prq.State>)
    requires RingList.InitList(LprQueue.PrqApi(), s)
    ensures Sound(s)
  {
    LprQueue.EveryLprRun([s], [], 0);
  }

  function FirstPc(call: Call, since: nat): RingList.Pc {
    match call case Enqueue(x) => RingList.EReadTail(x, since) case Dequeue => RingList.DReadHead(since)
  }

  lemma BeginSteps(s: RingList.List<Prq.State>, s': RingList.List<Prq.State>, me: Tid, call: Call)
    requires me in s.threads ==> RingList.Returned(s.threads[me])
    requires s' == RingList.Goto(s, me, FirstPc(call, |s.log|))
    ensures RingList.ListStep(LprQueue.PrqApi(), true, s, s', me)
  {}

  lemma StepKeepsSound(s: RingList.List<Prq.State>, s': RingList.List<Prq.State>, me: Tid)
    requires Sound(s) && RingList.ListStep(LprQueue.PrqApi(), true, s, s', me)
    ensures Sound(s')
  {
    LprQueue.PrqRefinesTickets();
    StepKeepsAnswers(LprQueue.PrqApi(), true, s, s', me);
    RingListRefinement.StepRefines(LprQueue.PrqApi(), q => Prq.Inv(q), R, true, s, s', me);
    RingListSafety.StepKeepsInv(RingListRefinement.View(LprQueue.PrqApi(), s),
      RingListRefinement.View(LprQueue.PrqApi(), s'), R, true, me);
  }

  ghost function QuietAfter(s: RingList.List<Prq.State>, q: Prq.State, q': Prq.State, me: Tid, quiet: bool): bool {
    if AnswersEmpty(Prq.Abs(q), Prq.Abs(q'), me) then RingList.EverythingClaimed(LprQueue.PrqApi(), s) else quiet
  }

  lemma DequeueAnswered(s: RingList.List<Prq.State>, s': RingList.List<Prq.State>, me: Tid, pc: RingList.Pc)
    requires pc.DInRing? && pc.k < |s.rings| && me in s.rings[pc.k].threads
    requires match s.rings[pc.k].threads[me]
             case DGot(h, x) => s' == RingList.Goto(
               RingList.Note(s, RingList.Dequeued(RingList.Pos(pc.k, h), x, pc.since)), me, RingList.DDone(x, pc.since))
             case DEmpty => s' == RingList.Goto(s, me,
               if pc.again then RingList.DSwing(pc.since, pc.k) else RingList.DReadNext(pc.since, pc.k, pc.quiet))
             case _ => false
    ensures RingList.DequeueStep(LprQueue.PrqApi(), true, s, s', me, pc)
  {
    assert RingList.PhaseIn(LprQueue.PrqApi(), s.rings[pc.k], me) == Prq.AbsPc(s.rings[pc.k].threads[me]);
  }

  lemma DequeueMoves(s: RingList.List<Prq.State>, s': RingList.List<Prq.State>, me: Tid, pc: RingList.Pc)
    requires pc.DInRing? && pc.k < |s.rings| && me in s.rings[pc.k].threads && Prq.WellFormed(s.rings[pc.k])
    requires !s.rings[pc.k].threads[me].DGot? && !s.rings[pc.k].threads[me].DEmpty?
    requires var q := s.rings[pc.k]; var q' := Prq.Next(q, me);
      s' == RingList.Goto(s.(rings := s.rings[pc.k := q']), me,
              RingList.DInRing(pc.since, pc.k, pc.again, QuietAfter(s, q, q', me, pc.quiet)))
    ensures RingList.DequeueStep(LprQueue.PrqApi(), true, s, s', me, pc)
  {
    assert RingList.PhaseIn(LprQueue.PrqApi(), s.rings[pc.k], me) == Prq.AbsPc(s.rings[pc.k].threads[me]);
  }

  lemma EnqueueAnswered(s: RingList.List<Prq.State>, s': RingList.List<Prq.State>, me: Tid, pc: RingList.Pc)
    requires pc.EInRing? && pc.k < |s.rings| && me in s.rings[pc.k].threads
    requires match s.rings[pc.k].threads[me]
             case EOk(_, t) => s' == RingList.Goto(
               RingList.Note(s, RingList.Enqueued(RingList.Pos(pc.k, t), pc.x, pc.since)), me,
               RingList.EDone(pc.x, pc.since))
             case EClosed(_) => s' == RingList.Goto(s, me, RingList.ELink(pc.x, pc.since, pc.k))
             case _ => false
    ensures RingList.EnqueueStep(LprQueue.PrqApi(), s, s', me, pc)
  {
    assert RingList.PhaseIn(LprQueue.PrqApi(), s.rings[pc.k], me) == Prq.AbsPc(s.rings[pc.k].threads[me]);
  }

  lemma EnqueueLinked(s: RingList.List<Prq.State>, s': RingList.List<Prq.State>, me: Tid, pc: RingList.Pc)
    requires pc.ELink?
    requires s' == if |s.rings| == pc.k + 1
      then RingList.Goto(s.(rings := s.rings + [Prq.FreshWith(me, pc.x)]), me, RingList.EPublish(pc.x, pc.since, pc.k))
      else RingList.Goto(s, me, RingList.EReadTail(pc.x, pc.since))
    ensures RingList.EnqueueStep(LprQueue.PrqApi(), s, s', me, pc)
  {}

  lemma EnqueueMoves(s: RingList.List<Prq.State>, s': RingList.List<Prq.State>, me: Tid, pc: RingList.Pc)
    requires pc.EInRing? && pc.k < |s.rings| && me in s.rings[pc.k].threads && Prq.WellFormed(s.rings[pc.k])
    requires me in s.threads && s.threads[me] == pc
    requires !s.rings[pc.k].threads[me].EOk? && !s.rings[pc.k].threads[me].EClosed?
    requires s' == s.(rings := s.rings[pc.k := Prq.Next(s.rings[pc.k], me)])
    ensures RingList.EnqueueStep(LprQueue.PrqApi(), s, s', me, pc)
  {
    assert RingList.PhaseIn(LprQueue.PrqApi(), s.rings[pc.k], me) == Prq.AbsPc(s.rings[pc.k].threads[me]);
    assert s.threads[me := pc] == s.threads;
  }

  /** One access draws at most one ticket. */
  lemma {:induction false} AloneDraws(s: Prq.State, me: Tid, n: nat)
    requires Prq.WellFormed(s) && me in s.threads
    ensures var s' := Prq.Alone(s, me, n); me in s'.threads && s'.head <= s.head + n && s'.tail <= s.tail + n
  {
    if n != 0 { AloneDraws(s, me, n - 1); }
  }
}
