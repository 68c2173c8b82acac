/**
 * What one call on a CRQ amounts to: why an enqueue answers CLOSED, what `fixState` leaves behind, that
 * a thread running alone is answered, and what the answer is when nobody else is at work.
 */
module CrqCalls {
  import opened RingGeometry
  import opened TicketRing
  import opened Crq
  import opened CrqPromises

  // ---- The latest call of a thread, as the schedule tells it ----

  /** act begins a call of me. */
  predicate Starts(s: State, act: Act, me: Tid) {
    act.Invoke? && act.me == me && IsIdle(s, me)
  }

  /** act draws a ticket for me: from the tail if the ring is open, or from the head. */
  predicate Draws(s: State, act: Act, me: Tid) {
    act == Go(me) && me in s.threads && ((s.threads[me].EDraw? && !s.closed) || s.threads[me].DDraw?)
  }

  /** The latest call of me begins at this instant of the schedule. */
  function CallStart(schedule: seq<Act>, me: Tid): (m: nat)
    ensures m <= |schedule|
  {
    if schedule == [] then 0
    else
      var before := schedule[..|schedule| - 1];
      if Starts(Run(before), schedule[|schedule| - 1], me) then |schedule| else CallStart(before, me)
  }

  /** The tickets drawn in a call of me, after act. */
  function DrawnAfter(s: State, act: Act, me: Tid, drawn: seq<nat>): seq<nat> {
    if Starts(s, act, me) then []
    else if Draws(s, act, me) then drawn + [if s.threads[me].DDraw? then s.head else s.tail]
    else drawn
  }

  /** The tickets drawn in the latest call of me. */
  function Drawn(schedule: seq<Act>, me: Tid): seq<nat> {
    if schedule == [] then []
    else
      var before := schedule[..|schedule| - 1];
      DrawnAfter(Run(before), schedule[|schedule| - 1], me, Drawn(before, me))
  }

  predicate LastIs(tickets: seq<nat>, t: nat) {
    tickets != [] && tickets[|tickets| - 1] == t
  }

  /** A thread's count of attempts and its ticket are those of the schedule. */
  predicate Tallied(pc: Pc, drawn: seq<nat>) {
    match pc
    case EDraw(_, k) => |drawn| == k
    case EReadValue(_, k, t) => |drawn| == k + 1 && LastIs(drawn, t)
    case EReadStamp(_, k, t, _) => |drawn| == k + 1 && LastIs(drawn, t)
    case EReadHead(_, k, t, _) => |drawn| == k + 1 && LastIs(drawn, t)
    case EDeposit(_, k, t, _) => |drawn| == k + 1 && LastIs(drawn, t)
    case EOverflow(_, k, t) => |drawn| == k + 1 && LastIs(drawn, t)
    case EOk(_, t) => LastIs(drawn, t)
    case DReadTail(h) => LastIs(drawn, h)
    case DGot(h, _) => LastIs(drawn, h)
    case _ => pc.AtDequeue() ==> LastIs(drawn, pc.Ticket())
  }

  lemma AccessTallies(n: Node, pc: Pc, drawn: seq<nat>)
    requires pc.AtNode() && Tallied(pc, drawn)
    ensures Tallied(NodeAccess(n, pc).pc, drawn)
  {}

  lemma StepTallies(s: State, me: Tid, drawn: seq<nat>)
    requires WellFormed(s) && me in s.threads && Tallied(s.threads[me], drawn)
    ensures Tallied(Next(s, me).threads[me], DrawnAfter(s, Go(me), me, drawn))
  {
    var pc := s.threads[me];
    if pc.AtNode() { AccessTallies(At(s, pc.Ticket()), pc, drawn); }
  }

  /** Nobody else moves a thread. */
  lemma OthersStand(s: State, act: Act, me: Tid)
    requires WellFormed(s) && act != Go(me) && !Starts(s, act, me)
    ensures me in s.threads <==> me in Perform(s, act).threads
    ensures me in s.threads ==> Perform(s, act).threads[me] == s.threads[me]
  {}

  lemma RunUnfolds(schedule: seq<Act>)
    requires schedule != []
    ensures Run(schedule) == Perform(Run(schedule[..|schedule| - 1]), schedule[|schedule| - 1])
  {}

  lemma {:induction false} CallIsTallied(schedule: seq<Act>, me: Tid)
    ensures me in Run(schedule).threads ==> Tallied(Run(schedule).threads[me], Drawn(schedule, me))
  {
    if schedule != [] {
      var before, act := schedule[..|schedule| - 1], schedule[|schedule| - 1];
      var s := Run(before);
      RunUnfolds(schedule);
      CallIsTallied(before, me);
      if Starts(s, act, me) {
      } else if act != Go(me) {
        OthersStand(s, act, me);
      } else if me in s.threads {
        StepTallies(s, me, Drawn(before, me));
      }
    }
  }

  // ---- Why an enqueue answers CLOSED ----

  /** A failed attempt under ticket t is the call's last: t is overtaken or does not fit, or it is one too many. */
  predicate Hopeless(s: State, t: nat, drawn: seq<nat>) {
    t < s.head || s.head + R <= t || StarvingThreshold + 1 < |drawn|
  }

  /** me's next access shows it a reason to give up: the ring is closed, or its last attempt was hopeless. */
  predicate Despairs(s: State, me: Tid, drawn: seq<nat>) {
    && me in s.threads
    && (|| (s.threads[me].EDraw? && s.closed)
        || (s.threads[me].EOverflow? && LastIs(drawn, s.threads[me].t) && Hopeless(s, s.threads[me].t, drawn)))
  }

  predicate GaveUp(pc: Pc) {
    pc.EClose? || pc.EClosed?
  }

  /** One access: a call gives up exactly when it has a reason to, and stays with that. */
  lemma StepGivesUp(s: State, me: Tid, drawn: seq<nat>)
    requires WellFormed(s) && me in s.threads && Tallied(s.threads[me], drawn)
    ensures GaveUp(Next(s, me).threads[me]) <==> GaveUp(s.threads[me]) || Despairs(s, me, drawn)
    ensures GaveUp(Next(s, me).threads[me]) ==> DrawnAfter(s, Go(me), me, drawn) == drawn
    ensures Next(s, me).threads[me].EClosed? && !s.threads[me].EClosed? ==> Next(s, me).closed
  {
    var pc := s.threads[me];
    if pc.AtNode() { assert !NodeAccess(At(s, pc.Ticket()), pc).pc.EClose?; }
  }

  /** At instant m of its latest call, me has a reason to give up. */
  ghost predicate SeesReason(schedule: seq<Act>, me: Tid, m: nat) {
    CallStart(schedule, me) <= m < |schedule| && schedule[m] == Go(me)
    && Despairs(Run(schedule[..m]), me, Drawn(schedule, me))
  }

  /**
   * CLOSED has a reason inside the call: the ring was closed already, or the head had passed the last
   * ticket drawn or was R or more behind it, or more than StarvingThreshold + 1 tickets had been drawn.
   */
  lemma {:induction false} ClosedHasReason(schedule: seq<Act>, me: Tid)
    requires me in Run(schedule).threads && GaveUp(Run(schedule).threads[me])
    ensures exists m: nat :: SeesReason(schedule, me, m)
  {
    var n := |schedule| - 1;
    var before, act := schedule[..n], schedule[n];
    var s := Run(before);
    RunUnfolds(schedule);
    CallIsTallied(before, me);
    if act == Go(me) { StepGivesUp(s, me, Drawn(before, me)); } else { OthersStand(s, act, me); }
    if act == Go(me) && !GaveUp(s.threads[me]) {
      assert SeesReason(schedule, me, n);
    } else {
      ClosedHasReason(before, me);
      var m: nat :| SeesReason(before, me, m);
      assert before[..m] == schedule[..m] && before[m] == schedule[m];
      assert SeesReason(schedule, me, m);
    }
  }

  /** After a failed attempt the call gives up in exactly the hopeless cases, and otherwise draws again. */
  lemma OverflowDecides(schedule: seq<Act>, me: Tid)
    requires me in Run(schedule).threads && Run(schedule).threads[me].EOverflow?
    ensures var s, drawn := Run(schedule), Drawn(schedule, me);
      && drawn != []
      && Next(s, me).threads[me] == if Hopeless(s, drawn[|drawn| - 1], drawn) then EClose(s.threads[me].x)
                                    else EDraw(s.threads[me].x, |drawn|)
  {
    CallIsTallied(schedule, me);
    OverflowStep(Run(schedule), me, Drawn(schedule, me));
  }

  lemma OverflowStep(s: State, me: Tid, drawn: seq<nat>)
    requires WellFormed(s) && me in s.threads && s.threads[me].EOverflow? && Tallied(s.threads[me], drawn)
    ensures Next(s, me).threads[me] ==
      if Hopeless(s, drawn[|drawn| - 1], drawn) then EClose(s.threads[me].x) else EDraw(s.threads[me].x, |drawn|)
  {}

  /** Once it has a reason, the call draws no further ticket; its answer is CLOSED, and the ring is closed. */
  lemma {:induction false} GivesUp(schedule: seq<Act>, me: Tid, m: nat)
    requires CallStart(schedule, me) <= m < |schedule| && schedule[m] == Go(me)
    requires Despairs(Run(schedule[..m]), me, Drawn(schedule[..m], me))
    ensures Drawn(schedule, me) == Drawn(schedule[..m], me)
    ensures me in Run(schedule).threads && GaveUp(Run(schedule).threads[me])
  {
    var n := |schedule| - 1;
    var before, act := schedule[..n], schedule[n];
    RunUnfolds(schedule);
    CallIsTallied(before, me);
    if m < n {
      assert before[..m] == schedule[..m] && before[m] == schedule[m];
      GivesUp(before, me, m);
    }
    if act == Go(me) { StepGivesUp(Run(before), me, Drawn(before, me)); } else { OthersStand(Run(before), act, me); }
  }

  lemma RefusedIsClosed(s: State, me: Tid)
    requires Valid(Abs(s)) && me in s.threads && s.threads[me].EClosed?
    ensures s.closed
  {
    TicketFacts(s, me);
  }

  /** An enqueue that has answered CLOSED leaves the ring closed. */
  lemma ClosedIsClosed(schedule: seq<Act>, me: Tid)
    requires me in Run(schedule).threads && Run(schedule).threads[me].EClosed?
    ensures Run(schedule).closed
  {
    EveryRunKeepsInv(schedule);
    RefusedIsClosed(Run(schedule), me);
  }

  // ---- What fixState leaves behind ----

  /** The last ticket of a dequeue that has found nothing is retired, and the tail is on its way past it. */
  ghost predicate Repairs(s: State, pc: Pc, drawn: seq<nat>) {
    (AbsPc(pc).Repairing? || pc.DEmpty?) ==>
      && drawn != []
      && var h := drawn[|drawn| - 1];
         && h in s.ledger.retired
         && (match pc
             case FReadTail(n) => h < n
             case FConfirmTail(n, _, _) => h < n
             case FRaiseTail(n, _) => h < n
             case DEmpty => s.closed || h < s.tail
             case _ => h < s.head)
  }

  lemma OtherRepairs(s: State, s': State, pc: Pc, drawn: seq<nat>)
    requires Repairs(s, pc, drawn) && Grows(Abs(s), Abs(s'))
    ensures Repairs(s', pc, drawn)
  {}

  lemma RepairAccessRepairs(s: State, me: Tid, drawn: seq<nat>)
    requires Inv(s) && me in s.threads && Repairs(s, s.threads[me], drawn)
    requires AbsPc(s.threads[me]).Repairing? || s.threads[me].DEmpty?
    ensures Repairs(Next(s, me), Next(s, me).threads[me], drawn)
  {}

  /** A dequeuer that finds the tail not ahead has retired its ticket. */
  lemma CheckRepairs(s: State, me: Tid, drawn: seq<nat>)
    requires Inv(s) && me in s.threads && s.threads[me].DReadTail? && Tallied(s.threads[me], drawn)
    ensures Repairs(Next(s, me), Next(s, me).threads[me], drawn)
  {
    TicketFacts(s, me);
  }

  lemma NotYetRepairs(s: State, me: Tid)
    requires WellFormed(s) && me in s.threads && !AbsPc(s.threads[me]).Repairing?
    requires !s.threads[me].DEmpty? && !s.threads[me].DReadTail?
    ensures !AbsPc(Next(s, me).threads[me]).Repairing? && !Next(s, me).threads[me].DEmpty?
  {}

  lemma StepRepairs(s: State, me: Tid, drawn: seq<nat>)
    requires Inv(s) && me in s.threads && Repairs(s, s.threads[me], drawn) && Tallied(s.threads[me], drawn)
    ensures Repairs(Next(s, me), Next(s, me).threads[me], DrawnAfter(s, Go(me), me, drawn))
  {
    var pc := s.threads[me];
    if AbsPc(pc).Repairing? || pc.DEmpty? {
      RepairAccessRepairs(s, me, drawn);
    } else if pc.DReadTail? {
      CheckRepairs(s, me, drawn);
    } else {
      NotYetRepairs(s, me);
    }
  }

  lemma {:induction false} CallRepairs(schedule: seq<Act>, me: Tid)
    ensures me in Run(schedule).threads ==> Repairs(Run(schedule), Run(schedule).threads[me], Drawn(schedule, me))
  {
    if schedule != [] {
      var before, act := schedule[..|schedule| - 1], schedule[|schedule| - 1];
      var s := Run(before);
      RunUnfolds(schedule);
      CallRepairs(before, me);
      CallIsTallied(before, me);
      EveryRunKeepsInv(before);
      if Starts(s, act, me) {
      } else if act != Go(me) {
        OthersStand(s, act, me);
        PerformGrows(s, act);
        if me in s.threads { OtherRepairs(s, Run(schedule), s.threads[me], Drawn(before, me)); }
      } else if me in s.threads {
        StepRepairs(s, me, Drawn(before, me));
      }
    }
  }

  /**
   * A dequeue that has answered EMPTY retired its last ticket, and from then on the ring is closed or
   * its tail is past that ticket.
   */
  lemma EmptyMovesTail(schedule: seq<Act>, i: nat, me: Tid)
    requires i <= |schedule| && me in Run(schedule[..i]).threads && Run(schedule[..i]).threads[me].DEmpty?
    ensures var drawn, s := Drawn(schedule[..i], me), Run(schedule);
      && drawn != [] && drawn[|drawn| - 1] in s.ledger.retired
      && (s.closed || drawn[|drawn| - 1] < s.tail)
  {
    CallRepairs(schedule[..i], me);
    RunGrows(schedule, i);
  }

  /** A dequeuer that drew the last ticket of the head is still there, or still repairing for it. */
  predicate Minds(head: nat, pc: Pc) {
    match pc
    case DReadTail(h) => h + 1 == head
    case FReadHead => true
    case FReadTail(h) => h == head
    case FConfirmTail(h, _, _) => h == head
    case FRaiseTail(h, _) => h == head
    case _ => pc.AtDequeue() && pc.Ticket() + 1 == head
  }

  /** An open ring's tail is behind its head only while a dequeuer minds that. */
  ghost predicate TailMinded(s: State) {
    s.closed || s.head <= s.tail || exists b :: b in s.threads && Minds(s.head, s.threads[b])
  }

  lemma RepairMinds(s: State, me: Tid)
    requires Inv(s) && me in s.threads && Minds(s.head, s.threads[me]) && AbsPc(s.threads[me]).Repairing?
    ensures var s' := Next(s, me); s'.closed || s'.head <= s'.tail || Minds(s'.head, s'.threads[me])
  {
    assert RepairOk(s, s.threads[me]);
  }

  /** The item of the last ticket of the head was deposited below the tail. */
  lemma TakerMinds(s: State, me: Tid)
    requires Inv(s) && me in s.threads && Minds(s.head, s.threads[me]) && s.threads[me].AtDequeue()
    ensures var s' := Next(s, me); s'.closed || s'.head <= s'.tail || Minds(s'.head, s'.threads[me])
  {
    var s' := Next(s, me);
    if s'.threads[me].DGot? {
      NextKeepsInv(s, me);
      TicketFacts(s', me);
    }
  }

  lemma MinderSteps(s: State, me: Tid)
    requires Inv(s) && me in s.threads && Minds(s.head, s.threads[me])
    ensures var s' := Next(s, me); s'.closed || s'.head <= s'.tail || Minds(s'.head, s'.threads[me])
  {
    if s.threads[me].AtDequeue() {
      TakerMinds(s, me);
    } else if AbsPc(s.threads[me]).Repairing? {
      RepairMinds(s, me);
    }
  }

  /** A step that is not a draw of the head leaves head and the others' places alone. */
  lemma StepKeepsHead(s: State, me: Tid)
    requires Inv(s) && !(me in s.threads && s.threads[me].DDraw?)
    ensures var s' := Next(s, me); s'.head == s.head && s.tail <= s'.tail && (s.closed ==> s'.closed)
  {
    if me in s.threads { assert RepairOk(s, s.threads[me]); }
  }

  lemma NextMinds(s: State, me: Tid)
    requires Inv(s) && TailMinded(s)
    ensures TailMinded(Next(s, me))
  {
    var s' := Next(s, me);
    if me in s.threads && s.threads[me].DDraw? {
      assert Minds(s'.head, s'.threads[me]);
    } else {
      StepKeepsHead(s, me);
      if !s.closed && s.tail < s.head {
        var b :| b in s.threads && Minds(s.head, s.threads[b]);
        if b == me { MinderSteps(s, me); }
        assert b in s'.threads && (b != me ==> Minds(s'.head, s'.threads[b]));
      }
    }
  }

  lemma BeginMinds(s: State, me: Tid, call: Call)
    requires WellFormed(s) && IsIdle(s, me) && TailMinded(s)
    ensures TailMinded(Begin(s, me, call))
  {
    if !s.closed && s.tail < s.head {
      var b :| b in s.threads && Minds(s.head, s.threads[b]);
      assert b in Begin(s, me, call).threads && Minds(s.head, Begin(s, me, call).threads[b]);
    }
  }

  lemma {:induction false} EveryRunMinds(schedule: seq<Act>)
    ensures TailMinded(Run(schedule))
  {
    if schedule != [] {
      var before, act := schedule[..|schedule| - 1], schedule[|schedule| - 1];
      EveryRunKeepsInv(before);
      EveryRunMinds(before);
      RunUnfolds(schedule);
      match act
      case Go(me) => NextMinds(Run(before), me);
      case Invoke(me, call) => if IsIdle(Run(before), me) { BeginMinds(Run(before), me, call); }
    }
  }

  /** When no dequeue is at work, an open ring's tail is not behind its head. */
  lemma QuiescentTail(schedule: seq<Act>)
    requires var s := Run(schedule);
      forall b <- s.threads :: AbsPc(s.threads[b]).Enqueueing? || AbsPc(s.threads[b]).Holding? || IsIdle(s, b)
    ensures Run(schedule).closed || Run(schedule).head <= Run(schedule).tail
  {
    EveryRunMinds(schedule);
  }
}
