/** What one call on a PRQ amounts to, as its schedule tells it: the tickets it draws, and why it answers CLOSED. */
module PrqCalls {
  import opened RingGeometry
  import opened TicketRing
  import opened Prq
  import opened PrqPromises

  // ---- The latest call of a thread, as the schedule tells it ----

  /** act begins a call of me. */
  predicate Starts(s: State, act: Act, me: Tid) {
    act.Invoke? && act.me == me && IsIdle(s, me)
  }

  /** act draws a ticket for me: from the tail if the ring is open, or from the head. */
  predicate Draws(s: State, act: Act, me: Tid) {
    act == Go(me) && me in s.threads && ((s.threads[me].EDraw? && !s.closed) || s.threads[me].DDraw?)
  }

  /** The latest call of me begins at this instant of the schedule. */
  function CallStart(schedule: seq<Act>, me: Tid): (m: nat)
    ensures m <= |schedule|
  {
    if schedule == [] then 0
    else
      var before := schedule[..|schedule| - 1];
      if Starts(Run(before), schedule[|schedule| - 1], me) then |schedule| else CallStart(before, me)
  }

  /** The tickets drawn in a call of me, after act. */
  function DrawnAfter(s: State, act: Act, me: Tid, drawn: seq<nat>): seq<nat> {
    if Starts(s, act, me) then []
    else if Draws(s, act, me) then drawn + [if s.threads[me].DDraw? then s.head else s.tail]
    else drawn
  }

  /** The tickets drawn in the latest call of me. */
  function Drawn(schedule: seq<Act>, me: Tid): seq<nat> {
    if schedule == [] then []
    else
      var before := schedule[..|schedule| - 1];
      DrawnAfter(Run(before), schedule[|schedule| - 1], me, Drawn(before, me))
  }

  predicate LastIs(tickets: seq<nat>, t: nat) {
    tickets != [] && tickets[|tickets| - 1] == t
  }

  /** A thread's count of attempts and its ticket are those of the schedule. */
  predicate Tallied(pc: Pc, drawn: seq<nat>) {
    match pc
    case EDraw(_, k) => |drawn| == k
    case EReadStamp(_, k, t) => |drawn| == k + 1 && LastIs(drawn, t)
    case EReadValue(_, k, t, _) => |drawn| == k + 1 && LastIs(drawn, t)
    case EReadHead(_, k, t, _, _) => |drawn| == k + 1 && LastIs(drawn, t)
    case EPlaceToken(_, k, t, _, _) => |drawn| == k + 1 && LastIs(drawn, t)
    case EStamp(_, k, t, _) => |drawn| == k + 1 && LastIs(drawn, t)
    case EWithdraw(_, k, t) => |drawn| == k + 1 && LastIs(drawn, t)
    case EDeposit(_, k, t) => |drawn| == k + 1 && LastIs(drawn, t)
    case EOverflow(_, k, t) => |drawn| == k + 1 && LastIs(drawn, t)
    case EOk(_, t) => LastIs(drawn, t)
    case DReadTail(h) => LastIs(drawn, h)
    case DGot(h, _) => LastIs(drawn, h)
    case _ => pc.AtDequeue() ==> LastIs(drawn, pc.Ticket())
  }

  lemma AccessTallies(c: Cell, me: Tid, pc: Pc, drawn: seq<nat>)
    requires pc.AtCell() && Tallied(pc, drawn)
    ensures Tallied(CellAccess(c, me, pc).pc, drawn)
  {}

  lemma StepTallies(s: State, me: Tid, drawn: seq<nat>)
    requires WellFormed(s) && me in s.threads && Tallied(s.threads[me], drawn)
    ensures Tallied(Next(s, me).threads[me], DrawnAfter(s, Go(me), me, drawn))
  {
    var pc := s.threads[me];
    if pc.AtCell() { AccessTallies(At(s, pc.Ticket()), me, pc, drawn); }
  }

  /** Nobody else moves a thread. */
  lemma OthersStand(s: State, act: Act, me: Tid)
    requires WellFormed(s) && act != Go(me) && !Starts(s, act, me)
    ensures me in s.threads <==> me in Perform(s, act).threads
    ensures me in s.threads ==> Perform(s, act).threads[me] == s.threads[me]
  {}

  lemma RunUnfolds(schedule: seq<Act>)
    requires schedule != []
    ensures Run(schedule) == Perform(Run(schedule[..|schedule| - 1]), schedule[|schedule| - 1])
  {}

  lemma {:induction false} CallIsTallied(schedule: seq<Act>, me: Tid)
    ensures me in Run(schedule).threads ==> Tallied(Run(schedule).threads[me], Drawn(schedule, me))
  {
    if schedule != [] {
      var before, act := schedule[..|schedule| - 1], schedule[|schedule| - 1];
      var s := Run(before);
      RunUnfolds(schedule);
      CallIsTallied(before, me);
      if Starts(s, act, me) {
      } else if act != Go(me) {
        OthersStand(s, act, me);
      } else if me in s.threads {
        StepTallies(s, me, Drawn(before, me));
      }
    }
  }

  // ---- Why an enqueue answers CLOSED ----

  /** A failed attempt under ticket t is the call's last: t is overtaken or does not fit, or it is one too many. */
  predicate Hopeless(s: State, t: nat, drawn: seq<nat>) {
    t < s.head || s.head + R <= t || StarvingThreshold + 1 < |drawn|
  }

  /** me's next access shows it a reason to give up: the ring is closed, or its last attempt was hopeless. */
  predicate Despairs(s: State, me: Tid, drawn: seq<nat>) {
    && me in s.threads
    && (|| (s.threads[me].EDraw? && s.closed)
        || (s.threads[me].EOverflow? && LastIs(drawn, s.threads[me].t) && Hopeless(s, s.threads[me].t, drawn)))
  }

  predicate GaveUp(pc: Pc) {
    pc.EClose? || pc.EClosed?
  }

  /** One access: a call gives up exactly when it has a reason to, and stays with that. */
  lemma StepGivesUp(s: State, me: Tid, drawn: seq<nat>)
    requires WellFormed(s) && me in s.threads && Tallied(s.threads[me], drawn)
    ensures GaveUp(Next(s, me).threads[me]) <==> GaveUp(s.threads[me]) || Despairs(s, me, drawn)
    ensures GaveUp(Next(s, me).threads[me]) ==> DrawnAfter(s, Go(me), me, drawn) == drawn
    ensures Next(s, me).threads[me].EClosed? && !s.threads[me].EClosed? ==> Next(s, me).closed
  {
    var pc := s.threads[me];
    if pc.AtCell() { assert !CellAccess(At(s, pc.Ticket()), me, pc).pc.EClose?; }
  }

  /** At instant m of its latest call, me has a reason to give up. */
  ghost predicate SeesReason(schedule: seq<Act>, me: Tid, m: nat) {
    CallStart(schedule, me) <= m < |schedule| && schedule[m] == Go(me)
    && Despairs(Run(schedule[..m]), me, Drawn(schedule, me))
  }

  /**
   * CLOSED has a reason inside the call: the ring was closed already, or the head had passed the last
   * ticket drawn or was R or more behind it, or more than StarvingThreshold + 1 tickets had been drawn.
   */
  lemma {:induction false} ClosedHasReason(schedule: seq<Act>, me: Tid)
    requires me in Run(schedule).threads && GaveUp(Run(schedule).threads[me])
    ensures exists m: nat :: SeesReason(schedule, me, m)
  {
    var n := |schedule| - 1;
    var before, act := schedule[..n], schedule[n];
    var s := Run(before);
    RunUnfolds(schedule);
    CallIsTallied(before, me);
    if act == Go(me) { StepGivesUp(s, me, Drawn(before, me)); } else { OthersStand(s, act, me); }
    if act == Go(me) && !GaveUp(s.threads[me]) {
      assert SeesReason(schedule, me, n);
    } else {
      ClosedHasReason(before, me);
      var m: nat :| SeesReason(before, me, m);
      assert before[..m] == schedule[..m] && before[m] == schedule[m];
      assert SeesReason(schedule, me, m);
    }
  }

  /** After a failed attempt the call gives up in exactly the hopeless cases, and otherwise draws again. */
  lemma OverflowDecides(schedule: seq<Act>, me: Tid)
    requires me in Run(schedule).threads && Run(schedule).threads[me].EOverflow?
    ensures var s, drawn := Run(schedule), Drawn(schedule, me);
      && drawn != []
      && Next(s, me).threads[me] == if Hopeless(s, drawn[|drawn| - 1], drawn) then EClose(s.threads[me].x)
                                    else EDraw(s.threads[me].x, |drawn|)
  {
    CallIsTallied(schedule, me);
    OverflowStep(Run(schedule), me, Drawn(schedule, me));
  }

  lemma OverflowStep(s: State, me: Tid, drawn: seq<nat>)
    requires WellFormed(s) && me in s.threads && s.threads[me].EOverflow? && Tallied(s.threads[me], drawn)
    ensures Next(s, me).threads[me] ==
      if Hopeless(s, drawn[|drawn| - 1], drawn) then EClose(s.threads[me].x) else EDraw(s.threads[me].x, |drawn|)
  {}

  /** Once it has a reason, the call draws no further ticket; its answer is CLOSED, and the ring is closed. */
  lemma {:induction false} GivesUp(schedule: seq<Act>, me: Tid, m: nat)
    requires CallStart(schedule, me) <= m < |schedule| && schedule[m] == Go(me)
    requires Despairs(Run(schedule[..m]), me, Drawn(schedule[..m], me))
    ensures Drawn(schedule, me) == Drawn(schedule[..m], me)
    ensures me in Run(schedule).threads && GaveUp(Run(schedule).threads[me])
  {
    var n := |schedule| - 1;
    var before, act := schedule[..n], schedule[n];
    RunUnfolds(schedule);
    CallIsTallied(before, me);
    if m < n {
      assert before[..m] == schedule[..m] && before[m] == schedule[m];
      GivesUp(before, me, m);
    }
    if act == Go(me) { StepGivesUp(Run(before), me, Drawn(before, me)); } else { OthersStand(Run(before), act, me); }
  }

  lemma RefusedIsClosed(s: State, me: Tid)
    requires Valid(Abs(s)) && me in s.threads && s.threads[me].EClosed?
    ensures s.closed
  {
    TicketFacts(s, me);
  }

  /** An enqueue that has answered CLOSED leaves the ring closed. */
  lemma ClosedIsClosed(schedule: seq<Act>, me: Tid)
    requires me in Run(schedule).threads && Run(schedule).threads[me].EClosed?
    ensures Run(schedule).closed
  {
    EveryRunKeepsInv(schedule);
    RefusedIsClosed(Run(schedule), me);
  }
}
