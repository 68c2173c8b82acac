/**
 * MSQueue and ValoisQueue: a thread that runs alone returns within a few accesses, whatever the others
 * have left undone; and once an enqueue has returned, the tail has reached its node.
 */
module LinkedAlone {
  import opened Fifo
  import opened LinkedQueue

  // ---- Running alone ----

  /** n accesses of me with nobody else running. */
  function Alone(v: Variant, s: State, me: Tid, n: nat): State {
    if n == 0 then s else Next(v, Alone(v, s, me, n - 1), me)
  }

  /** 1 if the tail has yet to be swung to the last node. */
  function Lag(s: Memory): nat {
    if s.tail.link.To? && s.tail.link.id < |s.nodes| && s.nodes[s.tail.link.id].next.link != Null then 1 else 0
  }

  predicate NextIs(s: Memory, p: Link, next: Pointer) {
    Exists(s, p) && s.nodes[p.id].next == next
  }

  function EnqueueCost(s: Memory, pc: Pc): nat {
    var l := 4 * Lag(s);
    match pc
    case EReadTail(_) => l + 5
    case EReadNext(_, tail) => if tail == s.tail then l + 4 else l + 7
    case EConfirm(_, tail, next) =>
      if tail != s.tail then l + 6 else if NextIs(s, tail.link, next) then l + 3 else l + 7
    case ELink(_, tail, next) => if NextIs(s, tail.link, next) then 2 else l + 6
    case EHelp(_, tail, _) => if tail == s.tail then l + 2 else l + 6
    case ESwing(_, _) => 1
    case _ => 0
  }

  function DequeueCost(s: Memory, pc: Pc): nat {
    var l := 6 * Lag(s);
    match pc
    case DReadHead => l + 9
    case DReadTail(head) => if head == s.head then l + 8 else l + 13
    case DReadNext(head, tail) => if head == s.head && tail == s.tail then l + 7 else l + 12
    case DConfirm(head, tail, _) => if head != s.head then l + 10 else if tail == s.tail then l + 6 else l + 11
    case DHelp(tail, _) => if tail == s.tail then l + 4 else l + 10
    case DReadValue(head, _) => if head == s.head then 5 else l + 11
    case DShift(head, _, _) => if head == s.head then 4 else l + 10
    case RLoad(_, _) => 3
    case RStore(_, _, was) => if was == s.retired then 2 else 4
    case RPush(_, _, was) => if was == s.retired then 1 else 3
    case _ => 0
  }

  /** A bound on the accesses a call still needs when its thread runs alone. */
  function Cost(s: Memory, pc: Pc): (c: nat)
    ensures c <= 19
  {
    EnqueueCost(s, pc) + DequeueCost(s, pc)
  }

  /** A tail that lags is one node behind, so that one swing suffices. */
  lemma SwingEndsLag(v: Variant, s: Memory, z: nat)
    requires Shape(s) && Follows(s, s.tail.link, z)
    ensures Lag(s) == 1 && Lag(s.(tail := Pointer(To(z), Count(v, s.tail.count)))) == 0
  {
    NextInList(s, s.tail.link.id);
    NextInList(s, z);
  }

  lemma EnqueueCostFalls(v: Variant, s: Memory, pc: Pc)
    requires Shape(s) && Knows(s, pc)
    requires pc.EReadTail? || pc.EReadNext? || pc.EConfirm? || pc.ELink? || pc.ESwing?
    ensures Cost(Update(v, s, pc), Continue(v, s, pc)) < Cost(s, pc)
  {
    if pc.EReadNext? || pc.EConfirm? || pc.ELink? { NextInList(s, pc.tail.link.id); }
  }

  lemma DequeueReadCostFalls(v: Variant, s: Memory, pc: Pc)
    requires Shape(s) && Knows(s, pc)
    requires pc.DReadHead? || pc.DReadTail? || pc.DReadNext? || pc.DReadValue? || pc.RLoad?
    ensures Cost(Update(v, s, pc), Continue(v, s, pc)) < Cost(s, pc)
  {
    NeverFollowsNull(s, pc);
  }

  lemma DecisionCostFalls(v: Variant, s: Memory, pc: Pc)
    requires Shape(s) && Knows(s, pc) && pc.DConfirm?
    ensures Cost(Update(v, s, pc), Continue(v, s, pc)) < Cost(s, pc)
  {}

  lemma HelpCostFalls(v: Variant, s: Memory, pc: Pc)
    requires Shape(s) && Knows(s, pc) && (pc.DHelp? || pc.EHelp?)
    ensures Cost(Update(v, s, pc), Continue(v, s, pc)) < Cost(s, pc)
  {
    if pc.tail == s.tail { SwingEndsLag(v, s, pc.z); }
  }

  lemma RetireCostFalls(v: Variant, s: Memory, pc: Pc)
    requires Shape(s) && Knows(s, pc) && (pc.RStore? || pc.RPush?)
    ensures Cost(Update(v, s, pc), Continue(v, s, pc)) < Cost(s, pc)
  {
    NeverFollowsNull(s, pc);
  }

  lemma ShiftCostFalls(v: Variant, s: Memory, pc: Pc)
    requires Shape(s) && Knows(s, pc) && pc.DShift?
    ensures Cost(Update(v, s, pc), Continue(v, s, pc)) < Cost(s, pc)
  {}

  /** Every access of a running call brings its return nearer. */
  lemma CostFalls(v: Variant, s: State, me: Tid)
    requires Inv(v, s) && me in s.threads && !IsIdle(s, me)
    ensures var s' := Next(v, s, me); Cost(s'.mem, s'.threads[me]) < Cost(s.mem, s.threads[me])
  {
    var pc := s.threads[me];
    assert Knows(s.mem, pc);
    if pc.EReadTail? || pc.EReadNext? || pc.EConfirm? || pc.ELink? || pc.ESwing? {
      EnqueueCostFalls(v, s.mem, pc);
    } else if pc.DReadHead? || pc.DReadTail? || pc.DReadNext? || pc.DReadValue? || pc.RLoad? {
      DequeueReadCostFalls(v, s.mem, pc);
    } else if pc.EHelp? || pc.DHelp? {
      HelpCostFalls(v, s.mem, pc);
    } else if pc.DConfirm? {
      DecisionCostFalls(v, s.mem, pc);
    } else if pc.DShift? {
      ShiftCostFalls(v, s.mem, pc);
    } else {
      RetireCostFalls(v, s.mem, pc);
    }
  }

  lemma AnswerStays(v: Variant, s: State, me: Tid)
    requires IsIdle(s, me)
    ensures Next(v, s, me) == s
  {
    if me in s.threads { assert s.threads[me := s.threads[me]] == s.threads; }
  }

  /** What each access of me keeps, any number of them keep. */
  lemma {:induction false} AloneKeeps(v: Variant, keeps: (State, nat) -> bool, s: State, me: Tid, n: nat)
    requires keeps(s, 0) && forall t, k: nat :: keeps(t, k) ==> keeps(Next(v, t, me), k + 1)
    ensures keeps(Alone(v, s, me, n), n)
  {
    if n != 0 { AloneKeeps(v, keeps, s, me, n - 1); }
  }

  /** After k accesses me has returned, or the accesses it may still need are fewer by k than c. */
  ghost predicate Nears(v: Variant, s: State, me: Tid, k: nat, c: nat) {
    Inv(v, s) && me in s.threads && (IsIdle(s, me) || k + Cost(s.mem, s.threads[me]) <= c)
  }

  lemma OneAccess(v: Variant, s: State, me: Tid, k: nat, c: nat)
    requires Nears(v, s, me, k, c)
    ensures Nears(v, Next(v, s, me), me, k + 1, c)
  {
    NextKeepsInv(v, s, me);
    if IsIdle(s, me) { AnswerStays(v, s, me); } else { CostFalls(v, s, me); }
  }

  /** From every reachable state a thread that runs alone has returned after 19 accesses. */
  lemma AloneReturns(v: Variant, s: State, me: Tid, n: nat)
    requires Inv(v, s) && me in s.threads && 19 <= n
    ensures me in Alone(v, s, me, n).threads && IsIdle(Alone(v, s, me, n), me)
  {
    forall t, k: nat | Nears(v, t, me, k, 19) ensures Nears(v, Next(v, t, me), me, k + 1, 19) {
      OneAccess(v, t, me, k, 19);
    }
    AloneKeeps(v, (t: State, k: nat) => Nears(v, t, me, k, 19), s, me, n);
    StillRunning(v, Alone(v, s, me, n), me, n);
  }

  lemma StillRunning(v: Variant, s: State, me: Tid, n: nat)
    requires Nears(v, s, me, n, 19) && 19 <= n
    ensures IsIdle(s, me)
  {
    if !IsIdle(s, me) { CostFalls(v, s, me); }
  }

  // ---- The tail after an enqueue ----

  predicate HasTail(pc: Pc) {
    || pc.EReadNext? || pc.EConfirm? || pc.ELink? || pc.EHelp? || pc.ESwing?
    || pc.DReadNext? || pc.DConfirm? || pc.DHelp?
  }

  /** A tail read earlier is not ahead of the tail, and if it is the same node it is the same word. */
  predicate TailSeen(s: Memory, pc: Pc)
    requires EndsOk(s)
  {
    HasTail(pc) ==>
      && UpTo(s, pc.tail.link, TailPlace(s))
      && (pc.tail.link == s.tail.link ==> pc.tail == s.tail)
  }

  lemma SwingKeepsSeen(v: Variant, s: Memory, pc: Pc, pb: Pc)
    requires Shape(s) && Shape(Update(v, s, pc)) && Knows(s, pc) && SwingsTail(pc) && TailSeen(s, pb)
    ensures TailSeen(Update(v, s, pc), pb)
  {}

  lemma UpdateKeepsSeen(v: Variant, s: Memory, pc: Pc, pb: Pc)
    requires Shape(s) && Shape(Update(v, s, pc)) && Knows(s, pc) && TailSeen(s, pb)
    ensures TailSeen(Update(v, s, pc), pb)
  {
    if SwingsTail(pc) {
      SwingKeepsSeen(v, s, pc, pb);
    } else if HasTail(pb) {
      PlacesStay(v, s, pc, pb.tail);
      PlacesStay(v, s, pc, s.tail);
    }
  }

  lemma OwnTailSeen(v: Variant, s: Memory, pc: Pc)
    requires EndsOk(s) && TailSeen(s, pc)
    ensures TailSeen(s, Continue(v, s, pc))
  {}

  ghost predicate TailsSeen(s: State) {
    EndsOk(s.mem) && forall b <- s.threads :: TailSeen(s.mem, s.threads[b])
  }

  lemma NextKeepsSeen(v: Variant, s: State, me: Tid)
    requires Inv(v, s) && TailsSeen(s)
    ensures TailsSeen(Next(v, s, me))
  {
    NextKeepsInv(v, s, me);
    if me in s.threads {
      var pc := s.threads[me];
      forall b <- s.threads ensures TailSeen(Next(v, s, me).mem, Next(v, s, me).threads[b]) {
        if b == me { OwnTailSeen(v, s.mem, pc); }
        UpdateKeepsSeen(v, s.mem, pc, if b == me then Continue(v, s.mem, pc) else s.threads[b]);
      }
    }
  }

  lemma PerformKeepsSeen(v: Variant, s: State, act: Act)
    requires Inv(v, s) && TailsSeen(s)
    ensures TailsSeen(Perform(v, s, act))
  {
    if act.Go? { NextKeepsSeen(v, s, act.me); }
  }

  lemma {:induction false} EveryRunSees(v: Variant, schedule: seq<Act>)
    ensures Inv(v, Run(v, schedule)) && TailsSeen(Run(v, schedule))
  {
    EveryRunKeepsInv(v, schedule);
    if schedule != [] {
      var before := schedule[..|schedule| - 1];
      EveryRunSees(v, before);
      PerformKeepsSeen(v, Run(v, before), schedule[|schedule| - 1]);
    }
  }

  /** The last swing of an enqueue leaves the tail at its node, or finds it there or further on. */
  lemma SwingReaches(v: Variant, s: Memory, pc: Pc)
    requires Shape(s) && Shape(Update(v, s, pc)) && pc.ESwing? && Knows(s, pc) && TailSeen(s, pc)
    ensures var s' := Update(v, s, pc); InList(s', pc.o) && s'.place[pc.o] <= TailPlace(s')
  {}

  /** When an enqueue returns, the tail has reached its node: by its own swing, or by the help of others. */
  lemma TailReachesNode(v: Variant, schedule: seq<Act>, me: Tid)
    requires me in Run(v, schedule).threads && Run(v, schedule).threads[me].ESwing?
    ensures var s' := Next(v, Run(v, schedule), me);
      && s'.threads[me].EDone? && EndsOk(s'.mem)
      && InList(s'.mem, Run(v, schedule).threads[me].o)
      && s'.mem.place[Run(v, schedule).threads[me].o] <= TailPlace(s'.mem)
  {
    var s := Run(v, schedule);
    EveryRunSees(v, schedule);
    NextKeepsInv(v, s, me);
    SwingReaches(v, s.mem, s.threads[me]);
  }

  /** A tail that lags is about to be swung by the thread that linked the last node. */
  ghost predicate LagMinded(s: State) {
    Lag(s.mem) == 1 ==> exists b :: b in s.threads && Minds(s.mem, s.threads[b])
  }

  predicate Minds(s: Memory, pc: Pc) {
    pc.ESwing? && pc.tail == s.tail
  }

  /** A link leaves its thread about to swing; anything else makes no lag, and ends it if it moves the tail. */
  lemma UpdateMinds(v: Variant, s: Memory, pc: Pc)
    requires Shape(s) && Knows(s, pc) && TailSeen(s, pc)
    ensures var s' := Update(v, s, pc);
      Lag(s') == 1 ==> Minds(s', Continue(v, s, pc)) || (Lag(s) == 1 && s'.tail == s.tail && !Minds(s, pc))
  {
    if pc.ELink? {
      NextInList(s, pc.tail.link.id);
      NextInList(s, s.tail.link.id);
    } else if SwingsTail(pc) && pc.tail == s.tail {
      SwingEndsLag(v, s, SwingTarget(pc));
    }
  }

  lemma NextMindsLag(v: Variant, s: State, me: Tid)
    requires Inv(v, s) && TailsSeen(s) && LagMinded(s) && me in s.threads
    ensures LagMinded(Next(v, s, me))
  {
    var s', pc := Next(v, s, me), s.threads[me];
    assert Knows(s.mem, pc);
    UpdateMinds(v, s.mem, pc);
    if Lag(s'.mem) == 1 {
      if Minds(s'.mem, Continue(v, s.mem, pc)) {
        assert me in s'.threads && Minds(s'.mem, s'.threads[me]);
      } else {
        var b :| b in s.threads && Minds(s.mem, s.threads[b]);
        assert b in s'.threads && Minds(s'.mem, s'.threads[b]);
      }
    }
  }

  lemma OtherActMindsLag(v: Variant, s: State, act: Act)
    requires Inv(v, s) && LagMinded(s) && !act.Go?
    ensures LagMinded(Perform(v, s, act))
  {
    var s' := Perform(v, s, act);
    assert Lag(s'.mem) == Lag(s.mem) && s'.mem.tail == s.mem.tail by { NextInList(s.mem, s.mem.tail.link.id); }
    if Lag(s.mem) == 1 {
      var b :| b in s.threads && Minds(s.mem, s.threads[b]);
      assert b in s'.threads && Minds(s'.mem, s'.threads[b]);
    }
  }

  lemma {:induction false} EveryRunMindsLag(v: Variant, schedule: seq<Act>)
    ensures LagMinded(Run(v, schedule))
  {
    if schedule != [] {
      var before, act := schedule[..|schedule| - 1], schedule[|schedule| - 1];
      EveryRunSees(v, before);
      EveryRunMindsLag(v, before);
      if !act.Go? {
        OtherActMindsLag(v, Run(v, before), act);
      } else if act.me in Run(v, before).threads {
        NextMindsLag(v, Run(v, before), act.me);
      }
    }
  }

  /** With no call running, the tail is at the last node. */
  lemma QuiescentTailIsLast(v: Variant, schedule: seq<Act>)
    requires forall b <- Run(v, schedule).threads :: IsIdle(Run(v, schedule), b)
    ensures var s := Run(v, schedule).mem; EndsOk(s) && TailPlace(s) == |s.order| - 1
  {
    EveryRunMindsLag(v, schedule);
    EveryRunSees(v, schedule);
    var s := Run(v, schedule).mem;
    NextInList(s, s.tail.link.id);
  }
}
