/**
 * PLJQueue: a half-done operation is never forgotten. Whenever the queue is in a state of Figure 2 that
 * needs help, the thread whose operation it is has yet to finish it; helpers may be quicker.
 */
module PljOwners {
  import opened Fifo
  import opened Plj

  /** The states in which some operation is half done. */
  predicate Unfinished(state: nat) {
    state != 1 && state != 3 && state != 7
  }

  /** pc is in the middle of the operation that has led to this state. */
  predicate Minds(s: Memory, pc: Pc) {
    var state := StateOf(s);
    if state == 2 || state == 5 then pc.EMoveTail? && pc.tail == s.tail
    else if state == 8 then pc.EFirstHead? && pc.head == s.head
    else if state == 4 then pc.DNullTail? && pc.tail == s.tail && pc.head == s.head
    else state == 6 && (pc.DNullTail? || pc.DNullHead?) && pc.head == s.head
  }

  ghost predicate Minded(s: State) {
    Unfinished(StateOf(s.mem)) ==> exists b :: b in s.threads && Minds(s.mem, s.threads[b])
  }

  /** Whoever minds a half-done operation still does after the update, or the update finishes it. */
  ghost predicate StaysMinded(s: Memory, s': Memory, pb: Pc) {
    Unfinished(StateOf(s')) ==> Unfinished(StateOf(s)) && (Minds(s, pb) ==> Minds(s', pb))
  }

  lemma SwungIsFinished(s: Memory, y: nat, z: nat)
    requires Shape(s) && Lags(s, y, z) && s.tail.link == To(y)
    ensures StateOf(s.(tail := Bump(s.tail, To(z)))) == 1 || StateOf(s.(tail := Bump(s.tail, To(z)))) == 3
  {
    assert Ends(s.heap[s.live[|s.live| - 1]].next);
  }

  lemma TailMoveIsMinded(s: Memory, pc: Pc, pb: Pc)
    requires Shape(s) && Knows(s, pc) && (pc.EMoveTail? || pc.HSwingTail?)
    ensures StaysMinded(s, Update(s, pc), pb)
  {
    if s.tail == pc.tail { SwungIsFinished(s, pc.tail.link.id, if pc.EMoveTail? then pc.o else pc.to.id); }
  }

  lemma HeadMoveIsMinded(s: Memory, pc: Pc, pb: Pc)
    requires Shape(s) && Knows(s, pc) && (pc.EFirstHead? || pc.HFixHead?)
    ensures StaysMinded(s, Update(s, pc), pb)
  {}

  lemma NullHeadIsMinded(s: Memory, pc: Pc, pb: Pc)
    requires Shape(s) && Knows(s, pc) && (pc.DNullHead? || pc.HNullHead?)
    ensures StaysMinded(s, Update(s, pc), pb)
  {}

  lemma ShiftIsMinded(s: Memory, pc: Pc, pb: Pc)
    requires Shape(s) && Knows(s, pc) && pc.DShiftHead?
    ensures StaysMinded(s, Update(s, pc), pb)
  {
    if s.head == pc.head { ShiftFollowsFigure2(s); }
  }

  lemma DelinkIsMinded(s: Memory, pc: Pc, pb: Pc)
    requires Knows(s, pc) && pc.DDelink?
    ensures StaysMinded(s, Update(s, pc), pb)
  {
    var s' := Update(s, pc);
    assert s'.head == s.head && s'.tail == s.tail && NextOf(s', s.tail.link) == NextOf(s, s.tail.link);
  }

  /** Nulling the tail of a marked queue: its owner, at either of its two updates, is still at work. */
  lemma NullTailIsMinded(s: Memory, pc: Pc, pb: Pc)
    requires Shape(s) && Knows(s, pc) && (pc.DNullTail? || pc.HNullTail?)
    ensures StaysMinded(s, Update(s, pc), pb)
    ensures pc.DNullTail? && Minds(s, pc) && Unfinished(StateOf(Update(s, pc))) ==>
      Minds(Update(s, pc), Continue(s, pc))
  {}

  predicate StartsHalf(pc: Pc) {
    pc.EAppend? || pc.EFirstTail? || pc.DMark?
  }

  /** An update that leaves an operation half done leaves its thread in the middle of it. */
  lemma HalfIsMinded(s: Memory, pc: Pc)
    requires Shape(s) && Knows(s, pc) && StartsHalf(pc) && Continue(s, pc) != Again(Deq)
    requires pc.EAppend? || pc.EFirstTail? ==> Continue(s, pc) != Again(Enq(pc.o))
    ensures Unfinished(StateOf(Update(s, pc))) ==> Minds(Update(s, pc), Continue(s, pc))
  {}

  lemma UpdateIsMinded(s: Memory, pc: Pc, pb: Pc)
    requires Shape(s) && Knows(s, pc) && !StartsHalf(pc)
    ensures StaysMinded(s, Update(s, pc), pb)
  {
    if pc.EMoveTail? || pc.HSwingTail? {
      TailMoveIsMinded(s, pc, pb);
    } else if pc.EFirstHead? || pc.HFixHead? {
      HeadMoveIsMinded(s, pc, pb);
    } else if pc.DNullHead? || pc.HNullHead? {
      NullHeadIsMinded(s, pc, pb);
    } else if pc.DShiftHead? {
      ShiftIsMinded(s, pc, pb);
    } else if pc.DDelink? {
      DelinkIsMinded(s, pc, pb);
    } else if pc.DNullTail? || pc.HNullTail? {
      NullTailIsMinded(s, pc, pb);
    }
  }

  /** A thread that minds a half-done operation finishes it, or minds it still. */
  lemma OwnerMinds(s: Memory, pc: Pc)
    requires Shape(s) && Knows(s, pc) && Minds(s, pc)
    ensures Unfinished(StateOf(Update(s, pc))) ==> Minds(Update(s, pc), Continue(s, pc))
  {
    if pc.EMoveTail? {
      TailMoveIsMinded(s, pc, pc);
    } else if pc.DNullTail? {
      NullTailIsMinded(s, pc, pc);
    }
  }

  lemma NextMinds(s: State, me: Tid)
    requires Inv(s) && Minded(s) && me in s.threads
    ensures Minded(Next(s, me))
  {
    var s', pc := Next(s, me), s.threads[me];
    assert Knows(s.mem, pc);
    if Unfinished(StateOf(s'.mem)) {
      if StartsHalf(pc) && s'.mem != s.mem {
        HalfIsMinded(s.mem, pc);
        assert me in s'.threads && Minds(s'.mem, s'.threads[me]);
      } else {
        if !StartsHalf(pc) { UpdateIsMinded(s.mem, pc, pc); }
        var b :| b in s.threads && Minds(s.mem, s.threads[b]);
        if b == me { OwnerMinds(s.mem, pc); } else if !StartsHalf(pc) { UpdateIsMinded(s.mem, pc, s.threads[b]); }
        assert b in s'.threads && Minds(s'.mem, s'.threads[b]);
      }
    }
  }

  lemma BeginMinds(s: State, me: Tid, call: Call)
    requires Inv(s) && Minded(s) && IsIdle(s, me)
    ensures Minded(Begin(s, me, call))
  {
    var s' := Begin(s, me, call);
    assert StateOf(s'.mem) == StateOf(s.mem);
    if Unfinished(StateOf(s.mem)) {
      var b :| b in s.threads && Minds(s.mem, s.threads[b]);
      assert b in s'.threads && Minds(s'.mem, s'.threads[b]);
    }
  }

  /** In every state of every run, a half-done operation is still in the hands of its thread. */
  lemma {:induction false} EveryRunMinds(schedule: seq<Act>)
    ensures Minded(Run(schedule))
  {
    if schedule != [] {
      var before, act := schedule[..|schedule| - 1], schedule[|schedule| - 1];
      EveryRunKeepsInv(before);
      EveryRunMinds(before);
      match act
      case Go(me) => if me in Run(before).threads { NextMinds(Run(before), me); }
      case Invoke(me, call) => if IsIdle(Run(before), me) { BeginMinds(Run(before), me, call); }
    }
  }

  /** Operations that have returned leave nothing half done: with no call running, the state is 1, 3 or 7. */
  lemma {:induction false} QuiescentIsFinished(schedule: seq<Act>)
    requires forall b <- Run(schedule).threads :: IsIdle(Run(schedule), b)
    ensures !Unfinished(StateOf(Run(schedule).mem))
  {
    EveryRunMinds(schedule);
  }
}
