/** TwoLockQueue: a thread that runs alone returns, unless it waits for a lock that another thread holds. */
module TwoLockAlone {
  import opened Fifo
  import opened TwoLockQueue

  /** n accesses of me with nobody else running. */
  function Alone(s: State, me: Tid, n: nat): State {
    if n == 0 then s else Next(Alone(s, me, n - 1), me)
  }

  /** The accesses a call still needs, once it has no lock to wait for. */
  function Cost(pc: Pc): (c: nat)
    ensures c <= 7
  {
    match pc
    case ELock(_) => 4
    case ELinkNode(_) => 3
    case ESetTail(_) => 2
    case EUnlock => 1
    case DLock => 7
    case DReadHead => 6
    case DReadNext(_) => 5
    case DReadItem(_, _) => 4
    case DSetHead(_, _, _) => 3
    case DUnlock(_, _) => 2
    case DDelete(_, _) => 1
    case DUnlockEmpty => 1
    case _ => 0
  }

  /** me waits for a lock that is held. */
  predicate Blocked(s: State, me: Tid) {
    && me in s.threads
    && ((s.threads[me].ELock? && s.mem.tailLock.HeldBy?) || (s.threads[me].DLock? && s.mem.headLock.HeldBy?))
  }

  lemma EnqueueCostFalls(s: Memory, me: Tid, pc: Pc)
    requires Shape(s) && Knows(s, me, pc) && Enqueues(pc) && (pc.ELock? ==> s.tailLock.Free?)
    ensures Cost(Continue(s, pc)) < Cost(pc) && !Continue(s, pc).ELock? && !Continue(s, pc).DLock?
  {}

  lemma DequeueCostFalls(s: Memory, me: Tid, pc: Pc)
    requires Shape(s) && Knows(s, me, pc) && !Enqueues(pc) && (pc.DLock? ==> s.headLock.Free?)
    requires !pc.EDone? && !pc.DDone? && !pc.DFalse?
    ensures Cost(Continue(s, pc)) < Cost(pc) && !Continue(s, pc).ELock? && !Continue(s, pc).DLock?
  {}

  /** Every access of a running call that is not blocked brings its return nearer. */
  lemma CostFalls(s: State, me: Tid)
    requires Inv(s) && me in s.threads && !IsIdle(s, me) && !Blocked(s, me)
    ensures Cost(Next(s, me).threads[me]) < Cost(s.threads[me]) && !Blocked(Next(s, me), me)
  {
    var pc := s.threads[me];
    assert Knows(s.mem, me, pc);
    if Enqueues(pc) { EnqueueCostFalls(s.mem, me, pc); } else { DequeueCostFalls(s.mem, me, pc); }
  }

  lemma StandsStill(s: State, me: Tid)
    requires IsIdle(s, me) || Blocked(s, me)
    ensures Next(s, me) == s
  {
    if me in s.threads { assert s.threads[me := s.threads[me]] == s.threads; }
  }

  /** What each access of me keeps, any number of them keep. */
  lemma {:induction false} AloneKeeps(keeps: (State, nat) -> bool, s: State, me: Tid, n: nat)
    requires keeps(s, 0) && forall t, k: nat :: keeps(t, k) ==> keeps(Next(t, me), k + 1)
    ensures keeps(Alone(s, me, n), n)
  {
    if n != 0 { AloneKeeps(keeps, s, me, n - 1); }
  }

  /** After k accesses me has returned, or the accesses it may still need are fewer by k than c. */
  ghost predicate Nears(s: State, me: Tid, k: nat, c: nat) {
    Inv(s) && me in s.threads && (IsIdle(s, me) || (!Blocked(s, me) && k + Cost(s.threads[me]) <= c))
  }

  lemma OneAccess(s: State, me: Tid, k: nat, c: nat)
    requires Nears(s, me, k, c)
    ensures Nears(Next(s, me), me, k + 1, c)
  {
    NextKeepsInv(s, me);
    if IsIdle(s, me) { StandsStill(s, me); } else { CostFalls(s, me); }
  }

  lemma FreeReturns(s: State, me: Tid, n: nat)
    requires Inv(s) && me in s.threads && !Blocked(s, me) && 7 <= n
    ensures IsIdle(Alone(s, me, n), me)
  {
    forall t, k: nat | Nears(t, me, k, 7) ensures Nears(Next(t, me), me, k + 1, 7) {
      OneAccess(t, me, k, 7);
    }
    AloneKeeps((t: State, k: nat) => Nears(t, me, k, 7), s, me, n);
    var e := Alone(s, me, n);
    if !IsIdle(e, me) { CostFalls(e, me); }
  }

  lemma {:induction false} BlockedStays(s: State, me: Tid, n: nat)
    requires Blocked(s, me)
    ensures Alone(s, me, n) == s
  {
    if n != 0 {
      BlockedStays(s, me, n - 1);
      StandsStill(s, me);
    }
  }

  /**
   * From every reachable state a thread that runs alone has returned after seven accesses, exactly if
   * it does not wait for a lock that another thread holds.
   */
  lemma AloneReturnsIff(s: State, me: Tid, n: nat)
    requires Inv(s) && me in s.threads && 7 <= n
    ensures IsIdle(Alone(s, me, n), me) <==> !Blocked(s, me)
  {
    if Blocked(s, me) { BlockedStays(s, me, n); } else { FreeReturns(s, me, n); }
  }

  /** A held lock is held by another thread, which is inside its section and does not wait for a lock. */
  lemma HolderIsFree(s: State, me: Tid)
    requires Inv(s) && Blocked(s, me)
    ensures exists b ::
      && b in s.threads && b != me && !Blocked(s, b)
      && if s.threads[me].ELock? then InTailSection(s.threads[b]) else InHeadSection(s.threads[b])
  {
    var b := if s.threads[me].ELock? then s.mem.tailLock.owner else s.mem.headLock.owner;
    assert b in s.threads;
  }
}
