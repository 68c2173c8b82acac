/**
 * LCRQueue can lose an item: `dequeue` leaves a ring after a single EMPTY, and an item that was
 * deposited after that EMPTY stays behind. The run below does this for every ring size.
 */
module LcrAbandons {
  import opened RingGeometry
  import opened TicketRing
  import opened RingList
  import opened LcrQueue
  import Crq

  // ---- Building runs ----

  ghost predicate Reachable(s: List<Crq.State>) {
    exists run, who :: IsLcrRun(run, who) && run[|who|] == s
  }

  lemma InitReachable()
    ensures Reachable(List([Crq.Init()], 0, 0, map[], []))
  {
    var run := [List([Crq.Init()], 0, 0, map[], [])];
    var who: seq<Tid> := [];
    assert IsLcrRun(run, who) && run[|who|] == run[0];
  }

  lemma StepReachable(s: List<Crq.State>, s': List<Crq.State>, me: Tid)
    requires Reachable(s) && ListStep(CrqApi(), false, s, s', me)
    ensures Reachable(s')
  {
    var run, who :| IsLcrRun(run, who) && run[|who|] == s;
    var run', who' := run + [s'], who + [me];
    forall i | 0 <= i < |who'| ensures ListStep(CrqApi(), false, run'[i], run'[i + 1], who'[i]) {
      if i < |who| { assert run'[i] == run[i] && run'[i + 1] == run[i + 1] && who'[i] == who[i]; }
    }
    assert IsLcrRun(run', who') && run'[|who'|] == s';
  }

  /** A list of one ring. */
  function OneRing(q: Crq.State, threads: map<Tid, Pc>, log: seq<Event>): List<Crq.State> {
    List([q], 0, 0, threads, log)
  }

  lemma EnqueueBegins(q: Crq.State, threads: map<Tid, Pc>, log: seq<Event>, me: Tid, x: Item)
    requires Reachable(OneRing(q, threads, log)) && me !in threads
    ensures Reachable(OneRing(Crq.Begin(q, me, Enqueue(x)), threads[me := EInRing(x, |log|, 0)], log))
  {
    var s0 := OneRing(q, threads, log);
    var s1 := OneRing(q, threads[me := EReadTail(x, |log|)], log);
    var s2 := OneRing(q, threads[me := EReadNext(x, |log|, 0)], log);
    var s3 := OneRing(Crq.Begin(q, me, Enqueue(x)), threads[me := EInRing(x, |log|, 0)], log);
    StepReachable(s0, s1, me);
    assert s1.threads[me := EReadNext(x, |log|, 0)] == s2.threads;
    StepReachable(s1, s2, me);
    assert s2.threads[me := EInRing(x, |log|, 0)] == s3.threads;
    StepReachable(s2, s3, me);
  }

  lemma DequeueBegins(q: Crq.State, threads: map<Tid, Pc>, log: seq<Event>, me: Tid)
    requires Reachable(OneRing(q, threads, log)) && me !in threads
    ensures Reachable(OneRing(Crq.Begin(q, me, Dequeue), threads[me := DInRing(|log|, 0, false, false)], log))
  {
    var s0 := OneRing(q, threads, log);
    var s1 := OneRing(q, threads[me := DReadHead(|log|)], log);
    var s2 := OneRing(Crq.Begin(q, me, Dequeue), threads[me := DInRing(|log|, 0, false, false)], log);
    StepReachable(s0, s1, me);
    assert s1.threads[me := DInRing(|log|, 0, false, false)] == s2.threads;
    StepReachable(s1, s2, me);
  }

  /** me has not been answered yet in ring q. */
  predicate Working(q: Crq.State, me: Tid) {
    me in q.threads && !Answered(Crq.AbsPc(q.threads[me]))
  }

  ghost predicate InRing(s: List<Crq.State>, q: Crq.State, me: Tid) {
    && s.rings == [q] && me in s.threads
    && (s.threads[me].EInRing? || s.threads[me].DInRing?) && s.threads[me].k == 0
  }

  /** The same place in the list, up to what the history says of emptiness. */
  predicate SameCall(pc: Pc, pc': Pc) {
    if pc.DInRing? then pc'.DInRing? && pc'.since == pc.since && pc'.k == pc.k && pc'.again == pc.again
    else pc' == pc
  }

  /** One step inside the ring; only a dequeue's `quiet` may change in the list. */
  lemma RingMoves(s: List<Crq.State>, q: Crq.State, me: Tid) returns (s': List<Crq.State>)
    requires Reachable(s) && InRing(s, q, me) && Crq.WellFormed(q) && Working(q, me)
    ensures Reachable(s') && InRing(s', Crq.Next(q, me), me)
    ensures s' == s.(rings := s'.rings, threads := s.threads[me := s'.threads[me]])
    ensures SameCall(s.threads[me], s'.threads[me])
  {
    var q' := Crq.Next(q, me);
    var pc := s.threads[me];
    assert PhaseIn(CrqApi(), q, me) == Crq.AbsPc(q.threads[me]);
    if pc.EInRing? {
      s' := s.(rings := [q']);
      assert s.threads[me := pc] == s.threads;
      assert s.rings[0 := q'] == [q'];
    } else {
      var quiet := if AnswersEmpty(Crq.Abs(q), Crq.Abs(q'), me) then EverythingClaimed(CrqApi(), s) else pc.quiet;
      s' := s.(rings := [q'], threads := s.threads[me := DInRing(pc.since, 0, pc.again, quiet)]);
      assert s.rings[0 := q'] == [q'];
    }
    StepReachable(s, s', me);
  }

  /** n steps inside the ring. */
  lemma {:induction false} RingRuns(s: List<Crq.State>, q: Crq.State, me: Tid, n: nat) returns (s': List<Crq.State>)
    requires Reachable(s) && InRing(s, q, me) && Crq.WellFormed(q)
    requires forall i: nat | i < n :: Working(Crq.Alone(q, me, i), me)
    ensures Reachable(s') && InRing(s', Crq.Alone(q, me, n), me)
    ensures s' == s.(rings := s'.rings, threads := s.threads[me := s'.threads[me]])
    ensures SameCall(s.threads[me], s'.threads[me])
  {
    if n == 0 {
      s' := s;
      assert s.threads[me := s.threads[me]] == s.threads;
    } else {
      var m := RingRuns(s, q, me, n - 1);
      s' := RingMoves(m, Crq.Alone(q, me, n - 1), me);
    }
  }

  // ---- What happens in the ring ----

  // Thread 3 draws ticket 0 and stalls; thread 1 finds the ring empty; thread 2 enqueues x under
  // ticket 1; thread 3 wakes up, finds its ticket passed and closes the ring.

  const N0 := Crq.Init().nodes
  const N1 := N0[Slot(0) := Crq.Node(Crq.Stamp(true, R), Crq.Null)]

  function N2(x: Item): seq<Crq.Node> {
    N1[Slot(1) := Crq.Node(Crq.Stamp(true, 1), Crq.Full(x))]
  }

  function Drawn(y: Item): Crq.State {
    Crq.State(0, 1, false, N0, map[3 := Crq.EReadValue(y, 0, 0)], Blank)
  }

  lemma Draws(y: Item)
    ensures var q := Crq.Begin(Crq.Init(), 3, Enqueue(y)); Working(q, 3) && Crq.Alone(q, 3, 1) == Drawn(y)
  {}

  const Retired0 := Ledger(map[], {}, {0})

  function FoundEmpty(y: Item): Crq.State {
    Crq.State(1, 1, false, N1, map[3 := Crq.EReadValue(y, 0, 0), 1 := Crq.DEmpty], Retired0)
  }

  function DequeuerAt(y: Item, head: nat, nodes: seq<Crq.Node>, pc: Crq.Pc, l: Ledger): Crq.State {
    Crq.State(head, 1, false, nodes, map[3 := Crq.EReadValue(y, 0, 0), 1 := pc], l)
  }

  lemma DequeuerReads(y: Item)
    ensures var q := Crq.Begin(Drawn(y), 1, Dequeue);
      Crq.Alone(q, 1, 2) == DequeuerAt(y, 1, N0, Crq.DReadStamp(0, Crq.Null), Blank)
      && forall i: nat | i < 2 :: Working(Crq.Alone(q, 1, i), 1)
  {
    assert Slot(0) == 0 && N0[0] == Crq.Node(Crq.Stamp(true, 0), Crq.Null);
    var q := Crq.Begin(Drawn(y), 1, Dequeue);
    assert Crq.Alone(q, 1, 0) == DequeuerAt(y, 0, N0, Crq.DDraw, Blank);
    assert Crq.Alone(q, 1, 1) == DequeuerAt(y, 1, N0, Crq.DReadValue(0), Blank);
  }

  lemma DequeuerRetires(y: Item)
    ensures var q := DequeuerAt(y, 1, N0, Crq.DReadStamp(0, Crq.Null), Blank);
      Crq.Alone(q, 1, 2) == DequeuerAt(y, 1, N1, Crq.DReadTail(0), Retired0)
      && forall i: nat | i < 2 :: Working(Crq.Alone(q, 1, i), 1)
  {
    assert Slot(0) == 0 && N0[0] == Crq.Node(Crq.Stamp(true, 0), Crq.Null);
    var q := DequeuerAt(y, 1, N0, Crq.DReadStamp(0, Crq.Null), Blank);
    assert Crq.Alone(q, 1, 0) == q;
    assert Crq.Alone(q, 1, 1) == DequeuerAt(y, 1, N0, Crq.DAdvance(0, Crq.Stamp(true, 0)), Blank);
  }

  lemma DequeuerChecks(y: Item)
    ensures var q := DequeuerAt(y, 1, N1, Crq.DReadTail(0), Retired0);
      Crq.Alone(q, 1, 2) == DequeuerAt(y, 1, N1, Crq.FReadTail(1), Retired0)
      && forall i: nat | i < 2 :: Working(Crq.Alone(q, 1, i), 1)
  {
    var q := DequeuerAt(y, 1, N1, Crq.DReadTail(0), Retired0);
    assert Crq.Alone(q, 1, 0) == q;
    assert Crq.Alone(q, 1, 1) == DequeuerAt(y, 1, N1, Crq.FReadHead, Retired0);
  }

  lemma DequeuerSaysEmpty(y: Item)
    ensures var q := DequeuerAt(y, 1, N1, Crq.FReadTail(1), Retired0);
      Crq.Alone(q, 1, 2) == FoundEmpty(y) && forall i: nat | i < 2 :: Working(Crq.Alone(q, 1, i), 1)
  {
    var q := DequeuerAt(y, 1, N1, Crq.FReadTail(1), Retired0);
    assert Crq.Alone(q, 1, 0) == q;
    assert Crq.Alone(q, 1, 1) == DequeuerAt(y, 1, N1, Crq.FConfirmTail(1, false, 1), Retired0);
  }

  function EnqueuerAt(y: Item, tail: nat, nodes: seq<Crq.Node>, pc: Crq.Pc, l: Ledger): Crq.State {
    Crq.State(1, tail, false, nodes, map[3 := Crq.EReadValue(y, 0, 0), 1 := Crq.DEmpty, 2 := pc], l)
  }

  function Deposited(y: Item, x: Item): Crq.State {
    EnqueuerAt(y, 2, N2(x), Crq.EOk(x, 1), Ledger(map[1 := x], {}, {0}))
  }

  lemma EnqueuerReads(y: Item, x: Item)
    ensures var q := Crq.Begin(FoundEmpty(y), 2, Enqueue(x));
      Crq.Alone(q, 2, 2) == EnqueuerAt(y, 2, N1, Crq.EReadStamp(x, 0, 1, Crq.Null), Retired0)
      && forall i: nat | i < 2 :: Working(Crq.Alone(q, 2, i), 2)
  {
    assert N1[Slot(1)] == Crq.Node(Crq.Stamp(true, 1), Crq.Null);
    var q := Crq.Begin(FoundEmpty(y), 2, Enqueue(x));
    assert Crq.Alone(q, 2, 0) == EnqueuerAt(y, 1, N1, Crq.EDraw(x, 0), Retired0);
    assert Crq.Alone(q, 2, 1) == EnqueuerAt(y, 2, N1, Crq.EReadValue(x, 0, 1), Retired0);
  }

  lemma EnqueuerDeposits(y: Item, x: Item)
    ensures var q := EnqueuerAt(y, 2, N1, Crq.EReadStamp(x, 0, 1, Crq.Null), Retired0);
      Crq.Alone(q, 2, 2) == Deposited(y, x) && forall i: nat | i < 2 :: Working(Crq.Alone(q, 2, i), 2)
  {
    assert N1[Slot(1)] == Crq.Node(Crq.Stamp(true, 1), Crq.Null);
    var q := EnqueuerAt(y, 2, N1, Crq.EReadStamp(x, 0, 1, Crq.Null), Retired0);
    assert Crq.Alone(q, 2, 0) == q;
    assert Crq.Alone(q, 2, 1) == EnqueuerAt(y, 2, N1, Crq.EDeposit(x, 0, 1, Crq.Stamp(true, 1)), Retired0);
  }

  function WakerAt(x: Item, closed: bool, pc: Crq.Pc): Crq.State {
    Crq.State(1, 2, closed, N2(x), map[3 := pc, 1 := Crq.DEmpty, 2 := Crq.EOk(x, 1)], Ledger(map[1 := x], {}, {0}))
  }

  /** Ticket 0 is overtaken: its node holds x if R is 1, and has moved on to index R otherwise. */
  lemma WakerReads(y: Item, x: Item)
    ensures var q := Deposited(y, x);
      Crq.Alone(q, 3, 2) == WakerAt(x, false, Crq.EOverflow(y, 0, 0))
      && forall i: nat | i < 2 :: Working(Crq.Alone(q, 3, i), 3)
  {
    var q, v := Deposited(y, x), N2(x)[0].value;
    assert Slot(0) == 0;
    assert v.Full? || N2(x)[0].stamp.idx == R;
    assert Crq.Alone(q, 3, 0) == WakerAt(x, false, Crq.EReadValue(y, 0, 0));
    assert Crq.Alone(q, 3, 1) == WakerAt(x, false, Crq.EReadStamp(y, 0, 0, v));
  }

  lemma WakerCloses(y: Item, x: Item)
    ensures var q := WakerAt(x, false, Crq.EOverflow(y, 0, 0));
      Crq.Alone(q, 3, 2) == WakerAt(x, true, Crq.EClosed(y))
      && forall i: nat | i < 2 :: Working(Crq.Alone(q, 3, i), 3)
  {
    var q := WakerAt(x, false, Crq.EOverflow(y, 0, 0));
    assert Crq.Alone(q, 3, 0) == q;
    assert Crq.Alone(q, 3, 1) == WakerAt(x, false, Crq.EClose(y));
  }

  // ---- The run ----

  lemma RingIsFoundEmpty(y: Item) returns (s: List<Crq.State>)
    ensures Reachable(s) && s.rings == [FoundEmpty(y)] && s.head == s.tail == 0 && s.log == []
    ensures s.threads.Keys == {1, 3} && s.threads[3] == EInRing(y, 0, 0)
    ensures s.threads[1].DInRing? && s.threads[1].k == 0 && !s.threads[1].again
  {
    InitReachable();
    EnqueueBegins(Crq.Init(), map[], [], 3, y);
    s := OneRing(Crq.Begin(Crq.Init(), 3, Enqueue(y)), map[3 := EInRing(y, 0, 0)], []);
    assert map[][3 := EInRing(y, 0, 0)] == s.threads;
    Draws(y);
    s := RingRuns(s, Crq.Begin(Crq.Init(), 3, Enqueue(y)), 3, 1);
    DequeueBegins(Drawn(y), s.threads, [], 1);
    s := OneRing(Crq.Begin(Drawn(y), 1, Dequeue), s.threads[1 := DInRing(0, 0, false, false)], []);
    DequeuerReads(y);
    s := RingRuns(s, Crq.Begin(Drawn(y), 1, Dequeue), 1, 2);
    DequeuerRetires(y);
    s := RingRuns(s, DequeuerAt(y, 1, N0, Crq.DReadStamp(0, Crq.Null), Blank), 1, 2);
    DequeuerChecks(y);
    s := RingRuns(s, DequeuerAt(y, 1, N1, Crq.DReadTail(0), Retired0), 1, 2);
    DequeuerSaysEmpty(y);
    s := RingRuns(s, DequeuerAt(y, 1, N1, Crq.FReadTail(1), Retired0), 1, 2);
  }

  /** Thread 1 has the answer EMPTY in hand and is about to read next; thread 2 begins to enqueue x. */
  lemma NextIsNotReadYet(y: Item, x: Item) returns (s: List<Crq.State>)
    ensures Reachable(s) && s.rings == [Crq.Begin(FoundEmpty(y), 2, Enqueue(x))] && s.head == s.tail == 0
    ensures s.threads.Keys == {1, 2, 3} && s.threads[3] == EInRing(y, 0, 0) && s.threads[2] == EInRing(x, 0, 0)
    ensures s.threads[1].DReadNext? && s.threads[1].k == 0 && s.log == []
  {
    var e := RingIsFoundEmpty(y);
    assert PhaseIn(CrqApi(), FoundEmpty(y), 1) == Empty;
    s := Goto(e, 1, DReadNext(e.threads[1].since, 0, e.threads[1].quiet));
    StepReachable(e, s, 1);
    EnqueueBegins(FoundEmpty(y), s.threads, [], 2, x);
    s := OneRing(Crq.Begin(FoundEmpty(y), 2, Enqueue(x)), s.threads[2 := EInRing(x, 0, 0)], []);
  }

  lemma ItemIsDeposited(y: Item, x: Item) returns (s: List<Crq.State>)
    ensures Reachable(s) && s.rings == [Deposited(y, x)] && s.head == s.tail == 0
    ensures s.threads.Keys == {1, 2, 3} && s.threads[3] == EInRing(y, 0, 0) && s.threads[2] == EInRing(x, 0, 0)
    ensures s.threads[1].DReadNext? && s.threads[1].k == 0 && s.log == []
  {
    s := NextIsNotReadYet(y, x);
    EnqueuerReads(y, x);
    s := RingRuns(s, Crq.Begin(FoundEmpty(y), 2, Enqueue(x)), 2, 2);
    EnqueuerDeposits(y, x);
    s := RingRuns(s, EnqueuerAt(y, 2, N1, Crq.EReadStamp(x, 0, 1, Crq.Null), Retired0), 2, 2);
  }

  lemma ItemComesLate(y: Item, x: Item) returns (s: List<Crq.State>)
    ensures Reachable(s) && s.rings == [Deposited(y, x)] && s.head == s.tail == 0
    ensures s.threads.Keys == {1, 2, 3} && s.threads[3] == EInRing(y, 0, 0)
    ensures s.threads[1].DReadNext? && s.threads[1].k == 0 && s.threads[2] == EDone(x, 0)
    ensures s.log == [Enqueued(Pos(0, 1), x, 0)]
  {
    var d := ItemIsDeposited(y, x);
    assert PhaseIn(CrqApi(), Deposited(y, x), 2) == Accepted(x, 1);
    s := Goto(Note(d, Enqueued(Pos(0, 1), x, 0)), 2, EDone(x, 0));
    StepReachable(d, s, 2);
  }

  /** Thread 3 wakes up and closes the ring. */
  lemma WakerIsRefused(y: Item, x: Item) returns (s: List<Crq.State>)
    ensures Reachable(s) && s.rings == [WakerAt(x, true, Crq.EClosed(y))] && s.head == s.tail == 0
    ensures s.threads.Keys == {1, 2, 3} && s.threads[3] == EInRing(y, 0, 0)
    ensures s.threads[1].DReadNext? && s.threads[1].k == 0 && s.threads[2] == EDone(x, 0)
    ensures s.log == [Enqueued(Pos(0, 1), x, 0)]
  {
    s := ItemComesLate(y, x);
    WakerReads(y, x);
    s := RingRuns(s, Deposited(y, x), 3, 2);
    WakerCloses(y, x);
    s := RingRuns(s, WakerAt(x, false, Crq.EOverflow(y, 0, 0)), 3, 2);
  }

  lemma RingIsClosed(y: Item, x: Item) returns (s: List<Crq.State>)
    ensures Reachable(s) && s.rings == [WakerAt(x, true, Crq.EClosed(y))] && s.head == s.tail == 0
    ensures s.threads.Keys == {1, 2, 3} && s.threads[3] == ELink(y, 0, 0)
    ensures s.threads[1].DReadNext? && s.threads[1].k == 0 && s.threads[2] == EDone(x, 0)
    ensures s.log == [Enqueued(Pos(0, 1), x, 0)]
  {
    var c := WakerIsRefused(y, x);
    assert PhaseIn(CrqApi(), WakerAt(x, true, Crq.EClosed(y)), 3) == Refused(y);
    s := Goto(c, 3, ELink(y, 0, 0));
    StepReachable(c, s, 3);
  }

  /** Thread 3 links a new ring; thread 1 sees it and moves the head past x. */
  lemma HeadMovesOn(y: Item, x: Item) returns (s: List<Crq.State>)
    ensures Reachable(s) && s.rings == [WakerAt(x, true, Crq.EClosed(y)), Crq.FreshWith(3, y)]
    ensures s.head == 1 && s.threads.Keys == {1, 2, 3} && s.log == [Enqueued(Pos(0, 1), x, 0)]
    ensures s.threads[1].DReadHead? && s.threads[2] == EDone(x, 0) && s.threads[3].EPublish?
  {
    var l := RingIsClosed(y, x);
    var n := Goto(l.(rings := l.rings + [Crq.FreshWith(3, y)]), 3, EPublish(y, 0, 0));
    StepReachable(l, n, 3);
    var d := Goto(n, 1, DSwing(n.threads[1].since, 0));
    StepReachable(n, d, 1);
    s := Goto(d.(head := 1), 1, DReadHead(d.threads[1].since));
    StepReachable(d, s, 1);
  }

  /** For every ring size there is a run that leaves an enqueued item behind. */
  lemma HeadLeavesItem(y: Item, x: Item)
    ensures exists s :: Reachable(s) && Left(s, Pos(0, 1), x)
  {
    var s := HeadMovesOn(y, x);
    assert s.log[0].Enqueued? && s.log[0].at == Pos(0, 1);
  }

  // ---- The item is lost for good ----

  /** No dequeue is at work in ring q. */
  predicate NoDequeuer(q: Crq.State) {
    forall b <- q.threads :: var p := Crq.AbsPc(q.threads[b]);
      !p.Dequeueing? && !p.Visiting? && !p.Checking? && !p.Repairing?
  }

  /** x was enqueued at p and has not been dequeued; the head is past its ring, and no dequeue is in it. */
  ghost predicate Left(s: List<Crq.State>, p: Pos, x: Item) {
    && p.ring < s.head && p.ring < |s.rings|
    && p.ticket in s.rings[p.ring].ledger.deposited && s.rings[p.ring].ledger.deposited[p.ticket] == x
    && p.ticket !in s.rings[p.ring].ledger.taken
    && NoDequeuer(s.rings[p.ring])
    && (forall b <- s.threads :: s.threads[b].DInRing? ==> s.threads[b].k != p.ring)
    && (exists i | 0 <= i < |s.log| :: s.log[i].Enqueued? && s.log[i].at == p && s.log[i].x == x)
    && (forall i | 0 <= i < |s.log| :: s.log[i].Dequeued? ==> s.log[i].at != p)
  }

  lemma StepLeavesRing(q: Crq.State, me: Tid, t: nat)
    requires Crq.Inv(q) && NoDequeuer(q) && Crq.Pending(q.ledger, t)
    ensures var q' := Crq.Next(q, me);
      NoDequeuer(q') && Crq.Pending(q'.ledger, t) && q'.ledger.deposited[t] == q.ledger.deposited[t]
  {
    Crq.RefinesRing(q, me);
    StepGrows(Crq.Abs(q), Crq.Abs(Crq.Next(q, me)), me);
    if me in q.threads {
      assert !Crq.AbsPc(q.threads[me]).Visiting?;
      assert Crq.Abs(q).threads[me] == Crq.AbsPc(q.threads[me]);
      StaysEnqueuer(q, me);
    }
  }

  lemma StaysEnqueuer(q: Crq.State, me: Tid)
    requires Crq.WellFormed(q) && NoDequeuer(q) && me in q.threads
    ensures NoDequeuer(Crq.Next(q, me))
  {}

  ghost predicate RingsOk(s: List<Crq.State>) {
    forall k | 0 <= k < |s.rings| :: Crq.Inv(s.rings[k])
  }

  lemma InsideLeaves(s: List<Crq.State>, s': List<Crq.State>, me: Tid, p: Pos, x: Item)
    requires RingsOk(s) && Left(s, p, x) && me in s.threads && EnqueueStep(CrqApi(), s, s', me, s.threads[me])
    requires s.threads[me].EInRing?
    ensures Left(s', p, x)
  {
    var i :| 0 <= i < |s.log| && s.log[i].Enqueued? && s.log[i].at == p && s.log[i].x == x;
    assert s'.log[i] == s.log[i];
    if s.threads[me].k == p.ring {
      StepLeavesRing(s.rings[p.ring], me, p.ticket);
      assert s'.rings[p.ring] == s.rings[p.ring] || s'.rings[p.ring] == Crq.Next(s.rings[p.ring], me);
    }
  }

  lemma EnqueueLeaves(s: List<Crq.State>, s': List<Crq.State>, me: Tid, p: Pos, x: Item)
    requires Left(s, p, x) && me in s.threads && EnqueueStep(CrqApi(), s, s', me, s.threads[me])
    requires Enqueues(s.threads[me]) && !s.threads[me].EInRing?
    ensures Left(s', p, x)
  {
    var i :| 0 <= i < |s.log| && s.log[i].Enqueued? && s.log[i].at == p && s.log[i].x == x;
    assert s'.log[i] == s.log[i];
  }

  lemma DequeueLeaves(s: List<Crq.State>, s': List<Crq.State>, me: Tid, p: Pos, x: Item)
    requires Left(s, p, x) && me in s.threads && DequeueStep(CrqApi(), false, s, s', me, s.threads[me])
    requires !Enqueues(s.threads[me])
    ensures Left(s', p, x)
  {
    var i :| 0 <= i < |s.log| && s.log[i].Enqueued? && s.log[i].at == p && s.log[i].x == x;
    assert s'.log[i] == s.log[i] && s'.rings[p.ring] == s.rings[p.ring];
  }

  /** An item left behind stays left behind: no step of any thread returns it. */
  lemma LeftStaysLeft(s: List<Crq.State>, s': List<Crq.State>, me: Tid, p: Pos, x: Item)
    requires RingsOk(s) && Left(s, p, x) && ListStep(CrqApi(), false, s, s', me)
    ensures Left(s', p, x)
  {
    if me in s.threads && !Returned(s.threads[me]) {
      if s.threads[me].EInRing? {
        InsideLeaves(s, s', me, p, x);
      } else if Enqueues(s.threads[me]) {
        EnqueueLeaves(s, s', me, p, x);
      } else {
        DequeueLeaves(s, s', me, p, x);
      }
    }
  }

  lemma StaysLeftInRun(run: seq<List<Crq.State>>, who: seq<Tid>, j: nat, p: Pos, x: Item)
    requires IsLcrRun(run, who) && 0 < j < |run| && Left(run[j - 1], p, x)
    ensures Left(run[j], p, x)
  {
    EveryLcrRun(run, who, j - 1);
    LeftStaysLeft(run[j - 1], run[j], who[j - 1], p, x);
  }

  /** Once left behind, an item is lost for the rest of every run. */
  lemma {:induction false} LostForever(
    run: seq<List<Crq.State>>, who: seq<Tid>, i: nat, j: nat, p: Pos, x: Item)
    requires IsLcrRun(run, who) && i <= j < |run| && Left(run[i], p, x)
    ensures Left(run[j], p, x)
    decreases j
  {
    if i < j {
      LostForever(run, who, i, j - 1, p, x);
      StaysLeftInRun(run, who, j, p, x);
    }
  }
}
