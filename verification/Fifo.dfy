/**
 * The specification shared by the linked queues: an atomic first-in-first-out queue.
 *
 * `added` lists every item ever enqueued, in order; the first `removed` of them have been dequeued.
 * An operation takes effect in one step between its call and its return. A dequeue may answer
 * "empty" only if the queue was empty at some instant of the call.
 */
module Fifo {
  type Tid = nat
  type Item = nat

  datatype Phase =
    | Enqueueing(x: Item)
    | Enqueued
    | Dequeueing(sawEmpty: bool)
    | Dequeued(x: Item)
    | FoundEmpty

  datatype Queue = Queue(added: seq<Item>, removed: nat, threads: map<Tid, Phase>)

  predicate Valid(q: Queue) {
    q.removed <= |q.added|
  }

  function Contents(q: Queue): seq<Item>
    requires Valid(q)
  {
    q.added[q.removed..]
  }

  datatype Call = Enqueue(x: Item) | Dequeue

  function Started(call: Call): Phase {
    match call case Enqueue(x) => Enqueueing(x) case Dequeue => Dequeueing(false)
  }

  predicate Returned(p: Phase) {
    p.Enqueued? || p.Dequeued? || p.FoundEmpty?
  }

  ghost predicate Step(q: Queue, q': Queue, me: Tid)
    requires Valid(q)
  {
    || q' == q
    || (me in q.threads &&
        match q.threads[me]
        case Enqueueing(x) =>
          q' == q.(added := q.added + [x], threads := q.threads[me := Enqueued])
        case Dequeueing(sawEmpty) =>
          || (Contents(q) == [] && q' == q.(threads := q.threads[me := Dequeueing(true)]))
          || q' == q.(threads := q.threads[me := Dequeueing(false)])
          || (sawEmpty && q' == q.(threads := q.threads[me := FoundEmpty]))
          || (Contents(q) != [] && q' == q.(removed := q.removed + 1,
                threads := q.threads[me := Dequeued(q.added[q.removed])]))
        case _ => false)
  }

  /** Phase p of a thread becomes p' while the record goes from (added, removed) to (added', removed'). */
  predicate Effect(p: Phase, p': Phase, added: seq<Item>, removed: nat, added': seq<Item>, removed': nat) {
    if p.Enqueueing? && p' == Enqueued then
      added' == added + [p.x] && removed' == removed
    else if p.Dequeueing? && p'.Dequeued? then
      removed < |added| && p'.x == added[removed] && added' == added && removed' == removed + 1
    else
      && added' == added && removed' == removed
      && (|| p' == p
          || (p.Dequeueing? && p' == Dequeueing(false))
          || (p.Dequeueing? && p' == Dequeueing(true) && removed == |added|)
          || (p == Dequeueing(true) && p' == FoundEmpty))
  }

  lemma EffectIsStep(q: Queue, q': Queue, me: Tid, p': Phase)
    requires Valid(q) && me in q.threads && q'.threads == q.threads[me := p']
    requires Effect(q.threads[me], p', q.added, q.removed, q'.added, q'.removed)
    ensures Step(q, q', me)
  {
    if p' == q.threads[me] { assert q'.threads == q.threads; }
  }

  /** What a step does to the contents, seen from outside. */
  lemma StepEffect(q: Queue, q': Queue, me: Tid)
    requires Valid(q) && Step(q, q', me)
    ensures Valid(q') && q.added <= q'.added && q.removed <= q'.removed
    ensures Contents(q') == Contents(q)
      || (me in q.threads && q.threads[me].Enqueueing? && Contents(q') == Contents(q) + [q.threads[me].x])
      || (me in q'.threads && q'.threads[me].Dequeued? && Contents(q) == [q'.threads[me].x] + Contents(q'))
  {}

  // ---- Runs ----

  predicate Idle(q: Queue, me: Tid) {
    me in q.threads ==> Returned(q.threads[me])
  }

  /** One step of a run: `me` begins a call, or its running call takes a step. */
  ghost predicate RunStep(q: Queue, q': Queue, me: Tid) {
    && Valid(q)
    && (|| Step(q, q', me)
        || (Idle(q, me) && me in q'.threads && (q'.threads[me].Enqueueing? || q'.threads[me] == Dequeueing(false))
            && q' == q.(threads := q.threads[me := q'.threads[me]])))
  }

  ghost predicate IsRun(run: seq<Queue>, who: seq<Tid>) {
    && |run| == |who| + 1 && run[0] == Queue([], 0, map[])
    && (forall i | 0 <= i < |who| :: RunStep(run[i], run[i + 1], who[i]))
  }

  /** The items dequeued are, in order, the first items enqueued, and nothing is ever rewritten. */
  lemma {:induction false} RunsAreFifo(run: seq<Queue>, who: seq<Tid>, i: nat, j: nat)
    requires IsRun(run, who) && i <= j < |run|
    ensures Valid(run[j]) && run[i].added <= run[j].added && run[i].removed <= run[j].removed
    decreases j
  {
    if j != 0 {
      RunsAreFifo(run, who, if i < j then i else j - 1, j - 1);
      assert RunStep(run[j - 1], run[j], who[j - 1]);
      if Step(run[j - 1], run[j], who[j - 1]) { StepEffect(run[j - 1], run[j], who[j - 1]); }
    }
  }

  /** The dequeue that removes the item at place r of the record answers with that item, now and for ever. */
  lemma AnswersAreFifo(run: seq<Queue>, who: seq<Tid>, i: nat, n: nat, x: Item)
    requires IsRun(run, who) && i < n < |run| && who[i] in run[i].threads && who[i] in run[i + 1].threads
    requires run[i].threads[who[i]].Dequeueing? && run[i + 1].threads[who[i]] == Dequeued(x)
    ensures run[i + 1].removed == run[i].removed + 1
    ensures run[i].removed < |run[n].added| && run[n].added[run[i].removed] == x
  {
    RunsAreFifo(run, who, i, n);
    assert RunStep(run[i], run[i + 1], who[i]);
  }

  /** A dequeue that has seen the queue empty saw it at an instant of its own call. */
  lemma {:induction false} SeenEmpty(run: seq<Queue>, who: seq<Tid>, i: nat, me: Tid)
    requires IsRun(run, who) && i < |run|
    requires me in run[i].threads && run[i].threads[me] == Dequeueing(true)
    ensures exists m: nat | m < i :: EmptyDuring(run, m, i, me)
  {
    if i != 0 {
      assert RunStep(run[i - 1], run[i], who[i - 1]);
      if who[i - 1] == me && run[i - 1].threads[me] != Dequeueing(true) {
        assert EmptyDuring(run, i - 1, i, me);
      } else {
        SeenEmpty(run, who, i - 1, me);
        var m: nat :| m < i - 1 && EmptyDuring(run, m, i - 1, me);
        assert EmptyDuring(run, m, i, me);
      }
    }
  }

  /** The queue is empty at m, and from m to i thread me is inside one dequeue. */
  ghost predicate EmptyDuring(run: seq<Queue>, m: nat, i: nat, me: Tid) {
    && m < i < |run| && Valid(run[m]) && Contents(run[m]) == []
    && (forall k | m <= k <= i :: me in run[k].threads && run[k].threads[me].Dequeueing?)
  }

  /** `return false` is honest: the queue was empty at an instant inside the call. */
  lemma EmptyAnswersAreHonest(run: seq<Queue>, who: seq<Tid>, i: nat, me: Tid)
    requires IsRun(run, who) && i + 1 < |run| && who[i] == me
    requires me in run[i].threads && run[i].threads[me].Dequeueing?
    requires me in run[i + 1].threads && run[i + 1].threads[me] == FoundEmpty
    ensures exists m: nat | m < i :: EmptyDuring(run, m, i, me)
  {
    assert RunStep(run[i], run[i + 1], me);
    SeenEmpty(run, who, i, me);
  }

  // ---- What a call returns with ----

  /** Step i begins a call of me, and up to j me begins no other one. */
  ghost predicate CallFrom(run: seq<Queue>, who: seq<Tid>, me: Tid, i: nat, j: nat) {
    && |run| == |who| + 1 && i < j < |run| && who[i] == me && Idle(run[i], me)
    && me in run[i + 1].threads && (run[i + 1].threads[me].Enqueueing? || run[i + 1].threads[me] == Dequeueing(false))
    && (forall m | i < m < j && who[m] == me :: Valid(run[m]) && Step(run[m], run[m + 1], me))
  }

  /** Step m of the run is by me and appends x to the record. */
  predicate Adds(run: seq<Queue>, who: seq<Tid>, me: Tid, m: nat, x: Item) {
    m < |who| && m + 1 < |run| && who[m] == me && run[m + 1].added == run[m].added + [x]
  }

  /** Step m of the run is by me and removes x, the oldest item of the queue. */
  predicate Removes(run: seq<Queue>, who: seq<Tid>, me: Tid, m: nat, x: Item) {
    && m < |who| && m + 1 < |run| && who[m] == me
    && Valid(run[m]) && Contents(run[m]) != [] && x == run[m].added[run[m].removed]
    && run[m + 1].removed == run[m].removed + 1
  }

  /** The queue is empty at instant m. */
  predicate EmptyAt(run: seq<Queue>, m: nat) {
    m < |run| && Valid(run[m]) && Contents(run[m]) == []
  }

  /** How one step changes the phase of its thread. */
  lemma StepAnswers(q: Queue, q': Queue, me: Tid)
    requires Valid(q) && Step(q, q', me) && me in q.threads
    ensures me in q'.threads
    ensures match q.threads[me]
            case Enqueueing(x) =>
              q'.threads[me] == Enqueueing(x) || (q'.threads[me] == Enqueued && q'.added == q.added + [x])
            case Dequeueing(_) =>
              (match q'.threads[me]
               case Dequeued(x) => Contents(q) != [] && x == q.added[q.removed] && q'.removed == q.removed + 1
               case p => p.Dequeueing? || p.FoundEmpty?)
            case p => q'.threads[me] == p
  {}

  /** A call that steps at j takes effect, has been honest about an empty queue, or goes on. */
  lemma CallSteps(run: seq<Queue>, who: seq<Tid>, me: Tid, i: nat, j: nat)
    requires IsRun(run, who) && CallFrom(run, who, me, i, j + 1) && i < j && who[j] == me && me in run[j].threads
    ensures me in run[j + 1].threads
    ensures match run[j].threads[me]
            case Enqueueing(x) =>
              run[j + 1].threads[me] == Enqueueing(x)
              || (run[j + 1].threads[me] == Enqueued && Adds(run, who, me, j, x))
            case Dequeueing(_) =>
              (match run[j + 1].threads[me]
               case Dequeued(x) => Removes(run, who, me, j, x)
               case FoundEmpty => exists m: nat | i < m < j :: EmptyAt(run, m)
               case p => p.Dequeueing?)
            case p => run[j + 1].threads[me] == p
  {
    StepAnswers(run[j], run[j + 1], me);
    if run[j].threads[me].Dequeueing? && run[j + 1].threads[me].FoundEmpty? {
      EmptyAnswersAreHonest(run, who, j, me);
      var m: nat :| m < j && EmptyDuring(run, m, j, me);
      assert EmptyAt(run, m) && i < m;
    }
  }

  /**
   * A call that has returned has taken effect, by one step of its own between its begin and its return:
   * an enqueue has appended the item it was called with, a dequeue has removed the item it answers
   * with; or the queue was empty inside the call.
   */
  lemma {:induction false} CallTakesEffect(run: seq<Queue>, who: seq<Tid>, me: Tid, i: nat, j: nat)
    requires IsRun(run, who) && CallFrom(run, who, me, i, j)
    ensures me in run[j].threads
    ensures match run[i + 1].threads[me]
            case Enqueueing(x) =>
              || run[j].threads[me] == Enqueueing(x)
              || (run[j].threads[me] == Enqueued && exists m: nat | i < m < j :: Adds(run, who, me, m, x))
            case _ =>
              match run[j].threads[me]
              case Dequeueing(_) => true
              case Dequeued(x) => exists m: nat | i < m < j :: Removes(run, who, me, m, x)
              case FoundEmpty => exists m: nat | i < m < j :: EmptyAt(run, m)
              case _ => false
  {
    if i + 1 < j {
      assert CallFrom(run, who, me, i, j - 1);
      CallTakesEffect(run, who, me, i, j - 1);
      assert RunStep(run[j - 1], run[j], who[j - 1]);
      if who[j - 1] == me { CallSteps(run, who, me, i, j - 1); }
    }
  }
}
