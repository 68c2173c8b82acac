/**
 * The list of rings shared by LPRQueue and LCRQueue, over any implementation of the ring.
 *
 * Rings are numbered in the order they were published, so `next` of ring k is ring k + 1. Positions
 * (ring, ticket) order all items ever enqueued. `log`, the fields `since` and `quiet` and the x of
 * `EDone` are history that no step reads: `since` is the length of the log when the call began, `quiet`
 * says whether every item was claimed when the ring last answered EMPTY.
 */
module RingList {
  import opened TicketRing

  /** The operations of a ring: what a ring class offers the list, and its abstract ring. */
  datatype Api<!Q> = Api(
    init: Q,
    begin: (Q, Tid, Call) -> Q,
    step: (Q, Q, Tid) -> bool,
    freshWith: (Tid, Item) -> Q,
    view: Q -> Ring)

  datatype Pos = Pos(ring: nat, ticket: nat)

  predicate PosLt(p: Pos, q: Pos) {
    p.ring < q.ring || (p.ring == q.ring && p.ticket < q.ticket)
  }

  datatype Event =
    | Enqueued(at: Pos, x: Item, since: nat)
    | Dequeued(at: Pos, x: Item, since: nat)
    | FoundEmpty(quiet: bool, since: nat)

  datatype Pc =
    | EReadTail(x: Item, since: nat)
    | EReadNext(x: Item, since: nat, k: nat)
    | EHelp(x: Item, since: nat, k: nat)
    | EInRing(x: Item, since: nat, k: nat)
    | ELink(x: Item, since: nat, k: nat)
    | EPublish(x: Item, since: nat, k: nat)
    | EDone(x: Item, since: nat)
    | DReadHead(since: nat)
    | DInRing(since: nat, k: nat, again: bool, quiet: bool)
    | DReadNext(since: nat, k: nat, quiet: bool)
    | DSwing(since: nat, k: nat)
    | DDone(x: Item, since: nat)
    | DFalse(since: nat)

  datatype List<Q> = List(
    rings: seq<Q>, head: nat, tail: nat, threads: map<Tid, Pc>, log: seq<Event>)

  /** Whether `dequeue` asks a ring a second time after seeing its `next` (LPRQueue does). */
  type Recheck = bool

  function Goto<Q>(s: List<Q>, me: Tid, pc: Pc): List<Q> {
    s.(threads := s.threads[me := pc])
  }

  function Note<Q>(s: List<Q>, e: Event): List<Q> {
    s.(log := s.log + [e])
  }

  function PhaseIn<Q>(api: Api<Q>, q: Q, me: Tid): Phase {
    if me in api.view(q).threads then api.view(q).threads[me] else Empty
  }

  /** Every item in every ring already has its one dequeuer at its cell. */
  ghost predicate EverythingClaimed<Q>(api: Api<Q>, s: List<Q>) {
    forall k | 0 <= k < |s.rings| :: AllClaimed(api.view(s.rings[k]))
  }

  /** Thread me takes a step inside ring k and is then at pc. */
  ghost predicate StepInRing<Q>(api: Api<Q>, s: List<Q>, s': List<Q>, me: Tid, k: nat, pc: Pc) {
    && k < |s.rings| && |s'.rings| == |s.rings|
    && api.step(s.rings[k], s'.rings[k], me)
    && s' == Goto(s.(rings := s.rings[k := s'.rings[k]]), me, pc)
  }

  /** Thread me begins a call on ring k. */
  function EnterRing<Q>(api: Api<Q>, s: List<Q>, me: Tid, k: nat, call: Call, pc: Pc): List<Q>
    requires k < |s.rings|
  {
    Goto(s.(rings := s.rings[k := api.begin(s.rings[k], me, call)]), me, pc)
  }

  ghost predicate EnqueueStep<Q>(api: Api<Q>, s: List<Q>, s': List<Q>, me: Tid, pc: Pc) {
    match pc
    case EReadTail(x, since) => s' == Goto(s, me, EReadNext(x, since, s.tail))
    case EReadNext(x, since, k) =>
      k < |s.rings| &&
      s' == if k + 1 < |s.rings| then Goto(s, me, EHelp(x, since, k))
            else EnterRing(api, s, me, k, Enqueue(x), EInRing(x, since, k))
    case EHelp(x, since, k) =>
      s' == Goto(if s.tail == k then s.(tail := k + 1) else s, me, EReadTail(x, since))
    case EInRing(x, since, k) =>
      k < |s.rings| &&
      (match PhaseIn(api, s.rings[k], me)
       case Accepted(_, t) => s' == Goto(Note(s, Enqueued(Pos(k, t), x, since)), me, EDone(x, since))
       case Refused(_) => s' == Goto(s, me, ELink(x, since, k))
       case _ => StepInRing(api, s, s', me, k, pc))
    case ELink(x, since, k) =>
      s' == if |s.rings| == k + 1
            then Goto(s.(rings := s.rings + [api.freshWith(me, x)]), me, EPublish(x, since, k))
            else Goto(s, me, EReadTail(x, since))
    case EPublish(x, since, k) =>
      k + 1 < |s.rings| &&
      s' == Goto(Note(if s.tail == k then s.(tail := k + 1) else s,
                      Enqueued(Pos(k + 1, api.view(s.rings[k + 1]).first), x, since)), me, EDone(x, since))
    case _ => s' == s
  }

  ghost predicate DequeueStep<Q>(api: Api<Q>, recheck: Recheck, s: List<Q>, s': List<Q>, me: Tid, pc: Pc) {
    match pc
    case DReadHead(since) =>
      s.head < |s.rings| &&
      s' == EnterRing(api, s, me, s.head, Dequeue, DInRing(since, s.head, false, false))
    case DInRing(since, k, again, quiet) =>
      k < |s.rings| &&
      (match PhaseIn(api, s.rings[k], me)
       case Got(h, x) => s' == Goto(Note(s, Dequeued(Pos(k, h), x, since)), me, DDone(x, since))
       case Empty => s' == Goto(s, me, if again then DSwing(since, k) else DReadNext(since, k, quiet))
       case _ =>
         |s'.rings| == |s.rings| &&
         StepInRing(api, s, s', me, k, DInRing(since, k, again,
           if AnswersEmpty(api.view(s.rings[k]), api.view(s'.rings[k]), me)
           then EverythingClaimed(api, s) else quiet)))
    case DReadNext(since, k, quiet) =>
      k < |s.rings| &&
      s' == if k + 1 == |s.rings| then Goto(Note(s, FoundEmpty(quiet, since)), me, DFalse(since))
            else if recheck then EnterRing(api, s, me, k, Dequeue, DInRing(since, k, true, false))
            else Goto(s, me, DSwing(since, k))
    case DSwing(since, k) =>
      s' == Goto(if s.head == k then s.(head := k + 1) else s, me, DReadHead(since))
    case _ => s' == s
  }

  predicate Returned(pc: Pc) {
    pc.EDone? || pc.DDone? || pc.DFalse?
  }

  predicate Enqueues(pc: Pc) {
    pc.EReadTail? || pc.EReadNext? || pc.EHelp? || pc.EInRing? || pc.ELink? || pc.EPublish?
  }

  /** One step of thread me: it begins a call, or performs its next access. */
  ghost predicate ListStep<Q>(api: Api<Q>, recheck: Recheck, s: List<Q>, s': List<Q>, me: Tid) {
    if me !in s.threads || Returned(s.threads[me]) then
      || (me in s'.threads && s'.threads[me].EReadTail?
          && s' == Goto(s, me, EReadTail(s'.threads[me].x, |s.log|)))
      || s' == Goto(s, me, DReadHead(|s.log|))
    else if Enqueues(s.threads[me]) then EnqueueStep(api, s, s', me, s.threads[me])
    else DequeueStep(api, recheck, s, s', me, s.threads[me])
  }

  ghost predicate InitList<Q>(api: Api<Q>, s: List<Q>) {
    s == List([api.init], 0, 0, map[], [])
  }

  /** A run: who[i] takes the list from run[i] to run[i + 1]. */
  ghost predicate IsRun<Q>(api: Api<Q>, recheck: Recheck, run: seq<List<Q>>, who: seq<Tid>) {
    && |run| == |who| + 1 && InitList(api, run[0])
    && (forall i | 0 <= i < |who| :: ListStep(api, recheck, run[i], run[i + 1], who[i]))
  }

  // ---- Every ring implementation behaves like the ticket ring ----

  ghost function TicketApi(first: nat): Api<Ring> {
    Api(TicketRing.Fresh(first),
        (r, me, call) => Start(r, me, call),
        (r, r', me) => Step(r, r', me),
        (me, x) => FreshWith(first, me, x),
        r => r)
  }

  /** A ring in which `me` has just enqueued x. */
  function FreshWith(first: nat, me: Tid, x: Item): Ring {
    Ring(first, first, first + 1, false, Ledger(map[first := x], {}, {}), map[me := Accepted(x, first)])
  }
}
