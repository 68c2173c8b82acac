/**
 * CRQ as the program stores it: two counter words and an array of two-word nodes, updated in place,
 * a node's two words always together.
 *
 * Items are non-zero words. Tickets and indices stay below 2^63.
 */
module CrqRing {
  import opened RingGeometry
  import opened TicketRing
  import opened Words
  import opened Crq

  // ---- Codecs ----

  function EncodeStamp(r: Stamp): Word {
    Pack(r.safe, r.idx)
  }

  function DecodeStamp(w: Word): Stamp {
    Stamp(Flag(w), Low(w))
  }

  predicate ItemFits(x: Item) {
    0 < x < 2 * Top
  }

  predicate ValueFits(v: Value) {
    v.Full? ==> ItemFits(v.x)
  }

  function EncodeValue(v: Value): Word
    requires ValueFits(v)
  {
    match v case Null => 0 case Full(x) => x
  }

  function DecodeValue(w: Word): Value {
    if w == 0 then Null else Full(w)
  }

  predicate StampFits(r: Stamp) {
    r.idx < Top
  }

  datatype NodeWords = NodeWords(safeAndIdx: Word, val: Word)

  function DecodeNode(n: NodeWords): Node {
    Node(DecodeStamp(n.safeAndIdx), DecodeValue(n.val))
  }

  predicate NodeFits(n: Node) {
    StampFits(n.stamp) && ValueFits(n.value)
  }

  function EncodeNode(n: Node): NodeWords
    requires NodeFits(n)
  {
    NodeWords(EncodeStamp(n.stamp), EncodeValue(n.value))
  }

  lemma NodeCodec(n: Node, words: NodeWords)
    ensures NodeFits(n) ==> (words == EncodeNode(n) <==> DecodeNode(words) == n)
    ensures NodeFits(DecodeNode(words)) && EncodeNode(DecodeNode(words)) == words
  {
    UnpackedWord(words.safeAndIdx);
    if StampFits(n.stamp) { PackedWord(n.stamp.safe, n.stamp.idx); }
  }

  function DecodeNodes(ns: seq<NodeWords>): seq<Node> {
    seq(|ns|, i requires 0 <= i < |ns| => DecodeNode(ns[i]))
  }

  // ---- Locals that fit in words ----

  predicate PcFits(pc: Pc) {
    && pc.Ticket() < Top && (pc.AtDequeue() ==> pc.Ticket() + R < Top)
    && (match pc
        case EDraw(x, _) => ItemFits(x)
        case EReadValue(x, _, _) => ItemFits(x)
        case EReadStamp(x, _, _, v) => ItemFits(x) && ValueFits(v)
        case EReadHead(x, _, _, r) => ItemFits(x) && StampFits(r)
        case EDeposit(x, _, _, r) => ItemFits(x) && StampFits(r)
        case EOverflow(x, _, _) => ItemFits(x)
        case EClose(x) => ItemFits(x)
        case DReadStamp(_, v) => ValueFits(v)
        case DTake(_, r, v) => StampFits(r) && ValueFits(v)
        case DMarkUnsafe(_, r, v) => StampFits(r) && ValueFits(v)
        case DAdvance(_, r) => StampFits(r)
        case FReadTail(h) => h < Top
        case FConfirmTail(h, _, t) => h < Top && t < Top
        case FRaiseTail(h, t) => h < Top && t < Top
        case _ => true)
  }

  ghost predicate ThreadsFit(threads: map<Tid, Pc>) {
    forall b <- threads :: PcFits(threads[b])
  }

  lemma AccessFits(n: NodeWords, pc: Pc)
    requires pc.AtNode() && PcFits(pc)
    ensures PcFits(NodeAccess(DecodeNode(n), pc).pc)
  {
    NodeCodec(DecodeNode(n), n);
  }

  predicate OnlyReads(pc: Pc) {
    pc.EReadValue? || pc.EReadStamp? || pc.DReadValue? || pc.DReadStamp?
  }

  /** What a thread does with the node word it has just loaded. */
  method Read(n: NodeWords, pc: Pc) returns (next: Pc)
    requires OnlyReads(pc) && PcFits(pc)
    ensures NodeAccess(DecodeNode(n), pc) == Access(DecodeNode(n), next)
  {
    NodeCodec(DecodeNode(n), n);
    var r := DecodeStamp(n.safeAndIdx);
    match pc
    case EReadValue(x, k, t) => next := EReadStamp(x, k, t, DecodeValue(n.val));
    case EReadStamp(x, k, t, v) =>
      next := EOverflow(x, k, t);
      if v == Null && r.idx <= t {
        next := if r.safe then EDeposit(x, k, t, r) else EReadHead(x, k, t, r);
      }
    case DReadValue(h) => next := DReadStamp(h, DecodeValue(n.val));
    case DReadStamp(h, v) =>
      if h < r.idx {
        next := DReadTail(h);
      } else if v != Null {
        next := if r.idx == h then DTake(h, r, v) else DMarkUnsafe(h, r, v);
      } else {
        next := DAdvance(h, r);
      }
  }

  class Ring {
    var head: Word
    var tail: Word
    const nodes: array<NodeWords>
    var threads: map<Tid, Pc>
    ghost var ledger: Ledger

    ghost function Nodes(): seq<Node>
      reads nodes
    {
      DecodeNodes(nodes[..])
    }

    ghost function View(): State
      reads this, nodes
    {
      State(head, Low(tail), Flag(tail), Nodes(), threads, ledger)
    }

    ghost predicate Valid()
      reads this, nodes
    {
      head < Top && Inv(View()) && ThreadsFit(threads) && R < Top
    }

    constructor ()
      requires R < Top
      ensures Valid() && View() == Init() && fresh(nodes)
    {
      head, tail := 0, 0;
      nodes := new NodeWords[R](i requires 0 <= i => NodeWords(EncodeStamp(Stamp(true, i)), 0));
      threads, ledger := map[], Blank;
      new;
      InitInv();
      forall i | 0 <= i < R ensures DecodeNode(nodes[i]) == Node(Stamp(true, i), Null) {
        PackedWord(true, i);
      }
      assert Nodes() == Init().nodes;
    }

    method Begin(me: Tid, call: Call)
      requires Valid() && IsIdle(View(), me) && (call.Enqueue? ==> ItemFits(call.x))
      modifies this`threads
      ensures Valid() && View() == Crq.Begin(old(View()), me, call)
    {
      BeginKeepsInv(View(), me, call);
      threads := threads[me := match call case Enqueue(x) => EDraw(x, 0) case Dequeue => DDraw];
    }

    /** `CAS2`: both words of a node compared and swapped as one wide word. */
    method Cas2(i: nat, expected: Node, desired: Node) returns (ok: bool)
      requires i < nodes.Length && NodeFits(expected) && NodeFits(desired)
      modifies nodes
      ensures ok <==> old(Nodes())[i] == expected
      ensures Nodes() == if ok then old(Nodes())[i := desired] else old(Nodes())
    {
      var n, e := nodes[i], EncodeNode(expected);
      NodeCodec(expected, n);
      NodeCodec(desired, EncodeNode(desired));
      WideIsInjective(n.safeAndIdx, n.val, e.safeAndIdx, e.val);
      ok := Wide(n.safeAndIdx, n.val) == Wide(e.safeAndIdx, e.val);
      if ok { nodes[i] := EncodeNode(desired); }
    }

    /** An access to a node, other than a load. */
    method Write(i: nat, pc: Pc) returns (next: Pc)
      requires i < nodes.Length && PcFits(pc)
      requires pc.EDeposit? || pc.DTake? || pc.DMarkUnsafe? || pc.DAdvance?
      requires pc.DTake? ==> pc.v.Full?
      modifies nodes
      ensures var a := NodeAccess(old(Nodes())[i], pc);
        Nodes() == old(Nodes())[i := a.node] && next == a.pc
    {
      var ok;
      match pc
      case EDeposit(x, k, t, r) =>
        ok := Cas2(i, Node(r, Null), Node(Stamp(true, t), Full(x)));
        next := if ok then EOk(x, t) else EOverflow(x, k, t);
      case DTake(h, r, v) =>
        ok := Cas2(i, Node(Stamp(r.safe, h), v), Node(Stamp(r.safe, h + R), Null));
        next := if ok then DGot(h, v.x) else DReadValue(h);
      case DMarkUnsafe(h, r, v) =>
        ok := Cas2(i, Node(r, v), Node(Stamp(false, r.idx), v));
        next := if ok then DReadTail(h) else DReadValue(h);
      case DAdvance(h, r) =>
        ok := Cas2(i, Node(r, Null), Node(Stamp(r.safe, h + R), Null));
        next := if ok then DReadTail(h) else DReadValue(h);
    }

    /** `_tail.fetch_add(1)` */
    method FetchAddTail() returns (closed: bool, t: nat)
      requires Low(tail) + 1 < Top
      modifies this`tail
      ensures closed == Flag(tail) == old(Flag(tail)) && t == old(Low(tail)) && Low(tail) == t + 1
    {
      var tmp := tail;
      DrawOnPackedTail(tail);
      PackedWord(Flag(tail), Low(tail) + 1);
      tail := Plus1(tail);
      closed, t := Flag(tmp), Low(tmp);
    }

    /** `_tail.fetch_or(CLOSED_BIT)` */
    method FetchOrClosed()
      modifies this`tail
      ensures Flag(tail) && Low(tail) == old(Low(tail))
    {
      CloseOnPackedTail(tail);
      tail := SetFlag(tail);
    }

    /** `_tail.compare_exchange_strong` on the whole word; a closed tail never equals an open one. */
    method CasTail(expected: nat, desired: nat) returns (ok: bool)
      requires expected < Top && desired < Top
      modifies this`tail
      ensures ok <==> !old(Flag(tail)) && old(Low(tail)) == expected
      ensures Flag(tail) == old(Flag(tail)) && Low(tail) == if ok then desired else old(Low(tail))
    {
      UnpackedWord(tail);
      PackedWord(false, desired);
      ok := tail == expected;
      if ok { tail := desired; }
    }

    /** An access to the tail word by an enqueuer, or the tail check of a dequeuer. */
    method TailStep(me: Tid, pc: Pc) returns (next: Pc)
      requires WellFormed(View()) && me in threads && pc == threads[me] && PcFits(pc)
      requires pc.EDraw? || pc.EClose? || pc.DReadTail?
      requires Low(tail) + 1 < Top
      modifies this`tail
      ensures PcFits(next)
      ensures View().(threads := threads[me := next]) == Next(old(View()), me)
    {
      match pc
      case EDraw(x, k) =>
        var closed, t := FetchAddTail();
        next := if closed then EClosed(x) else EReadValue(x, k, t);
      case EClose(x) =>
        FetchOrClosed();
        next := EClosed(x);
      case DReadTail(h) =>
        next := if Low(tail) <= h + 1 then FReadHead else DDraw;
    }

    /** An access of `fixState`. */
    method RepairStep(me: Tid, pc: Pc) returns (next: Pc)
      requires WellFormed(View()) && me in threads && pc == threads[me] && PcFits(pc)
      requires pc.FReadHead? || pc.FReadTail? || pc.FConfirmTail? || pc.FRaiseTail?
      requires head < Top
      modifies this`tail
      ensures PcFits(next)
      ensures View().(threads := threads[me := next]) == Next(old(View()), me)
    {
      match pc
      case FReadHead => next := FReadTail(head);
      case FReadTail(h) => next := FConfirmTail(h, Flag(tail), Low(tail));
      case FConfirmTail(h, closed, t) =>
        UnpackedWord(tail);
        PackedWord(closed, t);
        HeadAgainstTailWord(h, Pack(closed, t));
        next := if tail != Pack(closed, t) then FReadHead
                else if h <= Pack(closed, t) then DEmpty
                else FRaiseTail(h, t);
      case FRaiseTail(h, t) =>
        var ok := CasTail(t, h);
        next := if ok then DEmpty else FReadHead;
    }

    /** An access to the head word. */
    method HeadStep(me: Tid, pc: Pc) returns (next: Pc)
      requires WellFormed(View()) && me in threads && pc == threads[me] && PcFits(pc)
      requires pc.EReadHead? || pc.EOverflow? || pc.DDraw?
      requires head + R < Top
      modifies this`head
      ensures PcFits(next) && head < Top
      ensures View().(threads := threads[me := next]) == Next(old(View()), me)
    {
      match pc
      case EReadHead(x, k, t, r) =>
        next := if head <= t then EDeposit(x, k, t, r) else EOverflow(x, k, t);
      case EOverflow(x, k, t) =>
        OverflowTest(t, head, R);
        next := if R <= Minus(t, head) || StarvingThreshold < k then EClose(x) else EDraw(x, k + 1);
      case DDraw =>
        next := DReadValue(head);
        head := Plus1(head);
    }

    /** An access to the node of the thread's ticket. */
    method NodeStep(me: Tid, pc: Pc) returns (next: Pc)
      requires WellFormed(View()) && me in threads && pc == threads[me] && PcFits(pc)
      requires pc.AtNode() && (pc.DTake? ==> pc.v.Full?)
      modifies nodes
      ensures PcFits(next)
      ensures View().(threads := threads[me := next], ledger := Record(ledger, pc, next)) == Next(old(View()), me)
    {
      var i := Slot(pc.Ticket());
      AccessFits(nodes[i], pc);
      if OnlyReads(pc) {
        next := Read(nodes[i], pc);
        assert Nodes()[i := Nodes()[i]] == Nodes();
      } else {
        next := Write(i, pc);
      }
    }

    /** The next atomic access of a thread, whatever the state. */
    method Access(me: Tid)
      requires WellFormed(View()) && me in threads && ThreadsFit(threads)
      requires threads[me].DTake? ==> threads[me].v.Full?
      requires head + R < Top && Low(tail) + 1 < Top
      modifies this, nodes
      ensures head < Top && ThreadsFit(threads)
      ensures View() == Next(old(View()), me)
    {
      var pc := threads[me];
      var next := pc;
      if pc.AtNode() {
        next := NodeStep(me, pc);
        ledger := Record(ledger, pc, next);
      } else if pc.EDraw? || pc.EClose? || pc.DReadTail? {
        next := TailStep(me, pc);
      } else if pc.EReadHead? || pc.EOverflow? || pc.DDraw? {
        next := HeadStep(me, pc);
      } else if pc.FReadHead? || pc.FReadTail? || pc.FConfirmTail? || pc.FRaiseTail? {
        next := RepairStep(me, pc);
      } else {
        assert threads[me := pc] == threads;
      }
      threads := threads[me := next];
    }

    /** The next atomic access of a thread, as long as tickets and indices stay below 2^63. */
    method Step(me: Tid)
      requires Valid() && me in threads
      requires head + R < Top && Low(tail) + 1 < Top
      modifies this, nodes
      ensures Valid() && View() == Next(old(View()), me)
    {
      assert KnowsAt(View(), threads[me]);
      NextKeepsInv(View(), me);
      Access(me);
    }
  }
}
