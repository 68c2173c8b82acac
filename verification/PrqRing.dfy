/**
 * PRQ as the program stores it: two counter words and an array of two-word cells, updated in place.
 *
 * A thread is a number below 2^63; its token is the odd word 2 * me + 1. Items are non-zero even
 * words. Tickets stay below 2^63.
 */
module PrqRing {
  import opened RingGeometry
  import opened TicketRing
  import opened Words
  import opened Prq

  // ---- Codecs ----

  function EncodeStamp(r: Stamp): Word {
    Pack(r.safe, r.epoch)
  }

  function DecodeStamp(w: Word): Stamp {
    Stamp(Flag(w), Low(w))
  }

  predicate IsToken(w: Word) {
    w % 2 == 1
  }

  function ThreadToken(me: Tid): Word
    requires me < Top
  {
    2 * me + 1
  }

  function EncodeValue(v: Value): Word
    requires ValueFits(v)
  {
    match v
    case Null => 0
    case Token(b) => ThreadToken(b)
    case Full(x) => x
  }

  function DecodeValue(w: Word): Value {
    if w == 0 then Null else if IsToken(w) then Token(w / 2) else Full(w)
  }

  predicate ItemFits(x: Item) {
    0 < x < 2 * Top && x % 2 == 0
  }

  predicate ValueFits(v: Value) {
    match v
    case Null => true
    case Token(b) => b < Top
    case Full(x) => ItemFits(x)
  }

  predicate StampFits(r: Stamp) {
    r.epoch < Top
  }

  lemma StampCodec(r: Stamp, w: Word)
    ensures StampFits(r) ==> (w == EncodeStamp(r) <==> DecodeStamp(w) == r)
    ensures StampFits(DecodeStamp(w)) && EncodeStamp(DecodeStamp(w)) == w
  {
    UnpackedWord(w);
    if StampFits(r) { PackedWord(r.safe, r.epoch); }
  }

  /** Null, tokens and items never share a word, so comparing words compares values. */
  lemma ValueCodec(v: Value, w: Word)
    requires ValueFits(v)
    ensures w == EncodeValue(v) <==> DecodeValue(w) == v
    ensures ValueFits(DecodeValue(w)) && EncodeValue(DecodeValue(w)) == w
    ensures IsToken(w) <==> DecodeValue(w).Token?
  {}

  datatype CellWords = CellWords(safeAndEpoch: Word, value: Word)

  function DecodeCell(c: CellWords): Cell {
    Cell(DecodeStamp(c.safeAndEpoch), DecodeValue(c.value))
  }

  function DecodeCells(cs: seq<CellWords>): seq<Cell> {
    seq(|cs|, i requires 0 <= i < |cs| => DecodeCell(cs[i]))
  }

  // ---- Locals that fit in words ----

  predicate PcFits(pc: Pc) {
    && pc.Ticket() < Top
    && (match pc
        case EDraw(x, _) => ItemFits(x)
        case EReadStamp(x, _, _) => ItemFits(x)
        case EReadValue(x, _, _, r) => ItemFits(x) && StampFits(r)
        case EReadHead(x, _, _, r, v) => ItemFits(x) && StampFits(r) && ValueFits(v)
        case EPlaceToken(x, _, _, r, v) => ItemFits(x) && StampFits(r) && ValueFits(v)
        case EStamp(x, _, _, r) => ItemFits(x) && StampFits(r)
        case EWithdraw(x, _, _) => ItemFits(x)
        case EDeposit(x, _, _) => ItemFits(x)
        case EOverflow(x, _, _) => ItemFits(x)
        case EClose(x) => ItemFits(x)
        case DReadValue(_, r) => StampFits(r)
        case DConfirm(_, r, v) => StampFits(r) && ValueFits(v)
        case DKillToken(_, r, v) => StampFits(r) && ValueFits(v)
        case DAdvance(_, r) => StampFits(r)
        case DMarkUnsafe(_, r) => StampFits(r)
        case _ => true)
  }

  lemma CycleFits(t: nat)
    requires t < Top
    ensures Cycle(t) < Top
  {
    if t < Cycle(t) {
      MulMonotone(0, Cycle(t));
      assert R * Cycle(t) == Cycle(t) + (R - 1) * Cycle(t);
    }
  }

  lemma AccessFits(c: CellWords, me: Tid, pc: Pc)
    requires pc.AtCell() && PcFits(pc) && me < Top
    ensures PcFits(CellAccess(DecodeCell(c), me, pc).pc)
  {
    StampCodec(DecodeStamp(c.safeAndEpoch), c.safeAndEpoch);
    ValueCodec(Null, c.value);
  }

  predicate OnlyReads(pc: Pc) {
    pc.EReadStamp? || pc.EReadValue? || pc.DReadStamp? || pc.DReadValue? || pc.DConfirm?
  }

  /** What a thread does with the cell words it has just loaded. */
  method Read(c: CellWords, me: Tid, pc: Pc) returns (next: Pc)
    requires OnlyReads(pc) && PcFits(pc)
    ensures CellAccess(DecodeCell(c), me, pc) == Access(DecodeCell(c), next)
  {
    StampCodec(DecodeStamp(c.safeAndEpoch), c.safeAndEpoch);
    ValueCodec(Null, c.value);
    match pc
    case EReadStamp(x, k, t) => next := EReadValue(x, k, t, DecodeStamp(c.safeAndEpoch));
    case EReadValue(x, k, t, r) =>
      if (c.value == 0 || IsToken(c.value)) && r.epoch < Cycle(t) {
        next := if r.safe then EPlaceToken(x, k, t, r, DecodeValue(c.value))
                else EReadHead(x, k, t, r, DecodeValue(c.value));
      } else {
        next := EOverflow(x, k, t);
      }
    case DReadStamp(h) => next := DReadValue(h, DecodeStamp(c.safeAndEpoch));
    case DReadValue(h, r) => next := DConfirm(h, r, DecodeValue(c.value));
    case DConfirm(h, r, v) =>
      StampCodec(r, c.safeAndEpoch);
      var cycle := Cycle(h);
      if c.safeAndEpoch != EncodeStamp(r) {
        next := DReadStamp(h);
      } else if r.epoch == cycle && v.Full? {
        next := DClear(h, v.x);
      } else if r.epoch <= cycle && !v.Full? {
        next := if v.Token? then DKillToken(h, r, v) else DAdvance(h, r);
      } else if r.epoch < cycle && v.Full? {
        next := DMarkUnsafe(h, r);
      } else {
        next := DReadTail(h);
      }
  }

  class Ring {
    var head: Word
    var tail: Word
    const cells: array<CellWords>
    var threads: map<Tid, Pc>
    ghost var ledger: Ledger

    ghost function Cells(): seq<Cell>
      reads cells
    {
      DecodeCells(cells[..])
    }

    ghost function View(): State
      reads this, cells
    {
      State(head, Low(tail), Flag(tail), Cells(), threads, ledger)
    }

    /** The words are in range and the cells are there. */
    predicate Fits()
      reads this
    {
      head < Top && R < Top && cells.Length == R && forall b <- threads :: b < Top && PcFits(threads[b])
    }

    ghost predicate Valid()
      reads this, cells
    {
      Fits() && Inv(View())
    }

    constructor ()
      requires R < Top
      ensures Valid() && View() == Init() && fresh(cells)
    {
      head, tail := R, R;
      cells := new CellWords[R](_ => CellWords(EncodeStamp(Stamp(true, 0)), 0));
      threads, ledger := map[], Blank;
      new;
      InitInv();
      StampCodec(Stamp(true, 0), EncodeStamp(Stamp(true, 0)));
      assert Cells() == Init().cells;
    }

    /** A call begins. */
    method Start(me: Tid, call: Call)
      requires Fits() && me < Top && (call.Enqueue? ==> ItemFits(call.x))
      modifies this`threads
      ensures Fits() && View() == Prq.Begin(old(View()), me, call)
    {
      threads := threads[me := match call case Enqueue(x) => EDraw(x, 0) case Dequeue => DDraw];
    }

    method Begin(me: Tid, call: Call)
      requires Valid() && me < Top && IsIdle(View(), me) && (call.Enqueue? ==> ItemFits(call.x))
      modifies this`threads
      ensures Valid() && View() == Prq.Begin(old(View()), me, call)
    {
      BeginKeepsInv(View(), me, call);
      Start(me, call);
    }

    /** `_a[i].safe_and_epoch.compare_exchange_strong` */
    method CasStamp(i: nat, expected: Stamp, desired: Stamp) returns (ok: bool)
      requires i < cells.Length && StampFits(expected) && StampFits(desired)
      modifies cells
      ensures ok <==> old(Cells())[i].stamp == expected
      ensures Cells() == if ok then old(Cells())[i := old(Cells())[i].(stamp := desired)] else old(Cells())
    {
      StampCodec(expected, cells[i].safeAndEpoch);
      StampCodec(desired, EncodeStamp(desired));
      ok := cells[i].safeAndEpoch == EncodeStamp(expected);
      if ok { cells[i] := cells[i].(safeAndEpoch := EncodeStamp(desired)); }
    }

    /** `_a[i].value.compare_exchange_strong` */
    method CasValue(i: nat, expected: Value, desired: Value) returns (ok: bool)
      requires i < cells.Length && ValueFits(expected) && ValueFits(desired)
      modifies cells
      ensures ok <==> old(Cells())[i].value == expected
      ensures Cells() == if ok then old(Cells())[i := old(Cells())[i].(value := desired)] else old(Cells())
    {
      ValueCodec(expected, cells[i].value);
      ValueCodec(desired, EncodeValue(desired));
      ok := cells[i].value == EncodeValue(expected);
      if ok { cells[i] := cells[i].(value := EncodeValue(desired)); }
    }

    /** `_a[i].value = NULL_VALUE`, a plain store. */
    method StoreNull(i: nat)
      requires i < cells.Length
      modifies cells
      ensures Cells() == old(Cells())[i := old(Cells())[i].(value := Null)]
    {
      cells[i] := cells[i].(value := 0);
    }

    /** An access of an enqueuer to its cell, other than a load. */
    method EnqueuerWrite(i: nat, me: Tid, pc: Pc) returns (next: Pc)
      requires i < cells.Length && PcFits(pc) && me < Top
      requires pc.EPlaceToken? || pc.EStamp? || pc.EWithdraw? || pc.EDeposit?
      modifies cells
      ensures var a := CellAccess(old(Cells())[i], me, pc);
        Cells() == old(Cells())[i := a.cell] && next == a.pc
    {
      var ok;
      match pc
      case EPlaceToken(x, k, t, r, v) =>
        ok := CasValue(i, v, Token(me));
        next := if ok then EStamp(x, k, t, r) else EOverflow(x, k, t);
      case EStamp(x, k, t, r) =>
        CycleFits(t);
        ok := CasStamp(i, r, Stamp(true, Cycle(t)));
        next := if ok then EDeposit(x, k, t) else EWithdraw(x, k, t);
      case EWithdraw(x, k, t) =>
        ok := CasValue(i, Token(me), Null);
        next := EOverflow(x, k, t);
      case EDeposit(x, k, t) =>
        ok := CasValue(i, Token(me), Full(x));
        next := if ok then EOk(x, t) else EOverflow(x, k, t);
    }

    /** An access of a dequeuer to its cell, other than a load. */
    method DequeuerWrite(i: nat, me: Tid, pc: Pc) returns (next: Pc)
      requires i < cells.Length && PcFits(pc)
      requires pc.DClear? || pc.DKillToken? || pc.DAdvance? || pc.DMarkUnsafe?
      modifies cells
      ensures var a := CellAccess(old(Cells())[i], me, pc);
        Cells() == old(Cells())[i := a.cell] && next == a.pc
    {
      var ok;
      match pc
      case DClear(h, x) =>
        StoreNull(i);
        next := DGot(h, x);
      case DKillToken(h, r, v) =>
        ok := CasValue(i, v, Null);
        next := if ok then DAdvance(h, r) else DReadStamp(h);
      case DAdvance(h, r) =>
        CycleFits(h);
        ok := CasStamp(i, r, Stamp(r.safe, Cycle(h)));
        next := if ok then DReadTail(h) else DReadStamp(h);
      case DMarkUnsafe(h, r) =>
        ok := CasStamp(i, r, Stamp(false, r.epoch));
        next := if ok then DReadTail(h) else DReadStamp(h);
    }

    /** `_tail.fetch_add(1)` */
    method FetchAddTail() returns (closed: bool, t: nat)
      requires Low(tail) + 1 < Top
      modifies this`tail
      ensures closed == Flag(tail) == old(Flag(tail)) && t == old(Low(tail)) && Low(tail) == t + 1
    {
      var tmp := tail;
      DrawOnPackedTail(tail);
      PackedWord(Flag(tail), Low(tail) + 1);
      tail := Plus1(tail);
      closed, t := Flag(tmp), Low(tmp);
    }

    /** `_tail.fetch_or(CLOSED_BIT)` */
    method FetchOrClosed()
      modifies this`tail
      ensures Flag(tail) && Low(tail) == old(Low(tail))
    {
      CloseOnPackedTail(tail);
      tail := SetFlag(tail);
    }

    /** `_head.fetch_add(1)` */
    method FetchAddHead() returns (h: nat)
      requires head + 1 < Top
      modifies this`head
      ensures h == old(head) && head == h + 1
    {
      h := head;
      head := Plus1(head);
    }

    /** An access to the tail word. */
    method TailStep(me: Tid, pc: Pc) returns (next: Pc)
      requires WellFormed(View()) && me in threads && pc == threads[me] && PcFits(pc)
      requires pc.EDraw? || pc.EClose? || pc.DReadTail?
      requires Low(tail) + 1 < Top
      modifies this`tail
      ensures PcFits(next)
      ensures View().(threads := threads[me := next]) == Next(old(View()), me)
    {
      match pc
      case EDraw(x, k) =>
        var closed, t := FetchAddTail();
        next := if closed then EClosed(x) else EReadStamp(x, k, t);
      case EClose(x) =>
        FetchOrClosed();
        next := EClosed(x);
      case DReadTail(h) =>
        next := if Low(tail) <= h + 1 then DEmpty else DDraw;
    }

    /** An access to the head word. */
    method HeadStep(me: Tid, pc: Pc) returns (next: Pc)
      requires WellFormed(View()) && me in threads && pc == threads[me] && PcFits(pc)
      requires pc.EReadHead? || pc.EOverflow? || pc.DDraw?
      requires head + 1 < Top && R < Top
      modifies this`head
      ensures PcFits(next) && head < Top
      ensures View().(threads := threads[me := next]) == Next(old(View()), me)
    {
      match pc
      case EReadHead(x, k, t, r, v) =>
        next := if head <= t then EPlaceToken(x, k, t, r, v) else EOverflow(x, k, t);
      case EOverflow(x, k, t) =>
        OverflowTest(t, head, R);
        next := if R <= Minus(t, head) || StarvingThreshold < k then EClose(x) else EDraw(x, k + 1);
      case DDraw =>
        var h := FetchAddHead();
        next := DReadStamp(h);
    }

    /** An access to the cell of the thread's ticket. */
    method CellStep(me: Tid, pc: Pc) returns (next: Pc)
      requires WellFormed(View()) && me in threads && pc == threads[me] && PcFits(pc)
      requires me < Top && pc.AtCell()
      modifies cells
      ensures PcFits(next)
      ensures View().(threads := threads[me := next], ledger := Record(ledger, pc, next)) == Next(old(View()), me)
    {
      var i := Slot(pc.Ticket());
      AccessFits(cells[i], me, pc);
      if OnlyReads(pc) {
        next := Read(cells[i], me, pc);
        assert Cells()[i := Cells()[i]] == Cells();
      } else if pc.AtDequeue() {
        next := DequeuerWrite(i, me, pc);
      } else {
        next := EnqueuerWrite(i, me, pc);
      }
    }

    /** The next atomic access of a thread, whatever the state. */
    method Access(me: Tid)
      requires Fits() && me in threads && head + 1 < Top && Low(tail) + 1 < Top
      modifies this, cells
      ensures Fits() && View() == Next(old(View()), me)
    {
      var pc := threads[me];
      var next := pc;
      if pc.AtCell() {
        next := CellStep(me, pc);
        ledger := Record(ledger, pc, next);
      } else if pc.EDraw? || pc.EClose? || pc.DReadTail? {
        next := TailStep(me, pc);
      } else if pc.EReadHead? || pc.EOverflow? || pc.DDraw? {
        next := HeadStep(me, pc);
      } else {
        assert threads[me := pc] == threads;
      }
      threads := threads[me := next];
    }

    /** The next atomic access of a thread, as long as tickets stay below 2^63. */
    method Step(me: Tid)
      requires Valid() && me in threads
      requires head + 1 < Top && Low(tail) + 1 < Top
      modifies this, cells
      ensures Valid() && View() == Next(old(View()), me)
    {
      NextKeepsInv(View(), me);
      Access(me);
    }
  }
}
