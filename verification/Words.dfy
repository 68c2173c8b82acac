/**
 * The 64-bit words of the rings. A word packs a flag in its top bit with a 63-bit number:
 * (closed, ticket) in a tail, (safe, epoch) or (safe, index) in a cell.
 */
module Words {
  const Top: nat := 0x8000_0000_0000_0000
  type Word = w: nat | w < 2 * 0x8000_0000_0000_0000

  /** `word & (1 << 63)`, as a truth value. */
  function Flag(w: Word): bool {
    Top <= w
  }

  /** `word & ~(1 << 63)` */
  function Low(w: Word): nat {
    w % Top
  }

  /** `(flag << 63) | (low & ~(1 << 63))` */
  function Pack(flag: bool, low: nat): Word {
    (if flag then Top else 0) + low % Top
  }

  /** `fetch_add(1)`, wrapping. */
  function Plus1(w: Word): Word {
    (w + 1) % (2 * Top)
  }

  /** `fetch_or(1 << 63)` */
  function SetFlag(w: Word): Word {
    if Flag(w) then w else w + Top
  }

  /** `a - b` on unsigned words. */
  function Minus(a: Word, b: Word): Word {
    (a - b) % (2 * Top)
  }

  lemma PackedWord(flag: bool, low: nat)
    requires low < Top
    ensures Flag(Pack(flag, low)) == flag && Low(Pack(flag, low)) == low
  {}

  lemma UnpackedWord(w: Word)
    ensures Pack(Flag(w), Low(w)) == w && Low(w) < Top
  {}

  /** Drawing a ticket adds one to the ticket and leaves the closed bit alone, below 2^63. */
  lemma DrawOnPackedTail(w: Word)
    requires Low(w) + 1 < Top
    ensures Plus1(w) == Pack(Flag(w), Low(w) + 1)
  {}

  /** Closing sets the bit for good and leaves the ticket alone. */
  lemma CloseOnPackedTail(w: Word)
    ensures SetFlag(w) == Pack(true, Low(w)) && Flag(SetFlag(w)) && Low(SetFlag(w)) == Low(w)
  {}

  /** A whole tail word compares with a head as a closed bit that outweighs every ticket. */
  lemma HeadAgainstTailWord(h: Word, w: Word)
    requires h < Top
    ensures h <= w <==> Flag(w) || h <= Low(w)
  {}

  /** The overflow test `t - head >= r` also fires when the head has passed t. */
  lemma OverflowTest(t: Word, head: Word, r: nat)
    requires t < Top && head < Top && 0 < r <= Top
    ensures r <= Minus(t, head) <==> t < head || r <= t - head
  {}

  // ---- Two words compared and swapped as one ----

  /** `((unsigned __int128)high << 64) | low` */
  function Wide(low: Word, high: Word): nat {
    high * (2 * Top) + low
  }

  lemma WideIsInjective(low: Word, high: Word, low': Word, high': Word)
    ensures Wide(low, high) == Wide(low', high') <==> low == low' && high == high'
  {}
}
