// The internal-flash parameter page of the capstone (Store_Data): a RAM
// array of STORE_COUNT uint16_t words that Store_Save copies to flash.
// Store.c is not part of this model; Store_Save is modelled as taking a
// snapshot of the array.

module FlashStore {

  /** STORE_COUNT, the number of uint16_t words in the page. */
  const STORE_COUNT: int := 512

  const HALF_MOD: int := 0x1_0000
  const WORD_MOD: int := 0x1_0000_0000

  /** A uint16_t. */
  type Half = x: int | 0 <= x < 0x1_0000

  /** `(uint32_t)hi << 16 | lo`: a 32-bit value kept in two words of the page. */
  function Join(lo: int, hi: int): int
  {
    hi * HALF_MOD + lo
  }

  /** Writing a value as `v & 0xFFFF` and `v >> 16` and reading it back gives it again. */
  lemma JoinSplit(b: int)
    requires 0 <= b < WORD_MOD
    ensures 0 <= b % HALF_MOD < HALF_MOD && 0 <= b / HALF_MOD < HALF_MOD
    ensures Join(b % HALF_MOD, b / HALF_MOD) == b
  {
  }

  /** Reading two halves as a value and splitting it again gives the same halves. */
  lemma SplitJoin(lo: int, hi: int)
    requires 0 <= lo < HALF_MOD && 0 <= hi < HALF_MOD
    ensures 0 <= Join(lo, hi) < WORD_MOD
    ensures Join(lo, hi) % HALF_MOD == lo && Join(lo, hi) / HALF_MOD == hi
  {
  }

  class Store {
    /** Store_Data: the working copy that the applications read and write. */
    const data: array<Half>
    /** The page as the last Store_Save left it. */
    var saved: seq<Half>

    ghost predicate Valid()
      reads this
    {
      data.Length == STORE_COUNT
    }

    /** Store_Init: load the page into the working copy. */
    constructor (image: seq<Half>)
      requires |image| == STORE_COUNT
      ensures Valid() && fresh(data)
      ensures data[..] == image && saved == image
    {
      data := new Half[STORE_COUNT](i requires 0 <= i < STORE_COUNT => image[i]);
      saved := image;
    }

    /** Store_Save: persist the working copy. */
    method Save()
      modifies this`saved
      ensures saved == data[..]
    {
      saved := data[..];
    }
  }
}
