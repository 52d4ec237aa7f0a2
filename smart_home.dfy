// The smart-home gateway of the capstone: it answers @status, @save and
// @clear on the serial link and keeps a 32-bit save counter and the last
// saved ADC values in the flash parameter page.
//
// Page layout: word 1 is the low and word 2 the high half of the counter,
// words 3 .. 6 the ADC values of the last save. Replies are modelled as
// values; their printf text is not.

module SmartHomeGateway {

  import opened CInt
  import opened FlashStore

  const COUNT_LO: int := 1
  const COUNT_HI: int := 2
  const VALUES: int := 3
  const MAX_VALUES: int := 4

  /** The save counter recorded in a page image. */
  function Counter(s: seq<Half>): int
    requires |s| == STORE_COUNT
  {
    Join(s[COUNT_LO], s[COUNT_HI])
  }

  /** cnt++ on the joined counter, split back into its words: the carry goes from the low word to the high one. */
  lemma IncrementCarry(lo: int, hi: int)
    requires 0 <= lo < HALF_MOD && 0 <= hi < HALF_MOD
    ensures var c := (Join(lo, hi) + 1) % WORD_MOD;
      (c % HALF_MOD, c / HALF_MOD) ==
        if lo < 0xFFFF then (lo + 1, hi) else if hi < 0xFFFF then (0, hi + 1) else (0, 0)
  {
    SplitJoin(lo, hi);
    if lo == 0xFFFF && hi < 0xFFFF {
      assert Join(lo, hi) + 1 == Join(0, hi + 1);
      SplitJoin(0, hi + 1);
    } else if lo < 0xFFFF {
      assert Join(lo, hi) + 1 == Join(lo + 1, hi);
      SplitJoin(lo + 1, hi);
    }
  }

  /** Word i is neither a counter word nor one of the first m value words. */
  predicate Untouched(i: int, m: int)
  {
    i != COUNT_LO && i != COUNT_HI && !(VALUES <= i < VALUES + m)
  }

  /** The requests cmd_process tells apart. */
  datatype Request = Status | Save | Clear | Other

  /** One leading '@' is dropped, then the rest must equal a command exactly. */
  function Classify(cmd: seq<char>): (r: Request)
    ensures r == Status <==> cmd == "status" || cmd == "@status"
    ensures r == Save <==> cmd == "save" || cmd == "@save"
    ensures r == Clear <==> cmd == "clear" || cmd == "@clear"
  {
    var c := if cmd != [] && cmd[0] == '@' then cmd[1..] else cmd;
    if c == "status" then Status
    else if c == "save" then Save
    else if c == "clear" then Clear
    else Other
  }

  /** Matching is exact, the '@' optional, and only one '@' is dropped. */
  lemma ClassifyExamples()
    ensures Classify("@status") == Status && Classify("status") == Status
    ensures Classify("@save") == Save && Classify("clear") == Clear
    ensures Classify("statusx") == Other && Classify("@@save") == Other && Classify("") == Other
  {
    assert "@status"[1..] == "status";
    assert "@save"[1..] == "save";
    assert "@@save"[1..] == "@save";
  }

  datatype Reply = Samples(count: int) | OkSave | OkClear | ErrCmd

  class Gateway {
    const store: Store
    /** What cmd_process has answered, in order. */
    var replies: seq<Reply>

    ghost predicate Valid()
      reads this, store
    {
      store.Valid()
    }

    constructor (store: Store)
      requires store.Valid()
      ensures Valid() && this.store == store && replies == []
    {
      this.store := store;
      replies := [];
    }

    /**
     * store_last: one more save on the 32-bit counter (modulo 2^32), the
     * first min(n, 4) ADC values into words 3 onward, nothing else, then
     * the page is saved.
     */
    method StoreLast(adc: seq<Half>, n: int)
      requires Valid() && |adc| >= MAX_VALUES && 0 <= n < U8_MOD
      modifies store.data, store`saved
      ensures Counter(store.data[..]) == (Counter(old(store.data[..])) + 1) % U32_MOD
      ensures forall i :: 0 <= i < Min(n, MAX_VALUES) ==> store.data[VALUES + i] == adc[i]
      ensures forall i :: 0 <= i < STORE_COUNT && Untouched(i, Min(n, MAX_VALUES)) ==> store.data[i] == old(store.data[i])
      ensures store.saved == store.data[..]
    {
      SplitJoin(store.data[COUNT_LO], store.data[COUNT_HI]);
      var cnt := Join(store.data[COUNT_LO], store.data[COUNT_HI]);
      cnt := (cnt + 1) % U32_MOD;
      JoinSplit(cnt);
      store.data[COUNT_LO] := cnt % U16_MOD;
      store.data[COUNT_HI] := cnt / U16_MOD;
      assert Counter(store.data[..]) == cnt;
      var i := 0;
      while i < n && i < MAX_VALUES
        invariant 0 <= i <= Min(n, MAX_VALUES)
        invariant Counter(store.data[..]) == cnt
        invariant forall j :: 0 <= j < i ==> store.data[VALUES + j] == adc[j]
        invariant forall j :: 0 <= j < STORE_COUNT && Untouched(j, i) ==> store.data[j] == old(store.data[j])
      {
        store.data[VALUES + i] := adc[i];
        i := i + 1;
      }
      store.Save();
    }

    /**
     * cmd_process: "status" reports the joined counter, "save" stores the
     * current ADC values, "clear" erases the page and anything else is an
     * error with no change. `adc` and `n` are what ADC_DMA_GetValues and
     * ADC_DMA_GetCount return.
     */
    method Process(cmd: seq<char>, adc: seq<Half>, n: int)
      requires Valid() && |adc| >= MAX_VALUES && 0 <= n < U8_MOD
      modifies this`replies, store.data, store`saved
      ensures Classify(cmd) == Status ==>
        replies == old(replies) + [Samples(Counter(store.data[..]))] && unchanged(store) && store.data[..] == old(store.data[..])
      ensures Classify(cmd) == Save ==>
        replies == old(replies) + [OkSave] && Counter(store.data[..]) == (Counter(old(store.data[..])) + 1) % U32_MOD
        && (forall i :: 0 <= i < Min(n, MAX_VALUES) ==> store.data[VALUES + i] == adc[i])
        && (forall i :: 0 <= i < STORE_COUNT && Untouched(i, Min(n, MAX_VALUES)) ==> store.data[i] == old(store.data[i]))
        && store.saved == store.data[..]
      ensures Classify(cmd) == Clear ==> replies == old(replies) + [OkClear]
      ensures Classify(cmd) == Other ==>
        replies == old(replies) + [ErrCmd] && unchanged(store) && store.data[..] == old(store.data[..])
    {
      var c := cmd;
      if c != [] && c[0] == '@' {
        c := c[1..];
      }
      if c == "status" {
        var cnt := Join(store.data[COUNT_LO], store.data[COUNT_HI]);
        replies := replies + [Samples(cnt)];
        return;
      }
      if c == "save" {
        StoreLast(adc, n);
        replies := replies + [OkSave];
        return;
      }
      if c == "clear" {
        replies := replies + [OkClear];
        return;
      }
      replies := replies + [ErrCmd];
    }
  }
}
