/** A fixed-size bitset in machine words. */
module AtomicBitset {
  import opened Bits
  import opened Listing

  const WORD_BITS: nat := 64

  function WordCount(bits: nat): nat {
    (bits + WORD_BITS - 1) / WORD_BITS
  }

  predicate IsWord(x: nat) {
    x < Pow2(WORD_BITS)
  }

  /** Whether bit `i` is set in the words that hold it. */
  predicate BitAt(words: seq<nat>, i: nat) {
    i / WORD_BITS < |words| && Bit(words[i / WORD_BITS], i % WORD_BITS)
  }

  function Flags(words: seq<nat>): nat -> bool {
    (i: nat) => BitAt(words, i)
  }

  function Least(a: nat, b: nat): nat {
    if a > b then b else a
  }

  lemma WordOf(k: nat, bit: nat)
    requires bit < WORD_BITS
    ensures (k * WORD_BITS + bit) / WORD_BITS == k && (k * WORD_BITS + bit) % WORD_BITS == bit
  {
  }

  /** What a word holds of the bits below `limit`: the last word is masked. */
  function Loaded(word: nat, k: nat, limit: nat): nat {
    if k + 1 == WordCount(limit) && limit % WORD_BITS != 0
    then And(word, Pow2(limit % WORD_BITS) - 1)
    else word
  }

  lemma MaskedBit(word: nat, last: nat, bit: nat)
    ensures Bit(And(word, Pow2(last) - 1), bit) <==> bit < last && Bit(word, bit)
  {
    hide Pow2, Bit, And;
    AndBit(word, Pow2(last) - 1, bit);
    ComplementBit(last, 0, bit);
    ZeroBits(bit);
  }

  lemma LoadedBit(words: seq<nat>, k: nat, limit: nat, bit: nat)
    requires k < |words| && k < WordCount(limit) && IsWord(words[k])
    ensures Bit(Loaded(words[k], k, limit), bit) <==>
      bit < WORD_BITS && k * WORD_BITS + bit < limit && BitAt(words, k * WORD_BITS + bit)
  {
    hide Pow2, Bit, And;
    if bit >= WORD_BITS { BitsBelowWidth(WORD_BITS, words[k], bit); } else { WordOf(k, bit); }
    MaskedBit(words[k], limit % WORD_BITS, bit);
  }

  // ---------------------------------------------------------------------------------------
  // Walking the set bits of one word
  // ---------------------------------------------------------------------------------------

  /** `rest` is what is left of word `k` once the bits below `done` are taken out. */
  ghost predicate Left(words: seq<nat>, k: nat, limit: nat, done: nat, rest: nat)
    requires k < |words|
  {
    forall bit: nat {:trigger Bit(rest, bit)} :: Bit(rest, bit) <==> done <= bit && Bit(Loaded(words[k], k, limit), bit)
  }

  lemma TakeLowest(words: seq<nat>, k: nat, limit: nat, done: nat, rest: nat)
    requires k < |words| && k < WordCount(limit) && IsWord(words[k]) && rest != 0
    requires Left(words, k, limit, done, rest)
    ensures var bit := LowestBit(rest);
      && done <= bit < WORD_BITS && k * WORD_BITS + bit < limit
      && Chosen(Flags(words), k * WORD_BITS + bit + 1)
         == Chosen(Flags(words), k * WORD_BITS + done) + [k * WORD_BITS + bit]
      && Left(words, k, limit, bit + 1, And(rest, rest - 1)) && And(rest, rest - 1) < rest
  {
    hide Pow2, Bit, And, LowestBit, Loaded, BitAt;
    var bit, base := LowestBit(rest), k * WORD_BITS;
    LowestIsSet(rest);
    LoadedBit(words, k, limit, bit);
    forall i: nat | base + done <= i < base + bit
      ensures !Flags(words)(i)
    {
      BelowLowest(rest, i - base);
      LoadedBit(words, k, limit, i - base);
    }
    ChosenNext(Flags(words), base + done, base + bit);
    AndAtMost(rest, rest - 1);
    LowestTaken(words, k, limit, done, rest);
  }

  lemma LowestTaken(words: seq<nat>, k: nat, limit: nat, done: nat, rest: nat)
    requires k < |words| && rest != 0 && Left(words, k, limit, done, rest) && done <= LowestBit(rest)
    ensures Left(words, k, limit, LowestBit(rest) + 1, And(rest, rest - 1))
  {
    hide Bit, And, LowestBit, Loaded;
    forall i: nat
      ensures Bit(And(rest, rest - 1), i) <==> LowestBit(rest) + 1 <= i && Bit(Loaded(words[k], k, limit), i)
    {
      ClearLowest(rest, i);
      if i < LowestBit(rest) { BelowLowest(rest, i); }
    }
  }

  /** Where word `k` ends below `limit`. */
  function End(k: nat, limit: nat): nat {
    Least((k + 1) * WORD_BITS, limit)
  }

  lemma WordExhausted(words: seq<nat>, k: nat, limit: nat, done: nat)
    requires k < |words| && k < WordCount(limit) && IsWord(words[k]) && k * WORD_BITS + done <= End(k, limit)
    requires Left(words, k, limit, done, 0)
    ensures Chosen(Flags(words), End(k, limit)) == Chosen(Flags(words), k * WORD_BITS + done)
  {
    hide Bit, Loaded, BitAt;
    var base := k * WORD_BITS;
    forall i: nat | base + done <= i < End(k, limit)
      ensures !Flags(words)(i)
    {
      ZeroBits(i - base);
      LoadedBit(words, k, limit, i - base);
    }
    ChosenSkip(Flags(words), base + done, End(k, limit));
  }

  // ---------------------------------------------------------------------------------------
  // Counting the set bits of one word
  // ---------------------------------------------------------------------------------------

  lemma {:induction false} PopCountsChosen(p: nat -> bool, x: nat, base: nat, width: nat)
    requires x < Pow2(width) && forall i: nat :: i < width ==> (p(base + i) <==> Bit(x, i))
    ensures |Chosen(p, base + width)| == |Chosen(p, base)| + PopCount(x)
    decreases width
  {
    if width > 0 {
      assert Bit(x, 0) <==> x % 2 == 1;
      assert p(base + 0) <==> Bit(x, 0);
      forall i: nat | i < width - 1
        ensures p(base + 1 + i) <==> Bit(x / 2, i)
      {
        assert p(base + (i + 1)) <==> Bit(x, i + 1);
      }
      PopCountsChosen(p, x / 2, base + 1, width - 1);
    }
  }

  lemma RemainderBelow(x: nat, m: nat)
    requires 0 < m
    ensures x % m < m
  {
  }

  lemma LoadedInWidth(word: nat, k: nat, limit: nat)
    requires IsWord(word) && k < WordCount(limit)
    ensures k * WORD_BITS < End(k, limit) && Loaded(word, k, limit) < Pow2(End(k, limit) - k * WORD_BITS)
  {
    hide Pow2, And;
    var last := limit % WORD_BITS;
    if k + 1 == WordCount(limit) && last != 0 {
      MaskIsModulo(word, last);
      assert End(k, limit) - k * WORD_BITS == last;
      RemainderBelow(word, Pow2(last));
    } else {
      assert End(k, limit) - k * WORD_BITS == WORD_BITS;
    }
  }

  lemma WordCounted(words: seq<nat>, k: nat, limit: nat)
    requires k < |words| && k < WordCount(limit) && IsWord(words[k])
    ensures |Chosen(Flags(words), End(k, limit))|
         == |Chosen(Flags(words), k * WORD_BITS)| + PopCount(Loaded(words[k], k, limit))
  {
    hide Pow2, Bit, Loaded, BitAt, PopCount;
    var base := k * WORD_BITS;
    LoadedInWidth(words[k], k, limit);
    forall i: nat | i < End(k, limit) - base
      ensures Flags(words)(base + i) <==> Bit(Loaded(words[k], k, limit), i)
    {
      LoadedBit(words, k, limit, i);
    }
    PopCountsChosen(Flags(words), Loaded(words[k], k, limit), base, End(k, limit) - base);
  }

  // ---------------------------------------------------------------------------------------
  // Changing one bit
  // ---------------------------------------------------------------------------------------

  /** Word `w` with bit `bit` set or cleared, as the two read-modify-writes compute it. */
  function Changed(w: nat, bit: nat, enabled: bool): nat
    requires bit < WORD_BITS
  {
    if enabled then Or(w, Pow2(bit)) else AndNot(w, Pow2(bit))
  }

  /** `w & ~mask` */
  function AndNot(w: nat, mask: nat): nat {
    if mask < Pow2(WORD_BITS) then And(w, Pow2(WORD_BITS) - 1 - mask) else w
  }

  lemma ChangedBit(w: nat, bit: nat, enabled: bool, i: nat)
    requires bit < WORD_BITS && IsWord(w)
    ensures IsWord(Changed(w, bit, enabled))
    ensures Bit(Changed(w, bit, enabled), i) <==> if i == bit then enabled else Bit(w, i)
  {
    hide Pow2, Bit, And, Or;
    PowerGrows(bit, WORD_BITS);
    PowerBit(bit, i);
    if enabled {
      OrInWidth(WORD_BITS, w, Pow2(bit));
      OrBit(w, Pow2(bit), i);
    } else {
      AndBit(w, Pow2(WORD_BITS) - 1 - Pow2(bit), i);
      AndAtMost(w, Pow2(WORD_BITS) - 1 - Pow2(bit));
      ComplementBit(WORD_BITS, Pow2(bit), i);
      if i >= WORD_BITS { BitsBelowWidth(WORD_BITS, w, i); }
    }
  }

  lemma MaskTests(w: nat, bit: nat)
    ensures And(w, Pow2(bit)) != 0 <==> Bit(w, bit)
  {
    PowerBit(bit, bit);
    AndBit(w, Pow2(bit), bit);
    if And(w, Pow2(bit)) == 0 {
      ZeroBits(bit);
    } else {
      var low := LowestBit(And(w, Pow2(bit)));
      LowestIsSet(And(w, Pow2(bit)));
      AndBit(w, Pow2(bit), low);
      PowerBit(bit, low);
    }
  }

  /** Replacing a word changes only the bits of that word. */
  lemma WordChanged(before: seq<nat>, after: seq<nat>, index: nat, enabled: bool)
    requires index / WORD_BITS < |before| == |after| && IsWord(before[index / WORD_BITS])
    requires after == before[index / WORD_BITS := Changed(before[index / WORD_BITS], index % WORD_BITS, enabled)]
    ensures forall i: nat :: BitAt(after, i) <==> if i == index then enabled else BitAt(before, i)
  {
    forall i: nat
      ensures BitAt(after, i) <==> if i == index then enabled else BitAt(before, i)
    {
      ChangedBit(before[index / WORD_BITS], index % WORD_BITS, enabled, i % WORD_BITS);
      hide Bit, Changed;
    }
  }

  class Bitset {
    const bitCount: nat
    const words: array<nat>

    ghost predicate Valid()
      reads this, words
    {
      words.Length == WordCount(bitCount) && forall k: nat :: k < words.Length ==> IsWord(words[k])
    }

    ghost predicate Has(i: nat)
      reads this, words
    {
      i < bitCount && BitAt(words[..], i)
    }

    constructor (bits: nat)
      ensures Valid() && bitCount == bits && fresh(words) && forall i: nat :: !Has(i)
    {
      hide Pow2;
      bitCount := bits;
      words := new nat[WordCount(bits)](_ => 0);
      new;
      assert IsWord(0);
      forall i: nat
        ensures !Has(i)
      {
        ZeroBits(i % WORD_BITS);
      }
    }

    /** Sets or clears one bit; an index out of range is ignored. */
    method Set(index: nat, enabled: bool)
      requires Valid()
      modifies words
      ensures Valid()
      ensures forall i: nat :: Has(i) <==> if i == index then enabled && index < bitCount else old(Has(i))
    {
      hide Pow2, Bit, And, Or, Changed, IsWord;
      if index >= bitCount { return; }
      var k, bit := index / WORD_BITS, index % WORD_BITS;
      ghost var before := words[..];
      var current := words[k];
      MaskTests(current, bit);
      if (And(current, Pow2(bit)) != 0) == enabled {
        return;
      }
      words[k] := Changed(current, bit, enabled);
      ChangedBit(current, bit, enabled, bit);
      WordChanged(before, words[..], index, enabled);
    }

    method Test(index: nat) returns (on: bool)
      requires Valid()
      ensures on == Has(index)
    {
      hide Pow2, Bit, And;
      if index >= bitCount { return false; }
      var k, bit := index / WORD_BITS, index % WORD_BITS;
      MaskTests(words[k], bit);
      on := And(words[k], Pow2(bit)) != 0;
    }

    /** The number of set bits below `limit`. */
    method CountSet(limit: nat) returns (total: nat)
      requires Valid()
      ensures total == |Chosen(Flags(words[..]), Least(limit, bitCount))|
    {
      hide Pow2, Bit, And, PopCount, Loaded, BitAt;
      var bound := Least(limit, bitCount);
      total := 0;
      var k := 0;
      while k < WordCount(bound)
        invariant k <= WordCount(bound)
        invariant total == |Chosen(Flags(words[..]), Least(k * WORD_BITS, bound))|
      {
        WordCounted(words[..], k, bound);
        total := total + PopCount(Loaded(words[k], k, bound));
        k := k + 1;
      }
    }

    /** The indices that `for_each_set` hands to its callback, in order. */
    method ForEachSet(limit: nat) returns (visited: seq<nat>)
      requires Valid()
      ensures visited == Chosen(Flags(words[..]), Least(limit, bitCount))
    {
      hide Pow2, Bit, And, Loaded, BitAt, Flags, LowestBit;
      var bound := Least(limit, bitCount);
      visited := [];
      var k := 0;
      while k < WordCount(bound)
        invariant k <= WordCount(bound)
        invariant visited == Chosen(Flags(words[..]), Least(k * WORD_BITS, bound))
      {
        var word := Loaded(words[k], k, bound);
        ghost var done := 0;
        while word != 0
          invariant k * WORD_BITS + done <= End(k, bound)
          invariant Left(words[..], k, bound, done, word)
          invariant visited == Chosen(Flags(words[..]), k * WORD_BITS + done)
          decreases word
        {
          var bit := LowestBit(word);
          TakeLowest(words[..], k, bound, done, word);
          visited := visited + [k * WORD_BITS + bit];
          word := And(word, word - 1);
          done := bit + 1;
        }
        WordExhausted(words[..], k, bound, done);
        k := k + 1;
      }
    }
  }
}
