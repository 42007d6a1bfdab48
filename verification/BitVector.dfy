/** The set of indices kept as 64-bit words, and its form in a header: one bit each, highest first, in whole bytes. */
module BitVector {
  import opened Common

  const USIZE_BITS: nat := 64

  // ------------------------------------------------- bits of a word

  function Pow2(n: nat): (r: nat)
    ensures r >= 1
  {
    if n == 0 then 1 else 2 * Pow2(n - 1)
  }

  predicate IsWord(w: nat) { w < Pow2(USIZE_BITS) }

  /** `w & (1 << q) != 0`. */
  predicate WordBit(w: nat, q: nat) {
    if q == 0 then w % 2 == 1 else WordBit(w / 2, q - 1)
  }

  /** `w | (1 << q)`, bit by bit. */
  function WithBit(w: nat, q: nat): nat {
    if q == 0 then (if w % 2 == 1 then w else w + 1) else 2 * WithBit(w / 2, q - 1) + w % 2
  }

  /** `w & !(1 << q)`, bit by bit. */
  function WithoutBit(w: nat, q: nat): nat {
    if q == 0 then (if w % 2 == 1 then w - 1 else w) else 2 * WithoutBit(w / 2, q - 1) + w % 2
  }

  lemma {:induction false} WordSet(w: nat, p: nat, q: nat)
    ensures WordBit(WithBit(w, p), q) <==> p == q || WordBit(w, q)
  {
    if p > 0 {
      assert WithBit(w, p) / 2 == WithBit(w / 2, p - 1);
      if q > 0 {
        WordSet(w / 2, p - 1, q - 1);
      }
    } else {
      assert WithBit(w, p) / 2 == w / 2;
    }
  }

  lemma {:induction false} WordCleared(w: nat, p: nat, q: nat)
    ensures WordBit(WithoutBit(w, p), q) <==> p != q && WordBit(w, q)
  {
    if p > 0 {
      assert WithoutBit(w, p) / 2 == WithoutBit(w / 2, p - 1);
      if q > 0 {
        WordCleared(w / 2, p - 1, q - 1);
      }
    } else {
      assert WithoutBit(w, p) / 2 == w / 2;
    }
  }

  /** Neither operation leaves the width of the word. */
  lemma {:induction false} StaysWord(w: nat, p: nat, n: nat)
    requires w < Pow2(n) && p < n
    ensures WithBit(w, p) < Pow2(n) && WithoutBit(w, p) < Pow2(n)
  {
    if p > 0 {
      StaysWord(w / 2, p - 1, n - 1);
    }
  }

  lemma {:induction false} NoBitInZero(q: nat)
    ensures !WordBit(0, q)
  {
    if q > 0 {
      NoBitInZero(q - 1);
    }
  }

  predicate Bit(words: seq<nat>, i: nat) {
    i / USIZE_BITS < |words| && WordBit(words[i / USIZE_BITS], i % USIZE_BITS)
  }

  lemma BitSetTo(words: seq<nat>, i: nat, j: nat)
    requires i / USIZE_BITS < |words|
    ensures var k := i / USIZE_BITS; Bit(words[k := WithBit(words[k], i % USIZE_BITS)], j) <==> i == j || Bit(words, j)
  {
    if j / USIZE_BITS == i / USIZE_BITS {
      WordSet(words[i / USIZE_BITS], i % USIZE_BITS, j % USIZE_BITS);
    }
  }

  lemma BitClearedTo(words: seq<nat>, i: nat, j: nat)
    requires i / USIZE_BITS < |words|
    ensures var k := i / USIZE_BITS; Bit(words[k := WithoutBit(words[k], i % USIZE_BITS)], j) <==> i != j && Bit(words, j)
  {
    if j / USIZE_BITS == i / USIZE_BITS {
      WordCleared(words[i / USIZE_BITS], i % USIZE_BITS, j % USIZE_BITS);
    }
  }

  function BlocksForBits(bits: nat): nat {
    if bits == 0 then 0 else (bits - 1) / USIZE_BITS + 1
  }

  lemma BlocksHold(bits: nat, i: nat)
    requires i < bits
    ensures i / USIZE_BITS < BlocksForBits(bits)
  {
  }

  lemma BlocksGrow(a: nat, b: nat)
    requires a <= b
    ensures BlocksForBits(a) <= BlocksForBits(b)
  {
  }

  function Longer(words: seq<nat>, n: nat): (r: seq<nat>)
    requires |words| <= n
    ensures |r| == n && (forall k :: 0 <= k < n ==> r[k] == if k < |words| then words[k] else 0)
    ensures forall i: nat :: Bit(r, i) <==> Bit(words, i)
  {
    var r := words + seq(n - |words|, _ => 0);
    assert forall i: nat :: Bit(r, i) <==> Bit(words, i) by {
      forall i: nat ensures Bit(r, i) <==> Bit(words, i) {
        if |words| <= i / USIZE_BITS < n {
          NoBitInZero(i % USIZE_BITS);
        }
      }
    }
    r
  }

  // ------------------------------------------------- counting

  /** How many of a word's lowest `k` bits are set; all 64 of them are what the processor counts. */
  function Ones(w: nat, k: nat): nat
    requires k <= USIZE_BITS
  {
    if k == 0 then 0 else Ones(w, k - 1) + if WordBit(w, k - 1) then 1 else 0
  }

  function CountTo(words: seq<nat>, n: nat): nat {
    if n == 0 then 0 else CountTo(words, n - 1) + if Bit(words, n - 1) then 1 else 0
  }

  lemma {:induction false} WordCounts(words: seq<nat>, k: nat, j: nat)
    requires k < |words| && j <= USIZE_BITS
    ensures CountTo(words, USIZE_BITS * k + j) == CountTo(words, USIZE_BITS * k) + Ones(words[k], j)
  {
    if j > 0 {
      WordCounts(words, k, j - 1);
      var i := USIZE_BITS * k + (j - 1);
      assert i / USIZE_BITS == k && i % USIZE_BITS == j - 1;
    }
  }

  ghost function Below(words: seq<nat>, n: nat): set<nat> {
    set i: nat | i < n && Bit(words, i)
  }

  lemma {:induction false} CountIsCardinality(words: seq<nat>, n: nat)
    ensures |Below(words, n)| == CountTo(words, n)
  {
    if n > 0 {
      CountIsCardinality(words, n - 1);
      if Bit(words, n - 1) {
        assert Below(words, n) == Below(words, n - 1) + {n - 1};
      } else {
        assert Below(words, n) == Below(words, n - 1);
      }
    } else {
      assert Below(words, 0) == {};
    }
  }

  // ------------------------------------------------- the set

  class BitSet {
    var bits: seq<nat>
    var bitCount: nat

    /** As many words as the bits need, and no bit set past them. */
    ghost predicate Valid()
      reads this
    {
      && |bits| == BlocksForBits(bitCount) && (forall k :: 0 <= k < |bits| ==> IsWord(bits[k]))
      && forall i: nat :: Bit(bits, i) ==> i < bitCount
    }

    ghost function Members(): set<nat>
      reads this
    {
      Below(bits, bitCount)
    }

    constructor ()
      ensures Valid() && Members() == {} && bitCount == 0
    {
      bits, bitCount := [], 0;
    }

    constructor WithCapacity(count: nat)
      ensures Valid() && Members() == {} && bitCount == count
    {
      bits, bitCount := Longer([], BlocksForBits(count)), count;
    }

    method Len() returns (n: nat)
      requires Valid()
      ensures n == |Members()|
    {
      n := 0;
      for k := 0 to |bits|
        invariant n == CountTo(bits, USIZE_BITS * k)
      {
        WordCounts(bits, k, USIZE_BITS);
        n := n + Ones(bits[k], USIZE_BITS);
      }
      CountIsCardinality(bits, USIZE_BITS * |bits|);
      assert Below(bits, USIZE_BITS * |bits|) == Members() by {
        forall i: nat ensures i in Below(bits, USIZE_BITS * |bits|) <==> i in Members() {
        }
      }
    }

    predicate Contains(value: nat)
      reads this
    {
      value < bitCount && value / USIZE_BITS < |bits| && WordBit(bits[value / USIZE_BITS], value % USIZE_BITS)
    }

    /** Adds a value, growing to hold it; false when it was there. */
    method Insert(value: nat) returns (added: bool)
      requires Valid()
      modifies this
      ensures Valid() && added == (value !in old(Members()))
      ensures Members() == old(Members()) + {value}
      ensures bitCount == if value < old(bitCount) then old(bitCount) else value + 1
    {
      if Contains(value) {
        return false;
      }
      if value >= bitCount {
        Grow(value + 1);
      }
      SetBit(value);
      added := true;
    }

    method SetBit(value: nat)
      requires Valid() && value < bitCount
      modifies this`bits
      ensures Valid() && Members() == old(Members()) + {value}
    {
      BlocksHold(bitCount, value);
      var k := value / USIZE_BITS;
      ghost var before := bits;
      StaysWord(bits[k], value % USIZE_BITS, USIZE_BITS);
      bits := bits[k := WithBit(bits[k], value % USIZE_BITS)];
      forall j: nat ensures Bit(bits, j) <==> j == value || Bit(before, j) {
        BitSetTo(before, value, j);
      }
    }

    /** Takes a value out; false when it was not there. */
    method Remove(value: nat) returns (removed: bool)
      requires Valid()
      modifies this
      ensures Valid() && removed == (value in old(Members()))
      ensures Members() == old(Members()) - {value} && bitCount == old(bitCount)
    {
      if !Contains(value) {
        return false;
      }
      var k := value / USIZE_BITS;
      ghost var before := bits;
      StaysWord(bits[k], value % USIZE_BITS, USIZE_BITS);
      bits := bits[k := WithoutBit(bits[k], value % USIZE_BITS)];
      forall j: nat ensures Bit(bits, j) <==> j != value && Bit(before, j) {
        BitClearedTo(before, value, j);
      }
      removed := true;
    }

    method Grow(newLen: nat)
      requires Valid()
      modifies this
      ensures Valid() && Members() == old(Members()) && bitCount == if newLen <= old(bitCount) then old(bitCount) else newLen
      ensures forall j: nat :: Bit(bits, j) <==> old(Bit(bits, j))
    {
      if newLen <= bitCount {
        return;
      }
      BlocksGrow(bitCount, newLen);
      bits := Longer(bits, BlocksForBits(newLen));
      bitCount := newLen;
    }

    /** Room for `count` values; the set stays as it is. */
    method ReserveLenExact(count: nat)
      requires Valid()
      modifies this
      ensures Valid() && Members() == old(Members()) && bitCount == if count > old(bitCount) then count else old(bitCount)
    {
      if count > bitCount {
        Grow(count);
      }
    }
  }

  // ------------------------------------------------- the form in a header

  /** The bit of a byte at place `q`, the highest first: `b & (0x80 >> q) != 0`. */
  predicate ByteBit(b: nat, q: nat)
    requires q < 8
  {
    WordBit(b, 7 - q)
  }

  function CeilBytes(n: nat): nat { (n + 7) / 8 }

  predicate PackedBit(bytes: seq<Octet>, i: nat) {
    i / 8 < |bytes| && ByteBit(bytes[i / 8], i % 8)
  }

  /** The set as `n` bits: as many whole bytes as they need, and zeros after the last. */
  ghost predicate Packs(bytes: seq<Octet>, n: nat, set_: set<nat>) {
    && |bytes| == CeilBytes(n)
    && forall i: nat :: i < 8 * |bytes| ==> (PackedBit(bytes, i) <==> i in set_ && i < n)
  }

  lemma BitsOfLast(bytes: seq<Octet>, c: Octet, i: nat)
    ensures PackedBit(bytes + [c], i) <==> if i / 8 == |bytes| then ByteBit(c, i % 8) else PackedBit(bytes, i)
  {
  }

  /** The byte being filled has the bits of the last indices before `i`, and none after. */
  ghost predicate Filling(cache: nat, i: nat, set_: set<nat>) {
    forall q: nat :: q < 8 ==> (ByteBit(cache, q) <==> q < i % 8 && i - i % 8 + q in set_)
  }

  /** The bytes written before index `i`, and the one being filled. */
  ghost predicate Writing(bytes: seq<Octet>, cache: nat, i: nat, set_: set<nat>) {
    && |bytes| == i / 8 && cache < 256 && Filling(cache, i, set_)
    && forall j: nat :: j < 8 * |bytes| ==> (PackedBit(bytes, j) <==> j in set_)
  }

  lemma NothingFilled(i: nat, set_: set<nat>)
    requires i % 8 == 0
    ensures Filling(0, i, set_)
  {
    forall q: nat | q < 8 ensures !ByteBit(0, q) {
      NoBitInZero(7 - q);
    }
  }

  /** The next bit put in the byte being filled. */
  lemma BitFilled(cache: nat, i: nat, set_: set<nat>, has: bool)
    requires cache < 256 && Filling(cache, i, set_) && has == (i in set_)
    ensures var next := if has then WithBit(cache, 7 - i % 8) else cache;
      && next < 256 && forall q: nat :: q < 8 ==> (ByteBit(next, q) <==> q <= i % 8 && i - i % 8 + q in set_)
  {
    var next := if has then WithBit(cache, 7 - i % 8) else cache;
    assert Pow2(8) == 256;
    StaysWord(cache, 7 - i % 8, 8);
    forall q: nat | q < 8 ensures ByteBit(next, q) <==> q <= i % 8 && i - i % 8 + q in set_ {
      WordSet(cache, 7 - i % 8, 7 - q);
      assert ByteBit(cache, q) <==> q < i % 8 && i - i % 8 + q in set_;
    }
  }

  lemma ByteComplete(bytes: seq<Octet>, cache: Octet, i: nat, set_: set<nat>)
    requires i % 8 == 7 && |bytes| == i / 8
    requires forall q: nat :: q < 8 ==> (ByteBit(cache, q) <==> q <= i % 8 && i - i % 8 + q in set_)
    requires forall j: nat :: j < 8 * |bytes| ==> (PackedBit(bytes, j) <==> j in set_)
    ensures Writing(bytes + [cache], 0, i + 1, set_)
  {
    NothingFilled(i + 1, set_);
    forall j: nat | j < 8 * (|bytes| + 1) ensures PackedBit(bytes + [cache], j) <==> j in set_ {
      BitsOfLast(bytes, cache, j);
    }
  }

  /** The next bit, and the byte with it when it was its last. */
  lemma BitWritten(bytes: seq<Octet>, cache: Octet, i: nat, set_: set<nat>, has: bool)
    requires Writing(bytes, cache, i, set_) && has == (i in set_)
    ensures var next := if has then WithBit(cache, 7 - i % 8) else cache;
      next < 256 && if i % 8 == 7 then Writing(bytes + [next], 0, i + 1, set_) else Writing(bytes, next, i + 1, set_)
  {
    BitFilled(cache, i, set_, has);
    if i % 8 == 7 {
      ByteComplete(bytes, if has then WithBit(cache, 7 - i % 8) else cache, i, set_);
    }
  }

  lemma ByteCut(bytes: seq<Octet>, cache: Octet, n: nat, set_: set<nat>)
    requires n % 8 > 0 && Writing(bytes, cache, n, set_)
    ensures Packs(bytes + [cache], n, set_)
  {
    forall j: nat | j < 8 * (|bytes| + 1) ensures PackedBit(bytes + [cache], j) <==> j in set_ && j < n {
      BitsOfLast(bytes, cache, j);
    }
  }

  /** The next bit written; the byte is out once its last bit is in. */
  method WriteBit(bytes: seq<Octet>, cache: Octet, shift: int, has: bool, ghost i: nat, ghost set_: set<nat>)
    returns (out: seq<Octet>, next: Octet, left: int)
    requires Writing(bytes, cache, i, set_) && shift == 7 - i % 8 && has == (i in set_)
    ensures Writing(out, next, i + 1, set_) && left == 7 - (i + 1) % 8
  {
    BitWritten(bytes, cache, i, set_, has);
    out, next, left := bytes, cache, shift - 1;
    if has {
      next := WithBit(cache, shift);
    }
    if left < 0 {
      out, next, left := bytes + [next], 0, 7;
    }
  }

  /** One bit for each index below the bit count, the highest bit of each byte first. */
  method WriteBitSet(bs: BitSet) returns (bytes: seq<Octet>)
    requires bs.Valid()
    ensures Packs(bytes, bs.bitCount, bs.Members())
  {
    bytes := [];
    var cache: Octet, shift: int := 0, 7;
    ghost var members := bs.Members();
    NothingFilled(0, members);
    for i := 0 to bs.bitCount
      invariant shift == 7 - i % 8 && Writing(bytes, cache, i, members)
    {
      bytes, cache, shift := WriteBit(bytes, cache, shift, bs.Contains(i), i, members);
    }
    if shift != 7 {
      ByteCut(bytes, cache, bs.bitCount, members);
      bytes := bytes + [cache];
    }
  }

  /** Where a reader stands before index `i`: the number of the next bit in the byte at hand, or below zero. */
  ghost predicate ReadingAt(bytes: seq<Octet>, i: nat, mask: int, cache: Octet, used: nat) {
    && used == CeilBytes(i) <= |bytes|
    && if i % 8 == 0 then mask == -1 else mask == 7 - i % 8 && cache == bytes[i / 8]
  }

  /** The next bit, its byte fetched when it is the byte's first. */
  method ReadBit(bytes: seq<Octet>, mask: int, cache: Octet, used: nat, ghost i: nat)
    returns (ok: bool, has: bool, nextMask: int, nextCache: Octet, nextUsed: nat)
    requires ReadingAt(bytes, i, mask, cache, used)
    ensures ok <==> CeilBytes(i + 1) <= |bytes|
    ensures ok ==> ReadingAt(bytes, i + 1, nextMask, nextCache, nextUsed) && has == PackedBit(bytes, i)
  {
    nextMask, nextCache, nextUsed := mask, cache, used;
    if nextMask < 0 {
      if used == |bytes| {
        return false, false, nextMask, nextCache, nextUsed;
      }
      nextMask, nextCache, nextUsed := 7, bytes[used], used + 1;
    }
    has := WordBit(nextCache, nextMask);
    nextMask := nextMask - 1;
    ok := true;
  }

  /**
   Reads `size` bits, a byte at a time; nothing when the bytes run out. The mask
   that moves down a byte is kept as the number of the bit it has, below zero
   once it has none.
   */
  method ReadBits(bytes: seq<Octet>, size: nat) returns (r: BitSet?, used: nat)
    ensures r == null <==> |bytes| < CeilBytes(size)
    ensures r != null ==> r.Valid() && r.bitCount == size && used == CeilBytes(size)
    ensures r != null ==> forall i: nat :: i in r.Members() <==> i < size && PackedBit(bytes, i)
  {
    var bits := new BitSet.WithCapacity(size);
    var mask: int, cache: Octet := -1, 0;
    used := 0;
    for i := 0 to size
      invariant bits.Valid() && bits.bitCount == size && ReadingAt(bytes, i, mask, cache, used)
      invariant forall j: nat :: j in bits.Members() <==> j < i && PackedBit(bytes, j)
    {
      var ok, has;
      ok, has, mask, cache, used := ReadBit(bytes, mask, cache, used, i);
      if !ok {
        return null, used;
      }
      if has {
        var _ := bits.Insert(i);
      }
    }
    r := bits;
  }

  /** A written set is read back as it was, from exactly its own bytes, whatever follows them. */
  method RoundTrip(bs: BitSet, rest: seq<Octet>) returns (back: BitSet?, used: nat)
    requires bs.Valid()
    ensures back != null && back.Valid() && back.bitCount == bs.bitCount && back.Members() == bs.Members()
    ensures used == (bs.bitCount + 7) / 8
  {
    var bytes := WriteBitSet(bs);
    back, used := ReadBits(bytes + rest, bs.bitCount);
    forall i: nat | i < bs.bitCount ensures PackedBit(bytes + rest, i) <==> i in bs.Members() {
      assert (bytes + rest)[i / 8] == bytes[i / 8];
    }
    assert forall i: nat :: i in bs.Members() ==> i < bs.bitCount;
    assert back.Members() == bs.Members();
  }
}
