/** Running sums of counts and running numbers of set bits. */
module Sums {

  /** The sum of the first `b` counts. */
  function Prefix(counts: seq<nat>, b: nat): nat
    requires b <= |counts|
  {
    if b == 0 then 0 else Prefix(counts, b - 1) + counts[b - 1]
  }

  /** How many of the first `i` bits are set. */
  function Marked(bits: seq<bool>, i: nat): nat
    requires i <= |bits|
  {
    if i == 0 then 0 else Marked(bits, i - 1) + if bits[i - 1] then 1 else 0
  }

  lemma {:induction false} PrefixGrows(counts: seq<nat>, a: nat, b: nat)
    requires a <= b <= |counts|
    ensures Prefix(counts, a) <= Prefix(counts, b)
    decreases b
  {
    if a < b {
      PrefixGrows(counts, a, b - 1);
    }
  }

  lemma {:induction false} MarkedGrows(bits: seq<bool>, i: nat, j: nat)
    requires i <= j <= |bits|
    ensures Marked(bits, i) <= Marked(bits, j) <= Marked(bits, i) + (j - i)
    decreases j
  {
    if i < j {
      MarkedGrows(bits, i, j - 1);
    }
  }

  /** The set bit with number `n`. */
  lemma {:induction false} Nth(bits: seq<bool>, end: nat, n: nat) returns (i: nat)
    requires end <= |bits| && n < Marked(bits, end)
    ensures i < end && bits[i] && Marked(bits, i) == n
    decreases end
  {
    i := end - 1;
    if !(bits[i] && Marked(bits, i) == n) {
      i := Nth(bits, end - 1, n);
    }
  }

  /** The interval of the running sums that holds a number is the only one. */
  lemma OneInterval(counts: seq<nat>, a: nat, b: nat, n: nat)
    requires a < |counts| && b < |counts|
    requires Prefix(counts, a) <= n < Prefix(counts, a + 1)
    requires Prefix(counts, b) <= n < Prefix(counts, b + 1)
    ensures a == b
  {
    if a < b {
      PrefixGrows(counts, a + 1, b);
    } else if b < a {
      PrefixGrows(counts, b + 1, a);
    }
  }

  /** The interval of the running sums that holds a number. */
  lemma {:induction false} IntervalOf(counts: seq<nat>, a: nat, b: nat, n: nat) returns (c: nat)
    requires a <= b <= |counts| && Prefix(counts, a) <= n < Prefix(counts, b)
    ensures a <= c < b && Prefix(counts, c) <= n < Prefix(counts, c + 1)
    decreases b
  {
    c := b - 1;
    if n < Prefix(counts, c) {
      c := IntervalOf(counts, a, b - 1, n);
    }
  }
}
