/**
 How a block keeps its streams: one or two coders in a chain are stored as their
 output sizes alone, any other graph in full. The observers rebuild the bind
 pairs and packed streams from the form, and must show the same graph.
 */
module BlockStorage {
  import opened CoderGraph

  datatype Form =
    | Empty
    | Single(size: nat)
    | PairForward(first: nat, second: nat)
    | PairReverse(first: nat, second: nat)
    | Graph(totalIn: nat, totalOut: nat, binds: seq<BindPair>, packed: seq<nat>, sizes: seq<nat>)

  // What a form shows.

  function TotalInOf(f: Form): nat {
    match f
    case Empty => 0
    case Single(_) => 1
    case PairForward(_, _) => 2
    case PairReverse(_, _) => 2
    case Graph(totalIn, _, _, _, _) => totalIn
  }

  function TotalOutOf(f: Form): nat {
    match f
    case Empty => 0
    case Single(_) => 1
    case PairForward(_, _) => 2
    case PairReverse(_, _) => 2
    case Graph(_, totalOut, _, _, _) => totalOut
  }

  function BindsOf(f: Form): seq<BindPair> {
    match f
    case Empty => []
    case Single(_) => []
    case PairForward(_, _) => [BindPair(1, 0)]
    case PairReverse(_, _) => [BindPair(0, 1)]
    case Graph(_, _, binds, _, _) => binds
  }

  function PackedOf(f: Form): seq<nat> {
    match f
    case Empty => []
    case Single(_) => [0]
    case PairForward(_, _) => [0]
    case PairReverse(_, _) => [1]
    case Graph(_, _, _, packed, _) => packed
  }

  function SizesOf(f: Form): seq<nat> {
    match f
    case Empty => []
    case Single(size) => [size]
    case PairForward(first, second) => [first, second]
    case PairReverse(first, second) => [first, second]
    case Graph(_, _, _, _, sizes) => sizes
  }

  function Zeros(n: nat): (s: seq<nat>)
    ensures |s| == n && forall i :: 0 <= i < n ==> s[i] == 0
  {
    seq(n, _ => 0)
  }

  /** Two forms that no observer tells apart. */
  predicate ShowSame(f: Form, g: Form) {
    && TotalInOf(f) == TotalInOf(g) && TotalOutOf(f) == TotalOutOf(g)
    && BindsOf(f) == BindsOf(g) && PackedOf(f) == PackedOf(g) && SizesOf(f) == SizesOf(g)
  }

  /** The position of the first bind pair that takes output `c`. */
  function FindOut(binds: seq<BindPair>, c: nat): (r: int)
    ensures -1 <= r < |binds|
    ensures r >= 0 ==> binds[r].outIndex == c
    ensures forall i :: 0 <= i < (if r < 0 then |binds| else r) ==> binds[i].outIndex != c
  {
    if binds == [] then -1
    else if binds[0].outIndex == c then 0
    else
      var r := FindOut(binds[1..], c);
      assert forall i :: 1 <= i < |binds| ==> binds[i] == binds[1..][i - 1];
      if r < 0 then -1 else r + 1
  }

  ghost predicate Unbound(f: Form, c: nat) {
    c < TotalOutOf(f) && FindOut(BindsOf(f), c) < 0
  }

  class Streams {
    var form: Form

    /** A block starts without streams. */
    constructor ()
      ensures form == Empty
    {
      form := Empty;
    }

    /**
     Whichever form is picked shows the streams it was given; a compact form
     given no sizes yet shows zeros for them.
     */
    method SetStreams(totalIn: nat, totalOut: nat, binds: seq<BindPair>, packed: seq<nat>, sizes: seq<nat>)
      modifies this
      ensures TotalInOf(form) == totalIn && TotalOutOf(form) == totalOut
      ensures BindsOf(form) == binds && PackedOf(form) == packed
      ensures SizesOf(form) == if form.Graph? || sizes != [] then sizes else Zeros(totalOut)
    {
      var pair := totalIn == 2 && totalOut == 2 && |binds| == 1 && (sizes == [] || |sizes| == 2);
      var first := if |sizes| > 0 then sizes[0] else 0;
      var second := if |sizes| > 1 then sizes[1] else 0;
      if totalIn == 1 && totalOut == 1 && binds == [] && packed == [0] && |sizes| <= 1 {
        form := Single(first);
      } else if pair && binds[0].inIndex == 1 && binds[0].outIndex == 0 && packed == [0] {
        form := PairForward(first, second);
      } else if pair && binds[0].inIndex == 0 && binds[0].outIndex == 1 && packed == [1] {
        form := PairReverse(first, second);
      } else {
        form := Graph(totalIn, totalOut, binds, packed, sizes);
      }
    }

    /** Room for one size per output. */
    method PrepareUnpackSizes()
      modifies this
      ensures |SizesOf(form)| == TotalOutOf(form)
      ensures TotalInOf(form) == old(TotalInOf(form)) && TotalOutOf(form) == old(TotalOutOf(form))
      ensures BindsOf(form) == old(BindsOf(form)) && PackedOf(form) == old(PackedOf(form))
      ensures SizesOf(form) == if old(form.Graph?) then Zeros(TotalOutOf(form)) else old(SizesOf(form))
    {
      if form.Graph? {
        form := form.(sizes := Zeros(form.totalOut));
      }
    }

    method SetSize(i: nat, size: nat)
      modifies this
      requires i < |SizesOf(form)|
      ensures SizesOf(form) == old(SizesOf(form))[i := size]
      ensures TotalInOf(form) == old(TotalInOf(form)) && TotalOutOf(form) == old(TotalOutOf(form))
      ensures BindsOf(form) == old(BindsOf(form)) && PackedOf(form) == old(PackedOf(form))
    {
      match form
      case Empty =>
      case Single(_) => form := Single(size);
      case PairForward(first, second) => form := if i == 0 then PairForward(size, second) else PairForward(first, size);
      case PairReverse(first, second) => form := if i == 0 then PairReverse(size, second) else PairReverse(first, size);
      case Graph(_, _, _, _, sizes) => form := form.(sizes := sizes[i := size]);
    }

    /** The size at the highest output no bind pair takes; zero when they are all taken. */
    method GetUnpackSize() returns (size: nat)
      requires |SizesOf(form)| == TotalOutOf(form)
      ensures (exists c: nat :: Unbound(form, c)) ==>
        exists c: nat :: Unbound(form, c) && size == SizesOf(form)[c] && forall d: nat :: Unbound(form, d) ==> d <= c
      ensures (forall c: nat :: !Unbound(form, c)) ==> size == 0
    {
      var i := TotalOutOf(form);
      while i > 0
        invariant i <= TotalOutOf(form)
        invariant forall d: nat :: Unbound(form, d) ==> d < i
      {
        i := i - 1;
        if FindOut(BindsOf(form), i) < 0 {
          assert Unbound(form, i);
          return SizesOf(form)[i];
        }
      }
      size := 0;
    }

    /**
     What reading a header does to a block's streams. However the block ended
     up stored, it shows the full graph with the sizes the header lists.
     */
    method Read(totalIn: nat, totalOut: nat, binds: seq<BindPair>, packed: seq<nat>, listed: seq<nat>)
      modifies this
      requires |listed| == totalOut
      ensures ShowSame(form, Graph(totalIn, totalOut, binds, packed, listed))
    {
      SetStreams(totalIn, totalOut, binds, packed, []);
      PrepareUnpackSizes();
      for i := 0 to totalOut
        invariant TotalInOf(form) == totalIn && TotalOutOf(form) == totalOut
        invariant BindsOf(form) == binds && PackedOf(form) == packed && |SizesOf(form)| == totalOut
        invariant SizesOf(form)[..i] == listed[..i]
      {
        SetSize(i, listed[i]);
        assert SizesOf(form)[..i + 1] == SizesOf(form)[..i] + [listed[i]];
        assert listed[..i + 1] == listed[..i] + [listed[i]];
      }
      assert SizesOf(form)[..totalOut] == SizesOf(form) && listed[..totalOut] == listed;
    }
  }
}
