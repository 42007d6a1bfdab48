/** The packed record of one coder: inline when it fits in a few bytes, on the heap when it does not. */
module CoderStorage {
  import opened Common

  datatype Storage =
    | Inline(id: seq<Byte>, properties: seq<Byte>, descriptor: bv8)
    | Full(id: seq<Byte>, idSize: nat, counts: (nat, nat), heap: seq<Byte>)

  // The descriptor: four bits of ID length, three of property length, one for the stream counts.

  function IdBits(d: bv8): nat { (d & 15) as nat }

  function PropertyBits(d: bv8): nat { ((d >> 4) & 7) as nat }

  predicate ZeroCounts(d: bv8) { d & 0x80 != 0 }

  function Descriptor(idSize: nat, properties: nat, zero: bool): bv8
    requires idSize <= 15 && properties <= 7
  {
    (idSize as bv8) | ((properties as bv8) << 4) | (if zero then 0x80 else 0)
  }

  lemma DescriptorParts(idSize: bv8, properties: bv8, zero: bool)
    requires idSize <= 15 && properties <= 7
    ensures var d := idSize | (properties << 4) | (if zero then 0x80 else 0);
      d & 15 == idSize && (d >> 4) & 7 == properties && (d & 0x80 != 0 <==> zero)
  {
  }

  lemma DescriptorHolds(idSize: nat, properties: nat, zero: bool)
    requires idSize <= 15 && properties <= 7
    ensures var d := Descriptor(idSize, properties, zero);
      IdBits(d) == idSize && PropertyBits(d) == properties && (ZeroCounts(d) <==> zero)
  {
    DescriptorParts(idSize as bv8, properties as bv8, zero);
  }

  lemma SevenBits(x: bv8)
    ensures (x & 7) as nat <= 7
    ensures (x & 15) as nat <= 15
  {
  }

  predicate Sound(s: Storage) {
    match s
    case Inline(id, properties, d) => |id| == 15 && |properties| == 7
    case Full(id, idSize, _, _) => |id| == 15 && idSize <= 15
  }

  function IdOf(s: Storage): seq<Byte>
    requires Sound(s)
  {
    match s
    case Inline(id, _, d) =>
      SevenBits(d);
      id[..IdBits(d)]
    case Full(id, idSize, _, _) => id[..idSize]
  }

  function PropertiesOf(s: Storage): seq<Byte>
    requires Sound(s)
  {
    match s
    case Inline(_, properties, d) =>
      SevenBits(d >> 4);
      properties[..PropertyBits(d)]
    case Full(_, _, _, properties) => properties
  }

  function CountsOf(s: Storage): (nat, nat) {
    match s
    case Inline(_, _, d) => if ZeroCounts(d) then (0, 0) else (1, 1)
    case Full(_, _, counts, _) => counts
  }

  /** Inline storage is used exactly for the records that fit it. */
  predicate Fits(s: Storage)
    requires Sound(s)
  {
    |PropertiesOf(s)| <= 7 && CountsOf(s) in {(0, 0), (1, 1)}
  }

  function Filled(bytes: seq<Byte>, size: nat): (r: seq<Byte>)
    requires |bytes| <= size
    ensures |r| == size && r[..|bytes|] == bytes
  {
    bytes + seq(size - |bytes|, _ => 0)
  }

  class Coder {
    var storage: Storage

    ghost predicate Valid()
      reads this
    {
      Sound(storage) && (storage.Inline? <==> Fits(storage))
    }

    function Id(): seq<Byte>
      reads this
      requires Sound(storage)
    {
      IdOf(storage)
    }

    function Properties(): seq<Byte>
      reads this
      requires Sound(storage)
    {
      PropertiesOf(storage)
    }

    function Counts(): (nat, nat)
      reads this
    {
      CountsOf(storage)
    }

    /** One input, one output, no method ID and no properties. */
    constructor ()
      ensures Valid() && Id() == [] && Properties() == [] && Counts() == (1, 1)
    {
      storage := Inline(seq(15, _ => 0), seq(7, _ => 0), 0);
    }

    method Promote()
      modifies this
      requires Sound(storage)
      ensures Sound(storage) && storage.Full? && storage.id == old(storage.id)
      ensures Id() == old(Id()) && Properties() == old(Properties()) && Counts() == old(Counts())
    {
      if storage.Inline? {
        var d := storage.descriptor;
        SevenBits(d);
        SevenBits(d >> 4);
        storage := Full(storage.id, IdBits(d), if ZeroCounts(d) then (0, 0) else (1, 1), storage.properties[..PropertyBits(d)]);
      }
    }

    method Compact()
      modifies this
      requires Sound(storage)
      ensures Sound(storage) && storage.id == old(storage.id)
      ensures old(storage.Full?) ==> Valid()
      ensures Id() == old(Id()) && Properties() == old(Properties()) && Counts() == old(Counts())
    {
      if storage.Full? && |storage.heap| <= 7 && storage.counts in {(0, 0), (1, 1)} {
        var zero := storage.counts == (0, 0);
        DescriptorHolds(storage.idSize, |storage.heap|, zero);
        storage := Inline(storage.id, Filled(storage.heap, 7), Descriptor(storage.idSize, |storage.heap|, zero));
      }
    }

    method SetStreamCounts(input: nat, output: nat)
      modifies this
      requires Valid()
      ensures Valid() && Counts() == (input, output) && Id() == old(Id()) && Properties() == old(Properties())
    {
      if storage.Inline? && (input, output) in {(0, 0), (1, 1)} {
        var d := storage.descriptor;
        CountBitSet(d, input == 0);
        storage := storage.(descriptor := (d & 0x7f) | if input == 0 then 0x80 else 0);
        return;
      }
      Promote();
      storage := storage.(counts := (input, output));
      Compact();
    }

    /** The ID keeps its bytes and shows the first `size` of the fifteen it has room for. */
    method SetIdSize(size: nat)
      modifies this
      requires Valid() && size <= 15
      ensures Valid() && |Id()| == size && Counts() == old(Counts()) && Properties() == old(Properties())
      ensures storage.id == old(storage.id) && Id() == storage.id[..size]
    {
      if storage.Inline? {
        var d := storage.descriptor;
        IdBitsSet(d, size as bv8);
        storage := storage.(descriptor := (d & 0xf0) | (size as bv8));
      } else {
        storage := storage.(idSize := size);
      }
    }

    method SetId(id: seq<Byte>)
      modifies this
      requires Valid() && |id| == |Id()| && |id| <= 15
      ensures Valid() && Id() == id && Counts() == old(Counts()) && Properties() == old(Properties())
      ensures storage.id[|id|..] == old(storage.id[|id|..])
    {
      storage := storage.(id := id + storage.id[|id|..]);
    }

    method SetProperties(properties: seq<Byte>)
      modifies this
      requires Valid()
      ensures Valid() && Properties() == properties && Id() == old(Id()) && Counts() == old(Counts())
    {
      if storage.Inline? && |properties| <= 7 {
        var d := storage.descriptor;
        PropertyBitsSet(d, |properties| as bv8);
        storage := storage.(properties := Filled(properties, 7), descriptor := (d & 0x8f) | ((|properties| as bv8) << 4));
        return;
      }
      Promote();
      storage := storage.(heap := properties);
      Compact();
    }
  }

  // Each field of the descriptor is written without touching the other two.

  lemma CountBitSet(d: bv8, zero: bool)
    ensures var e := (d & 0x7f) | if zero then 0x80 else 0;
      e & 15 == d & 15 && (e >> 4) & 7 == (d >> 4) & 7 && (e & 0x80 != 0 <==> zero)
  {
  }

  lemma IdBitsSet(d: bv8, size: bv8)
    requires size <= 15
    ensures var e := (d & 0xf0) | size;
      e & 15 == size && (e >> 4) & 7 == (d >> 4) & 7 && (e & 0x80 != 0 <==> d & 0x80 != 0)
  {
  }

  lemma PropertyBitsSet(d: bv8, size: bv8)
    requires size <= 7
    ensures var e := (d & 0x8f) | (size << 4);
      e & 15 == d & 15 && (e >> 4) & 7 == size && (e & 0x80 != 0 <==> d & 0x80 != 0)
  {
  }
}
