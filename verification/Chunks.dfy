/**
  The chunk object and the sparse offset codec shared by the wire format and
  the store.
 */
module Chunks {
  import opened Bits
  import opened Life

  // ----- The codec as functions -----

  /** One cell set. */
  function Mark(rows: Rows, x: nat, y: nat): (r: Rows)
    requires x < 64 && y < 64
    ensures forall a: nat, b: nat :: b < 64 ==> (Lit(r, a, b) <==> Lit(rows, a, b) || (a == x && b == y))
  {
    rows[y := SetBit(rows[y], x)]
  }

  /** The offsets of one word, lowest bit first. */
  function EncodeWord(row: uint64, y: nat): seq<uint16>
    requires y < 64
    decreases OnesCount(row)
  {
    if row == 0 then []
    else
      var x := TrailingZeros(row);
      ClearBitCount(row, x);
      [64 * y + x] + EncodeWord(ClearBit(row, x), y)
  }

  function EncodeFrom(rows: Rows, y: nat): seq<uint16>
    requires y <= 64
    decreases 64 - y
  {
    if y == 64 then [] else EncodeWord(rows[y], y) + EncodeFrom(rows, y + 1)
  }

  /** RowsToOffsets: `y*64 + x` for every live cell. */
  function Encode(rows: Rows): seq<uint16>
  {
    EncodeFrom(rows, 0)
  }

  /** OffsetsToRows: offsets beyond the chunk are dropped. */
  function Decode(offsets: seq<uint16>): (r: Rows)
    ensures forall x: nat, y: nat :: x < 64 && y < 64 ==> (Lit(r, x, y) <==> (64 * y + x) in offsets)
  {
    if |offsets| == 0 then
      NoRowsDark();
      NO_ROWS
    else
      var n := |offsets| - 1;
      assert offsets == offsets[..n] + [offsets[n]];
      DecodeOne(Decode(offsets[..n]), offsets[n])
  }

  function DecodeOne(rows: Rows, off: uint16): Rows
  {
    if off / 64 < 64 then Mark(rows, off % 64, off / 64) else rows
  }

  function Population(rows: Rows, n: nat): nat
    requires n <= 64
  {
    if n == 0 then 0 else Population(rows, n - 1) + OnesCount(rows[n - 1])
  }

  ghost predicate Increasing(s: seq<uint16>)
  {
    forall i, j :: 0 <= i < j < |s| ==> s[i] < s[j]
  }

  // ----- What the codec means -----

  lemma {:induction false} EncodeWordMeaning(row: uint64, y: nat)
    requires y < 64
    ensures Increasing(EncodeWord(row, y)) && |EncodeWord(row, y)| == OnesCount(row)
    ensures forall v: uint16 :: v in EncodeWord(row, y) <==> v / 64 == y && Bit(row, v % 64)
    decreases OnesCount(row)
  {
    hide Bit, ClearBit, TrailingZeros;
    OnesCountZero(row);
    var e := EncodeWord(row, y);
    if row == 0 {
      forall v: uint16
        ensures !Bit(0, v % 64)
      {
        BitOfZero(v % 64);
      }
    } else {
      var x := TrailingZeros(row);
      ClearBitCount(row, x);
      EncodeWordMeaning(ClearBit(row, x), y);
      var rest := EncodeWord(ClearBit(row, x), y);
      assert e == [64 * y + x] + rest;
      forall v: uint16 | v in rest
        ensures 64 * y + x < v
      {
        assert Bit(row, v % 64) && v % 64 != x;
      }
      forall v: uint16
        ensures v in e <==> v / 64 == y && Bit(row, v % 64)
      {
        assert v in e <==> v == 64 * y + x || v in rest;
        assert v / 64 == y ==> v == 64 * y + v % 64;
      }
      IncreasingJoin([64 * y + x], rest);
    }
  }

  lemma IncreasingJoin(a: seq<uint16>, b: seq<uint16>)
    requires Increasing(a) && Increasing(b)
    requires forall u, v :: u in a && v in b ==> u < v
    ensures Increasing(a + b)
  {
    var c := a + b;
    forall i, j | 0 <= i < j < |c|
      ensures c[i] < c[j]
    {
      if i < |a| <= j {
        assert c[i] in a && c[j] in b;
      }
    }
  }

  lemma {:induction false} EncodeFromMeaning(rows: Rows, y: nat)
    requires y <= 64
    ensures Increasing(EncodeFrom(rows, y))
    ensures |EncodeFrom(rows, y)| + Population(rows, y) == Population(rows, 64)
    ensures forall v: uint16 :: v in EncodeFrom(rows, y) <==> y <= v / 64 < 64 && Lit(rows, v % 64, v / 64)
    decreases 64 - y
  {
    hide Bit;
    if y < 64 {
      EncodeWordMeaning(rows[y], y);
      EncodeFromMeaning(rows, y + 1);
      IncreasingJoin(EncodeWord(rows[y], y), EncodeFrom(rows, y + 1));
    }
  }

  /** Encoding lists exactly the live cells, strictly increasing, below 4096, one
      entry per counted bit. */
  lemma EncodeMeaning(rows: Rows)
    ensures Increasing(Encode(rows))
    ensures |Encode(rows)| == Population(rows, 64)
    ensures forall v: uint16 :: v in Encode(rows) <==> v < 4096 && Lit(rows, v % 64, v / 64)
  {
    EncodeFromMeaning(rows, 0);
    assert forall v: uint16 :: v / 64 < 64 <==> v < 4096;
  }

  /** Decoding what was encoded gives the rows back. */
  lemma DecodeEncode(rows: Rows)
    ensures Decode(Encode(rows)) == rows
  {
    hide Decode, Encode;
    EncodeMeaning(rows);
    forall x: nat, y: nat | x < 64 && y < 64
      ensures Lit(Decode(Encode(rows)), x, y) <==> Lit(rows, x, y)
    {
      var v: uint16 := 64 * y + x;
      assert v % 64 == x && v / 64 == y;
    }
    RowsEqual(Decode(Encode(rows)), rows);
  }

  /** Re-encoding any list, duplicates and strays included, gives its distinct
      in-range values in increasing order. */
  lemma EncodeDecode(offsets: seq<uint16>)
    ensures var r := Encode(Decode(offsets));
      Increasing(r) && forall v: uint16 :: v in r <==> v in offsets && v < 4096
  {
    hide Bit, Decode, Encode;
    EncodeMeaning(Decode(offsets));
    forall v: uint16 | v < 4096
      ensures Lit(Decode(offsets), v % 64, v / 64) <==> v in offsets
    {
      assert 64 * (v / 64) + v % 64 == v;
    }
  }

  lemma HeadIn(s: seq<uint16>)
    ensures |s| > 0 ==> s[0] in s
  {
  }

  /** A strictly increasing list is fixed by its elements... */
  lemma {:induction false} IncreasingUnique(a: seq<uint16>, b: seq<uint16>)
    requires Increasing(a) && Increasing(b)
    requires forall v: uint16 :: v in a <==> v in b
    ensures a == b
  {
    HeadIn(a);
    HeadIn(b);
    if |a| == 0 || |b| == 0 {
    } else {
      assert a[0] in b && b[0] in a;
      assert a[0] == b[0];
      forall v: uint16
        ensures v in a[1..] <==> v in b[1..]
      {
        assert v in a <==> v == a[0] || v in a[1..];
        assert v in b <==> v == b[0] || v in b[1..];
        assert a[0] !in a[1..] && b[0] !in b[1..];
      }
      IncreasingUnique(a[1..], b[1..]);
    }
  }

  /** ...so the codec is also the identity on well-formed offset lists. */
  lemma EncodeDecodeCanonical(offsets: seq<uint16>)
    requires Increasing(offsets) && forall v :: v in offsets ==> v < 4096
    ensures Encode(Decode(offsets)) == offsets
  {
    EncodeDecode(offsets);
    IncreasingUnique(Encode(Decode(offsets)), offsets);
  }

  lemma {:induction false} PopulationZero(rows: Rows, n: nat)
    requires n <= 64
    ensures Population(rows, n) == 0 <==> forall y :: 0 <= y < n ==> rows[y] == 0
  {
    if n > 0 {
      PopulationZero(rows, n - 1);
      OnesCountZero(rows[n - 1]);
    }
  }

  /** PopCount() == 0 is the emptiness test hibernation relies on. */
  lemma EmptyIffNoPopulation(rows: Rows)
    ensures Population(rows, 64) == 0 <==> rows == NO_ROWS
  {
    PopulationZero(rows, 64);
    if Population(rows, 64) == 0 {
      assert forall y :: 0 <= y < 64 ==> rows[y] == NO_ROWS[y];
    }
  }

  // ----- The object -----

  class Chunk {
    const ID: ChunkID
    var rows: Rows

    constructor (id: ChunkID)
      ensures ID == id && rows == NO_ROWS
    {
      ID := id;
      rows := NO_ROWS;
    }

    method AddCell(x: uint8, y: uint8)
      modifies this
      ensures rows == if x < 64 && y < 64 then Mark(old(rows), x, y) else old(rows)
    {
      if x >= 64 || y >= 64 {
        return;
      }
      rows := rows[y := SetBit(rows[y], x)];
    }

    method RemoveCell(x: uint8, y: uint8)
      modifies this
      ensures forall a: nat, b: nat :: b < 64 ==>
          (Lit(rows, a, b) <==> Lit(old(rows), a, b) && !(a == x && b == y && x < 64))
    {
      if x >= 64 || y >= 64 {
        return;
      }
      rows := rows[y := ClearBit(rows[y], x)];
    }

    /** Go copies the array out. */
    method Rows() returns (r: Rows)
      ensures r == rows
    {
      r := rows;
    }

    method SetRows(r: Rows)
      modifies this
      ensures rows == r
    {
      rows := r;
    }

    method PopCount() returns (n: nat)
      ensures n == Population(rows, 64)
      ensures n == 0 <==> rows == NO_ROWS
    {
      n := 0;
      for y := 0 to 64
        invariant n == Population(rows, y)
      {
        n := n + OnesCount(rows[y]);
      }
      EmptyIffNoPopulation(rows);
    }

    method Snapshot() returns (out: seq<uint16>)
      ensures out == Encode(rows)
    {
      out := RowsToOffsets(rows);
    }
  }

  method RowsToOffsets(rows: Rows) returns (out: seq<uint16>)
    ensures out == Encode(rows)
  {
    out := [];
    for y := 0 to 64
      invariant out + EncodeFrom(rows, y) == Encode(rows)
    {
      var word := WordOffsets(rows[y], y);
      Regroup(out, word, EncodeFrom(rows, y + 1));
      out := out + word;
    }
  }

  lemma Regroup(a: seq<uint16>, b: seq<uint16>, c: seq<uint16>)
    ensures a + (b + c) == a + b + c
  {
  }

  /** The `for row != 0` loop of RowsToOffsets; it ends because each turn clears a bit. */
  method WordOffsets(word: uint64, y: nat) returns (out: seq<uint16>)
    requires y < 64
    ensures out == EncodeWord(word, y)
  {
    var row := word;
    out := [];
    while row != 0
      invariant out + EncodeWord(row, y) == EncodeWord(word, y)
      decreases OnesCount(row)
    {
      var x := TrailingZeros(row);
      ClearBitCount(row, x);
      Regroup(out, [64 * y + x], EncodeWord(ClearBit(row, x), y));
      row := ClearBit(row, x);
      out := out + [64 * y + x];
    }
  }

  method OffsetsToRows(offsets: seq<uint16>) returns (rows: Rows)
    ensures rows == Decode(offsets)
  {
    rows := NO_ROWS;
    for i := 0 to |offsets|
      invariant rows == Decode(offsets[..i])
    {
      var x := offsets[i] % 64;
      var y := offsets[i] / 64;
      assert offsets[..i + 1][..i] == offsets[..i];
      if y < 64 {
        rows := rows[y := SetBit(rows[y], x)];
      }
    }
    assert offsets[..|offsets|] == offsets;
  }
}
