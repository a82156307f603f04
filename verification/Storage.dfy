/**
  The durable store: string keys, one offset-list record per chunk. Reads and
  writes may fail; the outcome is a parameter of the call.
 */
module Storage {
  import opened Bits
  import opened Life
  import opened Chunks

  datatype Record = Record(x: int, y: int, cells: seq<uint16>)

  datatype Loaded = LoadFailed | LoadedChunk(chunk: Chunk)

  // ----- chunkKey: "chunk:%d:%d" -----

  function Digit(d: nat): char
    requires d < 10
  {
    (d as char) + '0'
  }

  function Digits(n: nat): (s: string)
    ensures |s| > 0 && forall i :: 0 <= i < |s| ==> '0' <= s[i] <= '9'
  {
    if n < 10 then [Digit(n)] else Digits(n / 10) + [Digit(n % 10)]
  }

  function Decimal(n: int): string
  {
    if n < 0 then "-" + Digits(-n) else Digits(n)
  }

  function ChunkKey(id: ChunkID): string
  {
    "chunk:" + (Decimal(id.X) + (":" + Decimal(id.Y)))
  }

  lemma {:induction false} DigitsInjective(m: nat, n: nat)
    requires Digits(m) == Digits(n)
    ensures m == n
  {
    var s, t := Digits(m), Digits(n);
    assert s[|s| - 1] == Digit(m % 10) && t[|t| - 1] == Digit(n % 10);
    if m >= 10 && n >= 10 {
      assert s[..|s| - 1] == Digits(m / 10) && t[..|t| - 1] == Digits(n / 10);
      DigitsInjective(m / 10, n / 10);
    }
  }

  lemma DecimalInjective(m: int, n: int)
    requires Decimal(m) == Decimal(n)
    ensures m == n
  {
    assert m < 0 <==> Decimal(m)[0] == '-';
    assert n < 0 <==> Decimal(n)[0] == '-';
    if m < 0 {
      assert Decimal(m)[1..] == Digits(-m) && Decimal(n)[1..] == Digits(-n);
      DigitsInjective(-m, -n);
    } else {
      DigitsInjective(m, n);
    }
  }

  lemma DecimalLacks(n: int, mark: char)
    requires mark != '-' && !('0' <= mark <= '9')
    ensures forall i :: 0 <= i < |Decimal(n)| ==> Decimal(n)[i] != mark
  {
  }

  /** Text up to the first mark determines where it is. */
  lemma {:induction false} SplitAt(a: string, b: string, c: string, d: string, mark: char)
    requires a + ([mark] + b) == c + ([mark] + d)
    requires forall i :: 0 <= i < |a| ==> a[i] != mark
    requires forall i :: 0 <= i < |c| ==> c[i] != mark
    ensures a == c && b == d
  {
    var s, t := a + ([mark] + b), c + ([mark] + d);
    assert s[|a|] == mark && t[|c|] == mark;
    assert forall i :: 0 <= i < |a| ==> s[i] == a[i];
    assert forall i :: 0 <= i < |c| ==> t[i] == c[i];
    assert |a| == |c|;
    assert a == s[..|a|] && c == t[..|c|];
    assert b == s[|a| + 1..] && d == t[|c| + 1..];
  }

  /** Two chunks never share a key, whatever the signs of their coordinates. */
  lemma ChunkKeyInjective(a: ChunkID, b: ChunkID)
    requires ChunkKey(a) == ChunkKey(b)
    ensures a == b
  {
    var s, t := Decimal(a.X) + (":" + Decimal(a.Y)), Decimal(b.X) + (":" + Decimal(b.Y));
    assert ChunkKey(a)[6..] == s && ChunkKey(b)[6..] == t;
    DecimalLacks(a.X, ':');
    DecimalLacks(b.X, ':');
    SplitAt(Decimal(a.X), Decimal(a.Y), Decimal(b.X), Decimal(b.Y), ':');
    DecimalInjective(a.X, b.X);
    DecimalInjective(a.Y, b.Y);
  }

  // ----- Reading keys back -----

  function DigitsValue(s: string): int
  {
    if |s| == 0 then 0 else 10 * DigitsValue(s[..|s| - 1]) + (s[|s| - 1] as int - '0' as int)
  }

  /** What a decimal numeral stands for. */
  function IntValue(s: string): int
  {
    if |s| > 0 && s[0] == '-' then -DigitsValue(s[1..]) else DigitsValue(s)
  }

  lemma {:induction false} DigitsRead(n: nat)
    ensures DigitsValue(Digits(n)) == n
  {
    var s, last := Digits(n), Digit(n % 10);
    assert last as int - '0' as int == n % 10;
    if n >= 10 {
      DigitsRead(n / 10);
      assert s[..|s| - 1] == Digits(n / 10) && s[|s| - 1] == last;
    } else {
      assert s == [last] && DigitsValue(s[..0]) == 0;
    }
  }

  lemma DecimalReads(n: int)
    ensures IntValue(Decimal(n)) == n
  {
    if n < 0 {
      DigitsRead(-n);
      assert Decimal(n)[1..] == Digits(-n);
    } else {
      DigitsRead(n);
    }
    hide Digits, DigitsValue;
  }

  /** Where `mark` comes first; the length if it does not. */
  function IndexIn(s: string, mark: char): (i: nat)
    ensures i <= |s|
  {
    if |s| == 0 || s[0] == mark then 0 else 1 + IndexIn(s[1..], mark)
  }

  lemma {:induction false} IndexAfter(a: string, mark: char, b: string)
    requires forall i :: 0 <= i < |a| ==> a[i] != mark
    ensures IndexIn(a + ([mark] + b), mark) == |a|
  {
    var s := a + ([mark] + b);
    if |a| == 0 {
      assert s[0] == mark;
    } else {
      assert s[0] == a[0] && s[1..] == a[1..] + ([mark] + b);
      IndexAfter(a[1..], mark, b);
    }
  }

  /** Two numerals with a mark between them are read back, the first before the mark. */
  lemma PairReads(m: int, n: int, mark: char)
    requires mark != '-' && !('0' <= mark <= '9')
    ensures var s := Decimal(m) + ([mark] + Decimal(n));
      var i := IndexIn(s, mark);
      i < |s| && IntValue(s[..i]) == m && IntValue(s[i + 1..]) == n
  {
    var s := Decimal(m) + ([mark] + Decimal(n));
    DecimalLacks(m, mark);
    DecimalReads(m);
    DecimalReads(n);
    hide Decimal, IntValue, IndexIn;
    IndexAfter(Decimal(m), mark, Decimal(n));
    assert s[..|Decimal(m)|] == Decimal(m) && s[|Decimal(m)| + 1..] == Decimal(n);
  }

  /** A chunk's key reads "chunk:", its X, a colon, its Y. */
  lemma ChunkKeyReads(id: ChunkID)
    ensures var key := ChunkKey(id);
      && |key| >= 6 && key[..6] == "chunk:"
      && var i := IndexIn(key[6..], ':');
        6 + i < |key| && IntValue(key[6..][..i]) == id.X && IntValue(key[6..][i + 1..]) == id.Y
  {
    assert ChunkKey(id)[6..] == Decimal(id.X) + (":" + Decimal(id.Y));
    PairReads(id.X, id.Y, ':');
  }

  // ----- What a store holds for a chunk -----

  /** The rows a load of `id` yields; no record means an empty chunk. */
  function Hydrate(contents: map<ChunkID, Record>, id: ChunkID): Rows
  {
    if id in contents then Decode(contents[id].cells) else NO_ROWS
  }

  function Saved(id: ChunkID, rows: Rows): Record
  {
    Record(id.X, id.Y, Encode(rows))
  }

  /** Each record carries the coordinates it is filed under. */
  ghost predicate Filed(contents: map<ChunkID, Record>)
  {
    forall id :: id in contents ==> contents[id].x == id.X && contents[id].y == id.Y
  }

  /** Saving then loading gives the rows back and touches no other chunk. */
  lemma SaveThenLoad(contents: map<ChunkID, Record>, id: ChunkID, rows: Rows, other: ChunkID)
    ensures Hydrate(contents[id := Saved(id, rows)], other) == if other == id then rows else Hydrate(contents, other)
  {
    DecodeEncode(rows);
  }

  class RedisEngine {
    var data: map<string, Record>
    /** The same records by chunk. */
    ghost var contents: map<ChunkID, Record>

    ghost predicate Valid()
      reads this
    {
      && (forall id :: id in contents <==> ChunkKey(id) in data)
      && (forall id :: id in contents ==> data[ChunkKey(id)] == contents[id])
      && Filed(contents)
    }

    constructor ()
      ensures Valid() && contents == map[]
    {
      data := map[];
      contents := map[];
    }

    method SaveChunk(chunk: Chunk, fails: bool) returns (ok: bool)
      requires Valid()
      modifies this
      ensures Valid() && ok == !fails
      ensures contents == if fails then old(contents) else old(contents)[chunk.ID := Saved(chunk.ID, chunk.rows)]
    {
      var cells := chunk.Snapshot();
      var key := ChunkKey(chunk.ID);
      if fails {
        return false;
      }
      forall id | ChunkKey(id) == key
        ensures id == chunk.ID
      {
        ChunkKeyInjective(id, chunk.ID);
      }
      data := data[key := Record(chunk.ID.X, chunk.ID.Y, cells)];
      contents := contents[chunk.ID := Saved(chunk.ID, chunk.rows)];
      return true;
    }

    /** The new chunk takes its coordinates from the record, as the source does;
        that they are the requested ones follows from Filed. */
    method LoadChunk(id: ChunkID, fails: bool) returns (r: Loaded)
      requires Valid()
      ensures r.LoadFailed? <==> fails
      ensures r.LoadedChunk? ==> fresh(r.chunk) && r.chunk.ID == id && r.chunk.rows == Hydrate(contents, id)
    {
      var key := ChunkKey(id);
      if fails {
        return LoadFailed;
      }
      if key !in data {
        var blank := new Chunk(id);
        return LoadedChunk(blank);
      }
      var rec := data[key];
      var chunk := new Chunk(ChunkID(rec.x, rec.y));
      var rows := OffsetsToRows(rec.cells);
      chunk.SetRows(rows);
      return LoadedChunk(chunk);
    }
  }
}
