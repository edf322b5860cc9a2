/** The chained hash table of table.c. */
module Tables {

  /** Hashes are signed. */
  type Hash = int

  const INIT_SIZE: nat := 16

  /** Keys are compared by their hash alone. */
  datatype Entry = Entry(key: Hash, val: int)

  datatype Found = Absent | Present(val: int)

  /** A bucket is its head record, if any, and the records chained to it. */
  type Bucket = seq<Entry>

  /** The bitwise and of a number in two's complement and a mask. */
  function And(k: int, mask: nat): (r: nat)
    ensures r <= mask
    decreases mask
  {
    if mask == 0 then 0 else 2 * And(k / 2, mask / 2) + if k % 2 == 1 && mask % 2 == 1 then 1 else 0
  }

  /** The bucket of a key. */
  function Index(k: Hash, len: nat): (i: nat)
    requires len > 0
    ensures i < len
  {
    And(k, len - 1)
  }

  predicate PowerOfTwo(n: nat) {
    n == 1 || (n > 1 && n % 2 == 0 && PowerOfTwo(n / 2))
  }

  lemma {:induction false} MaskIsMod(k: Hash, len: nat)
    requires PowerOfTwo(len)
    ensures Index(k, len) == k % len
    decreases len
  {
    if len > 1 {
      var h := len / 2;
      MaskIsMod(k / 2, h);
      assert (len - 1) % 2 == 1 && (len - 1) / 2 == h - 1;
      HalfMod(k, h);
    }
  }

  lemma HalfMod(k: int, h: nat)
    requires h > 0
    ensures k % (2 * h) == k % 2 + 2 * (k / 2 % h)
  {
    var q := k / 2 / h;
    var r := k % 2 + 2 * (k / 2 % h);
    assert k / 2 == h * q + k / 2 % h;
    assert k == 2 * (h * q) + r;
    assert 2 * (h * q) == (2 * h) * q;
    Remainder(k, 2 * h, q, r);
  }

  lemma Remainder(k: int, n: nat, q: int, r: nat)
    requires k == n * q + r && r < n
    ensures k % n == r
  {
    var d := k / n - q;
    assert n * d == n * (k / n) - n * q == r - k % n;
    if d > 0 {
      Times(n, d);
      assert false;
    }
  }

  lemma {:induction false} Times(n: nat, d: nat)
    requires d > 0
    ensures n * d >= n
    decreases d
  {
    if d > 1 {
      Times(n, d - 1);
      assert n * d == n * (d - 1) + n;
    }
  }

  /** A number has no bit in common with its predecessor exactly if it is a power of two. */
  lemma {:induction false} OneBit(len: nat)
    requires len > 0
    ensures And(len, len - 1) == 0 <==> PowerOfTwo(len)
  {
    if len > 1 {
      if len % 2 == 0 {
        assert (len - 1) % 2 == 1 && (len - 1) / 2 == len / 2 - 1;
        OneBit(len / 2);
      } else {
        AndSelf(len / 2);
        assert (len - 1) / 2 == len / 2;
      }
    }
  }

  lemma {:induction false} AndSelf(n: nat)
    ensures And(n, n) == n
  {
    if n > 0 {
      AndSelf(n / 2);
    }
  }

  /** The mask picks the bucket by remainder, for every key, if and only if the length is a power
      of two. */
  lemma MaskExact(len: nat)
    requires len > 0
    ensures PowerOfTwo(len) <==> forall k: Hash :: Index(k, len) == k % len
  {
    if PowerOfTwo(len) {
      forall k: Hash ensures Index(k, len) == k % len {
        MaskIsMod(k, len);
      }
    } else {
      OneBit(len);
      assert Index(len, len) != len % len;
    }
  }

  // ------------------------------------------------------------ one bucket

  function Look(b: Bucket, k: Hash): Found {
    if b == [] then Absent else if b[0].key == k then Present(b[0].val) else Look(b[1..], k)
  }

  predicate DistinctKeys(b: Bucket) {
    forall i, j :: 0 <= i < j < |b| ==> b[i].key != b[j].key
  }

  /** `k` is the key of a head record with others chained to it. */
  predicate Heads(b: Bucket, k: Hash) {
    |b| > 1 && b[0].key == k
  }

  /** The place of `k` in a chain, or its length. */
  function Place(b: Bucket, k: Hash): (i: nat)
    ensures i <= |b| && (i < |b| ==> b[i].key == k) && forall j :: 0 <= j < i ==> b[j].key != k
  {
    if b == [] || b[0].key == k then 0 else 1 + Place(b[1..], k)
  }

  /** `insert_entry` on a bucket: an empty one or an equal head is replaced outright, chain
      included; a chained record gets the new value; a new one goes right behind the head. */
  function InsertInto(b: Bucket, e: Entry): Bucket {
    if b == [] || b[0].key == e.key then [e]
    else
      var i := Place(b, e.key);
      if i < |b| then b[i := Entry(b[i].key, e.val)] else [b[0], e] + b[1..]
  }

  lemma {:induction false} LookPlace(b: Bucket, k: Hash)
    ensures Look(b, k) == if Place(b, k) < |b| then Present(b[Place(b, k)].val) else Absent
  {
    if b != [] && b[0].key != k {
      LookPlace(b[1..], k);
    }
  }

  lemma InsertDistinct(b: Bucket, e: Entry)
    requires DistinctKeys(b)
    ensures DistinctKeys(InsertInto(b, e))
    ensures forall i :: 0 <= i < |InsertInto(b, e)| ==>
            InsertInto(b, e)[i] == e || exists j :: 0 <= j < |b| && b[j].key == InsertInto(b, e)[i].key
  {
    var c := InsertInto(b, e);
    forall i | 0 <= i < |c| ensures c[i] == e || exists j :: 0 <= j < |b| && b[j].key == c[i].key {
      if b != [] && b[0].key != e.key {
        var p := Place(b, e.key);
        if p < |b| {
          assert b[i].key == c[i].key;
        } else if i > 1 {
          assert c[i] == b[i - 1];
        } else if i == 0 {
          assert c[i] == b[0];
        }
      }
    }
  }

  lemma InsertLook(b: Bucket, e: Entry, k: Hash)
    requires DistinctKeys(b)
    ensures Look(InsertInto(b, e), k) == if k == e.key then Present(e.val) else if Heads(b, e.key) then Absent
            else Look(b, k)
  {
    LookPlace(b, k);
    LookPlace(InsertInto(b, e), k);
    var c, p := InsertInto(b, e), Place(b, k);
    if b == [] || b[0].key == e.key {
      assert c == [e];
    } else {
      var i := Place(b, e.key);
      if i < |b| {
        assert forall j :: 0 <= j < |b| ==> c[j].key == b[j].key;
        PlaceIs(c, k, p);
      } else if k == e.key {
        assert c[1] == e;
        PlaceIs(c, k, 1);
      } else if p == 0 {
        PlaceIs(c, k, 0);
      } else {
        assert forall j :: 1 <= j < |b| ==> c[j + 1] == b[j];
        assert forall j :: 0 <= j < p + 1 ==> c[j].key != k by {
          forall j | 0 <= j < p + 1 ensures c[j].key != k {
            if j > 1 {
              assert c[j] == b[j - 1];
            }
          }
        }
        PlaceIs(c, k, p + 1);
      }
    }
  }

  lemma {:induction false} PlaceIs(b: Bucket, k: Hash, i: nat)
    requires i <= |b| && (i < |b| ==> b[i].key == k) && forall j :: 0 <= j < i ==> b[j].key != k
    ensures Place(b, k) == i
  {
    if i > 0 {
      PlaceIs(b[1..], k, i - 1);
    }
  }

  // ------------------------------------------------------------- the table

  predicate GoodBucket(b: Bucket, i: nat, len: nat)
    requires len > 0
  {
    DistinctKeys(b) && forall j :: 0 <= j < |b| ==> Index(b[j].key, len) == i
  }

  predicate Good(bs: seq<Bucket>) {
    |bs| > 0 && forall i :: 0 <= i < |bs| ==> GoodBucket(bs[i], i, |bs|)
  }

  /** What `find_entry` answers. */
  function Find(bs: seq<Bucket>, k: Hash): Found
    requires |bs| > 0
  {
    Look(bs[Index(k, |bs|)], k)
  }

  function Insert(bs: seq<Bucket>, e: Entry): seq<Bucket>
    requires |bs| > 0
  {
    var i := Index(e.key, |bs|);
    bs[i := InsertInto(bs[i], e)]
  }

  lemma InsertGood(bs: seq<Bucket>, e: Entry)
    requires Good(bs)
    ensures Good(Insert(bs, e))
  {
    var i := Index(e.key, |bs|);
    InsertDistinct(bs[i], e);
    forall n | 0 <= n < |bs| ensures GoodBucket(Insert(bs, e)[n], n, |bs|) {
      assert GoodBucket(bs[n], n, |bs|);
    }
  }

  /** Writing changes the answer for the written key. Every other answer is as before, unless
      the key heads a longer chain: then all other keys of that bucket are forgotten. */
  lemma InsertFind(bs: seq<Bucket>, e: Entry, k: Hash)
    requires Good(bs)
    ensures Find(Insert(bs, e), k) ==
              if k == e.key then Present(e.val)
              else if Index(k, |bs|) == Index(e.key, |bs|) && Heads(bs[Index(e.key, |bs|)], e.key) then Absent
              else Find(bs, k)
  {
    var i := Index(e.key, |bs|);
    assert GoodBucket(bs[i], i, |bs|);
    InsertLook(bs[i], e, k);
  }

  /** The table behaves as a map, updated at exactly the written key, if and only if the key
      does not head a longer chain. */
  lemma WritesExactlyOne(bs: seq<Bucket>, e: Entry)
    requires Good(bs)
    ensures (forall k :: k != e.key ==> Find(Insert(bs, e), k) == Find(bs, k)) <==>
            !Heads(bs[Index(e.key, |bs|)], e.key)
  {
    var i := Index(e.key, |bs|);
    var b := bs[i];
    forall k | k != e.key && !Heads(b, e.key) ensures Find(Insert(bs, e), k) == Find(bs, k) {
      InsertFind(bs, e, k);
    }
    if Heads(b, e.key) {
      var k := b[1].key;
      assert GoodBucket(b, i, |bs|);
      InsertFind(bs, e, k);
      LookPlace(b, k);
      PlaceIs(b, k, 1);
      assert Find(bs, k) == Present(b[1].val);
      assert Find(Insert(bs, e), k) != Find(bs, k);
    }
  }

  /** An example: of two keys written to one bucket of a new table, the first is written again,
      and the second is gone. */
  lemma RewriteForgets(v: int, u: int, v': int)
    ensures
      var one := Insert([[], []], Entry(0, v));
      var two := Insert(one, Entry(2, u));
      && Good(two) && Find(two, 0) == Present(v) && Find(two, 2) == Present(u)
      && Find(Insert(two, Entry(0, v')), 2) == Absent
  {
    var one := Insert([[], []], Entry(0, v));
    var two := Insert(one, Entry(2, u));
    assert one == [[Entry(0, v)], []];
    assert InsertInto([Entry(0, v)], Entry(2, u)) == [Entry(0, v), Entry(2, u)] by {
      PlaceIs([Entry(0, v)], 2, 1);
    }
    assert two == [[Entry(0, v), Entry(2, u)], []];
    InsertGood(one, Entry(2, u));
    assert Look([Entry(2, u)], 2) == Present(u);
    InsertFind(two, Entry(0, v'), 2);
  }

  // ------------------------------------------------------------------ growth

  /** The number of records. */
  function Total(bs: seq<Bucket>): nat {
    if bs == [] then 0 else |bs[0]| + Total(bs[1..])
  }

  lemma {:induction false} TotalUpdate(bs: seq<Bucket>, i: nat, b: Bucket)
    requires i < |bs|
    ensures Total(bs[i := b]) == Total(bs) - |bs[i]| + |b|
  {
    if i == 0 {
      assert bs[i := b][1..] == bs[1..];
    } else {
      assert bs[i := b][1..] == bs[1..][i - 1 := b];
      TotalUpdate(bs[1..], i - 1, b);
    }
  }

  lemma {:induction false} TotalEmpty(bs: seq<Bucket>)
    requires forall i :: 0 <= i < |bs| ==> bs[i] == []
    ensures Total(bs) == 0
  {
    if bs != [] {
      TotalEmpty(bs[1..]);
    }
  }

  /** Fewer records than buckets leave a bucket without any. */
  lemma {:induction false} SomeEmpty(bs: seq<Bucket>) returns (i: nat)
    requires Total(bs) < |bs|
    ensures i < |bs| && bs[i] == []
  {
    if bs[0] == [] {
      i := 0;
    } else {
      i := SomeEmpty(bs[1..]);
      i := i + 1;
    }
  }

  /** A write adds at most the record of a key that was not found. */
  lemma InsertTotal(bs: seq<Bucket>, e: Entry)
    requires |bs| > 0
    ensures Total(Insert(bs, e)) <= Total(bs) + if Find(bs, e.key) == Absent then 1 else 0
  {
    var i := Index(e.key, |bs|);
    LookPlace(bs[i], e.key);
    TotalUpdate(bs, i, InsertInto(bs[i], e));
  }

  /** How a write ends. `NullKey`: growing reads the key of an empty bucket. `Unset`: there is no
      empty bucket, and the buckets that growing adds are never set. */
  datatype Written = Stored | NullKey | Unset

  /** The number of keys a table of that length takes before it has to grow. */
  function Capacity(len: nat): nat {
    len * 3 / 4
  }

  class Table {
    const records: array<Bucket>
    var count: nat

    ghost predicate Valid()
      reads this, records
    {
      Good(records[..]) && PowerOfTwo(records.Length)
    }

    /** Every record has been counted, and the count was never let past the load. */
    ghost predicate Counted()
      reads this, records
    {
      Total(records[..]) <= count <= Capacity(records.Length)
    }

    /** `alloc_table`. */
    constructor (size: nat)
      requires PowerOfTwo(size)
      ensures Valid() && Counted() && fresh(records) && records.Length == size && count == 0
      ensures forall k :: Find(records[..], k) == Absent
      ensures forall j :: 0 <= j < size ==> records[j] == []
    {
      records := new Bucket[size](_ => []);
      count := 0;
      new;
      forall k: Hash ensures Find(records[..], k) == Absent {
        assert records[..][Index(k, size)] == [];
      }
      TotalEmpty(records[..]);
    }

    method FindEntry(k: Hash) returns (r: Found)
      requires Valid()
      ensures r == Find(records[..], k)
    {
      var b := records[Index(k, records.Length)];
      LookPlace(b, k);
      if b == [] {
        return Absent;
      }
      if b[0].key == k {
        return Present(b[0].val);
      }
      var i := 1;
      while i < |b|
        invariant 1 <= i <= |b| && forall j :: 0 <= j < i ==> b[j].key != k
      {
        if b[i].key == k {
          PlaceIs(b, k, i);
          return Present(b[i].val);
        }
        i := i + 1;
      }
      PlaceIs(b, k, |b|);
      r := Absent;
    }

    method InsertEntry(e: Entry)
      requires Valid()
      modifies records
      ensures Valid() && records[..] == Insert(old(records[..]), e)
    {
      ghost var was := records[..];
      var n := Index(e.key, records.Length);
      var b := records[n];
      InsertGood(was, e);
      if b == [] || b[0].key == e.key {
        records[n] := [e];
      } else {
        var i := 1;
        while i < |b| && b[i].key != e.key
          invariant 1 <= i <= |b| && forall j :: 0 <= j < i ==> b[j].key != e.key
        {
          i := i + 1;
        }
        PlaceIs(b, e.key, i);
        if i < |b| {
          records[n] := b[i := Entry(b[i].key, e.val)];
        } else {
          records[n] := [b[0], e] + b[1..];
        }
      }
      assert records[..] == Insert(was, e);
    }

    /** The loop of `realloc_table`: every bucket's key is read, the first NULL one ends it. */
    method Grow() returns (w: Written)
      requires Valid()
      ensures w == NullKey <==> exists i :: 0 <= i < records.Length && records[i] == []
      ensures w == NullKey || w == Unset
      ensures Counted() ==> w == NullKey
    {
      if Counted() {
        var _ := SomeEmpty(records[..]);
      }
      var i := 0;
      while i < records.Length
        invariant i <= records.Length && forall j :: 0 <= j < i ==> records[j] != []
      {
        if records[i] == [] {
          return NullKey;
        }
        i := i + 1;
      }
      w := Unset;
    }

    /** `write_table`. A key is counted when it was not found. A key beyond the load factor of 3/4
        makes the table grow, and nothing that was only written to survives that. */
    method WriteTable(k: Hash, v: int) returns (w: Written)
      requires Valid()
      modifies this, records
      ensures Valid() && (old(Counted()) ==> Counted())
      ensures w == Stored <==> !(old(Find(records[..], k)) == Absent && Capacity(records.Length) < old(count) + 1)
      ensures w == Stored ==> records[..] == Insert(old(records[..]), Entry(k, v))
      ensures w == Stored ==> count == old(count) + if Find(old(records[..]), k) == Absent then 1 else 0
      ensures w != Stored ==> records[..] == old(records[..]) && count == old(count)
      ensures w == NullKey ==> exists i :: 0 <= i < records.Length && records[i] == []
      ensures w == Unset ==> forall i :: 0 <= i < records.Length ==> records[i] != []
      ensures old(Counted()) ==> w != Unset
    {
      var r := FindEntry(k);
      if r == Absent {
        if Capacity(records.Length) < count + 1 {
          w := Grow();
          return;
        }
        count := count + 1;
      }
      InsertTotal(records[..], Entry(k, v));
      InsertEntry(Entry(k, v));
      w := Stored;
    }

    /** `copy_table`: the head records, with the chains behind them, in a new table. The count is not
        copied. */
    method CopyTable() returns (t: Table)
      requires Valid()
      ensures fresh(t) && fresh(t.records) && t.Valid() && t.records[..] == records[..] && t.count == 0
      ensures forall k :: Find(t.records[..], k) == Find(records[..], k)
    {
      t := new Table(records.Length);
      var i := 0;
      while i < records.Length
        invariant i <= records.Length == t.records.Length && fresh(t) && fresh(t.records) && t.count == 0
        invariant forall j :: 0 <= j < i ==> t.records[j] == records[j]
        invariant forall j :: i <= j < records.Length ==> t.records[j] == []
      {
        if records[i] != [] {
          assert GoodBucket(records[..][i], i, records.Length);
          var n := Index(records[i][0].key, records.Length);
          t.records[n] := records[i];
        }
        i := i + 1;
      }
      assert t.records[..] == records[..];
    }
  }
}
