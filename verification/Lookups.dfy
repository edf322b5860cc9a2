/** The table of declared functions that all compilers of a script share, and when it is full. */
module Lookups {
  import opened Syntax
  import opened Layout
  import opened Tables

  /** The table answers the natives with their numbers, the functions with theirs, and nothing
      else. */
  ghost predicate Knows(bs: seq<Bucket>, fns: Fns, natives: seq<Name>) {
    && |bs| > 0
    && (forall i :: 0 <= i < |natives| ==> Find(bs, natives[i]) == Present(i))
    && (forall f :: f in fns ==> Find(bs, f) == Present(fns[f]))
    && (forall k: Name :: k !in natives && k !in fns ==> Find(bs, k) == Absent)
  }

  /** A key that was not found does not head a chain, so that nothing else is forgotten. */
  lemma InsertNew(bs: seq<Bucket>, e: Entry)
    requires Good(bs) && Find(bs, e.key) == Absent
    ensures Good(Insert(bs, e)) && Find(Insert(bs, e), e.key) == Present(e.val)
    ensures forall k :: k != e.key ==> Find(Insert(bs, e), k) == Find(bs, k)
  {
    InsertGood(bs, e);
    InsertFind(bs, e, e.key);
    WritesExactlyOne(bs, e);
  }

  lemma KnowsFunction(bs: seq<Bucket>, fns: Fns, natives: seq<Name>, f: Name, v: nat)
    requires Good(bs) && Knows(bs, fns, natives) && Find(bs, f) == Absent
    ensures Knows(Insert(bs, Entry(f, v)), fns[f := v], natives)
  {
    InsertNew(bs, Entry(f, v));
    hide Find, Insert, Good;
  }

  lemma KnowsNative(bs: seq<Bucket>, natives: seq<Name>, x: Name)
    requires Good(bs) && Knows(bs, map[], natives) && x !in natives
    ensures Find(bs, x) == Absent && Knows(Insert(bs, Entry(x, |natives|)), map[], natives + [x])
  {
    InsertNew(bs, Entry(x, |natives|));
    hide Find, Insert, Good;
  }

  /** `compile_path` writes the natives to a new table, numbered from 0. */
  method NativeTable(natives: seq<Name>) returns (t: Table, room: bool)
    requires NoRepeats(natives)
    ensures fresh(t) && fresh(t.records) && t.Valid() && t.Counted() && t.records.Length == INIT_SIZE
    ensures room <==> |natives| <= Capacity(INIT_SIZE)
    ensures room ==> t.count == |natives| && Knows(t.records[..], map[], natives)
  {
    hide Find, Insert, Good, Total;
    assert PowerOfTwo(INIT_SIZE) by {
      assert PowerOfTwo(2) && PowerOfTwo(4) && PowerOfTwo(8);
    }
    t := new Table(INIT_SIZE);
    for i := 0 to |natives|
      invariant fresh(t) && fresh(t.records) && t.Valid() && t.Counted() && t.records.Length == INIT_SIZE
      invariant t.count == i <= Capacity(INIT_SIZE) && Knows(t.records[..], map[], natives[..i])
    {
      KnowsNative(t.records[..], natives[..i], natives[i]);
      var w := t.WriteTable(natives[i], i);
      if w != Stored {
        return t, false;
      }
      assert natives[..i] + [natives[i]] == natives[..i + 1];
    }
    assert natives[..|natives|] == natives;
    room := true;
  }

  /** The check and the write of `func_declaration`. */
  datatype Declared = Fresh | Duplicate | Full

  method Declare(t: Table, ghost fns: Fns, ghost natives: seq<Name>, f: Name, v: nat) returns (d: Declared)
    requires t.Valid() && t.Counted() && t.records.Length == INIT_SIZE && Knows(t.records[..], fns, natives)
    modifies t, t.records
    ensures t.Valid() && t.Counted()
    ensures d == Duplicate <==> f in natives || f in fns
    ensures d == Full <==> f !in natives && f !in fns && old(t.count) >= Capacity(INIT_SIZE)
    ensures d == Fresh ==> t.count == old(t.count) + 1 && Knows(t.records[..], fns[f := v], natives)
    ensures d != Fresh ==> t.records[..] == old(t.records[..]) && t.count == old(t.count)
  {
    hide Insert, Good, Total, Look;
    var r := t.FindEntry(f);
    if r != Absent {
      return Duplicate;
    }
    KnowsFunction(t.records[..], fns, natives, f, v);
    var w := t.WriteTable(f, v);
    d := if w == Stored then Fresh else Full;
  }
}
