/** The allocator of mem.c in its memory: headers are bytes, and the free list is threaded
    through them. */
module Arenas {
  import opened Allocator

  /** The record in front of every block. `next` is 0 for NULL. */
  datatype Header = Header(size: nat, next: nat)

  /** What one byte of memory holds: data, or byte `k` of a header. */
  datatype Cell = Raw(value: nat) | Part(h: Header, k: nat)

  type Memory = map<nat, Cell>

  // ---------------------------------------------------------------- headers

  predicate HeadAt(m: Memory, a: nat, h: Header) {
    forall x :: a <= x < a + OFFSET ==> x in m && m[x] == Part(h, x - a)
  }

  /** Reads a header. Bytes that do not form one give nothing meaningful. */
  function Load(m: Memory, a: nat): (h: Header)
  {
    if a in m && m[a].Part? && HeadAt(m, a, m[a].h) then m[a].h
    else Header(0, 0)
  }

  lemma Loaded(m: Memory, a: nat, h: Header)
    requires HeadAt(m, a, h)
    ensures Load(m, a) == h
  {
    assert a in m && m[a] == Part(h, 0);
  }

  /** Writes the header, byte by byte. */
  function Store(m: Memory, a: nat, h: Header): Memory {
    StoreFrom(m, a, h, 0)
  }

  function StoreFrom(m: Memory, a: nat, h: Header, k: nat): (r: Memory)
    requires k <= OFFSET
    ensures forall x :: a + k <= x < a + OFFSET ==> x in r && r[x] == Part(h, x - a)
    ensures forall x :: x < a + k || a + OFFSET <= x ==> ((x in r <==> x in m) && (x in r ==> r[x] == m[x]))
    decreases OFFSET - k
  {
    if k == OFFSET then m else StoreFrom(m[a + k := Part(h, k)], a, h, k + 1)
  }

  /** The header is there, and nothing else has changed. */
  lemma Stored(m: Memory, a: nat, h: Header)
    ensures HeadAt(Store(m, a, h), a, h) && Outside(m, Store(m, a, h), Block(a, 0))
  {
  }

  /** The bytes from `lo` to `hi` are the same. */
  predicate Same(m: Memory, m': Memory, lo: nat, hi: nat) {
    forall x :: lo <= x < hi ==> ((x in m' <==> x in m) && (x in m' ==> m'[x] == m[x]))
  }

  lemma SameHead(m: Memory, m': Memory, a: nat, h: Header)
    requires HeadAt(m, a, h) && Same(m, m', a, a + OFFSET)
    ensures HeadAt(m', a, h)
  {
  }

  /** The numbers a `size_t` counts, modulo which sizes and addresses are computed. */
  const SIZES: nat := 0x1_0000_0000_0000_0000

  /** An example for `GrowthExact`: a request of a whole page, its header included. The region it
      grows has no room for a header of its own. The size written there wraps around, so that the
      block handed out starts where the region does: it is the listed node itself, with 16368
      bytes, which the next request of up to that size gets as well. */
  lemma WholePageTwice(m: Memory, at: nat)
    requires at < SIZES
    ensures Doubled(PAGE, PAGE) == PAGE && !Fits(PAGE)
    ensures var size := (PAGE - PAGE - OFFSET) % SIZES;
            var a := (at + OFFSET + size) % SIZES;
            a == at && Load(Store(Store(m, at, Header(size, 0)), a, Header(PAGE - OFFSET, 0)), at) ==
              Header(PAGE - OFFSET, 0)
  {
    hide HeadAt, Load, Store;
    Wraps(at);
    var m1 := Store(m, at, Header(SIZES - OFFSET, 0));
    Stored(m1, at, Header(PAGE - OFFSET, 0));
    Loaded(Store(m1, at, Header(PAGE - OFFSET, 0)), at, Header(PAGE - OFFSET, 0));
  }

  lemma Wraps(at: nat)
    requires at < SIZES
    ensures (PAGE - PAGE - OFFSET) % SIZES == SIZES - OFFSET && (at + OFFSET + (SIZES - OFFSET)) % SIZES == at
  {
    assert at + OFFSET + (SIZES - OFFSET) == at + SIZES;
  }

  // -------------------------------------------------------------- the lists

  function NextOf(bs: seq<Block>, i: nat): nat {
    if i + 1 < |bs| then bs[i + 1].at else 0
  }

  /** The free list is threaded from `head` through the headers of `bs`. */
  predicate Threaded(m: Memory, head: nat, bs: seq<Block>) {
    && head == (if bs == [] then 0 else bs[0].at)
    && (forall i :: 0 <= i < |bs| ==> bs[i].at > 0 && HeadAt(m, bs[i].at, Header(bs[i].size, NextOf(bs, i))))
  }

  /** Live blocks keep the size in their header. */
  predicate Handed(m: Memory, bs: seq<Block>) {
    forall i :: 0 <= i < |bs| ==> HeadAt(m, bs[i].at, Header(bs[i].size, 0))
  }

  /** The contents of the blocks are the same. */
  predicate Kept(m: Memory, m': Memory, bs: seq<Block>) {
    forall i :: 0 <= i < |bs| ==> Same(m, m', bs[i].at + OFFSET, End(bs[i]))
  }

  /** Nothing outside block `b` was written, and of `b` nothing but what follows its header or
      its header. */
  ghost predicate Outside(m: Memory, m': Memory, b: Block) {
    forall x :: x < b.at || End(b) <= x ==> ((x in m' <==> x in m) && (x in m' ==> m'[x] == m[x]))
  }

  lemma Wider(m: Memory, m': Memory, a: Block, b: Block)
    requires Outside(m, m', a) && b.at <= a.at && End(a) <= End(b)
    ensures Outside(m, m', b)
  {
  }

  lemma ApartSame(m: Memory, m': Memory, b: Block, c: Block)
    requires Outside(m, m', b) && Apart(b, c)
    ensures Same(m, m', c.at, End(c))
  {
  }

  /** Writes inside `b` leave other blocks' headers and contents alone. */
  lemma OthersKept(m: Memory, m': Memory, b: Block, bs: seq<Block>)
    requires Outside(m, m', b) && forall i :: 0 <= i < |bs| ==> Apart(b, bs[i])
    ensures Kept(m, m', bs) && (Handed(m, bs) ==> Handed(m', bs))
  {
    forall i | 0 <= i < |bs| ensures Same(m, m', bs[i].at, End(bs[i])) {
      ApartSame(m, m', b, bs[i]);
    }
  }

  lemma KeptTrans(m: Memory, m1: Memory, m2: Memory, bs: seq<Block>)
    requires Kept(m, m1, bs) && Kept(m1, m2, bs)
    ensures Kept(m, m2, bs)
  {
    forall i | 0 <= i < |bs| ensures Same(m, m2, bs[i].at + OFFSET, End(bs[i])) {
      assert Same(m, m1, bs[i].at + OFFSET, End(bs[i])) && Same(m1, m2, bs[i].at + OFFSET, End(bs[i]));
    }
  }

  lemma Positive(b: Block, rs: seq<Region>)
    requires Mapped(b, rs) && forall k :: 0 <= k < |rs| ==> rs[k].at > 0
    ensures b.at > 0
  {
    assert Known(b.at, rs);
  }

  // --------------------------------------------------------- list operations

  /** One node's header is replaced; the other nodes' headers stay. */
  lemma Rethread(m: Memory, m': Memory, head: nat, bs: seq<Block>, cs: seq<Block>, i: nat, b: Block)
    requires Threaded(m, head, bs) && AllApart(bs) && i < |bs| && Outside(m, m', b) && b.at == bs[i].at
             && End(b) <= End(bs[i])
    requires |cs| == |bs| && cs == bs[i := Block(b.at, cs[i].size)]
             && HeadAt(m', b.at, Header(cs[i].size, NextOf(bs, i)))
    ensures Threaded(m', head, cs)
  {
    forall j | 0 <= j < |cs| ensures HeadAt(m', cs[j].at, Header(cs[j].size, NextOf(cs, j))) {
      assert NextOf(cs, j) == NextOf(bs, j);
      if j != i {
        assert if j < i then Apart(bs[j], bs[i]) else Apart(bs[i], bs[j]);
        assert HeadAt(m, bs[j].at, Header(bs[j].size, NextOf(bs, j)));
        SameHead(m, m', bs[j].at, Header(bs[j].size, NextOf(bs, j)));
      }
    }
  }

  /** Node `i` is skipped by its predecessor. */
  lemma Unlink(m: Memory, head: nat, bs: seq<Block>, i: nat)
    requires Threaded(m, head, bs) && AllApart(bs) && 0 < i < |bs|
    ensures Threaded(Store(m, bs[i - 1].at, Header(bs[i - 1].size, NextOf(bs, i))), head, Without(bs, i))
  {
    hide HeadAt, Store;
    var h := Header(bs[i - 1].size, NextOf(bs, i));
    var m' := Store(m, bs[i - 1].at, h);
    var cs := Without(bs, i);
    Stored(m, bs[i - 1].at, h);
    forall j | 0 <= j < |cs| ensures cs[j].at > 0 && HeadAt(m', cs[j].at, Header(cs[j].size, NextOf(cs, j))) {
      var k := if j < i then j else j + 1;
      assert cs[j] == bs[k];
      if j != i - 1 {
        assert NextOf(cs, j) == NextOf(bs, k);
        assert if k < i - 1 then Apart(bs[k], bs[i - 1]) else Apart(bs[i - 1], bs[k]);
        HeadKept(m, bs[k].at, Header(bs[k].size, NextOf(bs, k)), bs[i - 1].at, h);
      } else {
        assert NextOf(cs, j) == NextOf(bs, i);
      }
    }
  }

  /** A new last node. */
  lemma Append(m: Memory, head: nat, bs: seq<Block>, b: Block)
    requires Threaded(m, head, bs) && AllApart(bs + [b]) && bs != [] && b.at > 0
    ensures var z := bs[|bs| - 1];
            var m' := Store(Store(m, b.at, Header(b.size, 0)), z.at, Header(z.size, b.at));
            Threaded(m', head, bs + [b])
  {
    hide HeadAt, Store;
    var n := |bs| - 1;
    var z, h := bs[n], Header(b.size, 0);
    var m1 := Store(m, b.at, h);
    var m' := Store(m1, z.at, Header(z.size, b.at));
    var cs := bs + [b];
    assert Apart(cs[n], cs[n + 1]);
    Stored(m, b.at, h);
    Stored(m1, z.at, Header(z.size, b.at));
    HeadKept(m1, b.at, h, z.at, Header(z.size, b.at));
    forall j | 0 <= j < |cs| ensures cs[j].at > 0 && HeadAt(m', cs[j].at, Header(cs[j].size, NextOf(cs, j))) {
      if j < n {
        var g := Header(bs[j].size, NextOf(bs, j));
        assert NextOf(cs, j) == NextOf(bs, j) && cs[j] == bs[j];
        assert Apart(cs[j], cs[n]) && Apart(cs[j], cs[n + 1]);
        HeadKept(m, bs[j].at, g, b.at, h);
        HeadKept(m1, bs[j].at, g, z.at, Header(z.size, b.at));
      }
    }
  }

  /** The place in the old list of node `k` of the list whose nodes `n` and `n + 1` are joined. */
  function Old(k: nat, n: nat): nat {
    if k <= n then k else k + 1
  }

  lemma JointApart(done: seq<Block>, rest: seq<Block>)
    requires AllApart(done + rest) && |rest| >= 2 && End(rest[0]) == rest[1].at
    ensures var j := Block(rest[0].at, rest[0].size + rest[1].size);
            && AllApart(done + [j] + rest[2..])
            && (forall k :: 0 <= k < |done + rest| && k != |done| && k != |done| + 1 ==> Apart((done + rest)[k], j))
  {
    var j := Block(rest[0].at, rest[0].size + rest[1].size);
    var bs, cs, n := done + rest, done + [j] + rest[2..], |done|;
    assert bs[n] == rest[0] && bs[n + 1] == rest[1];
    forall k | 0 <= k < |bs| && k != n && k != n + 1 ensures Apart(bs[k], j) && Apart(j, bs[k]) {
      if k < n {
        assert Apart(bs[k], bs[n]) && Apart(bs[k], bs[n + 1]);
      } else {
        assert Apart(bs[n], bs[k]) && Apart(bs[n + 1], bs[k]);
      }
    }
    hide Apart, End;
    assert forall k :: 0 <= k < |cs| && k != n ==> cs[k] == bs[Old(k, n)];
    forall a, b | 0 <= a < b < |cs| ensures Apart(cs[a], cs[b]) {
      assert a != n && b != n ==> Apart(bs[Old(a, n)], bs[Old(b, n)]);
    }
  }

  /** A node other than the two joined ones keeps its header, and its successor. */
  lemma JointOther(m: Memory, head: nat, done: seq<Block>, rest: seq<Block>, k: nat)
    requires Threaded(m, head, done + rest) && AllApart(done + rest) && |rest| >= 2 && End(rest[0]) == rest[1].at
    requires k < |done + rest| - 1 && k != |done|
    ensures var j := Block(rest[0].at, rest[0].size + rest[1].size);
            var cs := done + [j] + rest[2..];
            cs[k].at > 0 && HeadAt(Store(m, j.at, Header(j.size, NextOf(rest, 1))), cs[k].at,
              Header(cs[k].size, NextOf(cs, k)))
  {
    hide HeadAt, Same, Store, AllApart;
    var j := Block(rest[0].at, rest[0].size + rest[1].size);
    var bs, cs, n := done + rest, done + [j] + rest[2..], |done|;
    var i := Old(k, n);
    JointApart(done, rest);
    assert cs[k] == bs[i] && bs[n] == rest[0];
    assert NextOf(cs, k) == NextOf(bs, i);
    assert Apart(bs[i], j);
    HeadKept(m, bs[i].at, Header(bs[i].size, NextOf(bs, i)), j.at, Header(j.size, NextOf(rest, 1)));
  }

  /** Two touching neighbours become one node. */
  lemma Joint(m: Memory, head: nat, done: seq<Block>, rest: seq<Block>)
    requires Threaded(m, head, done + rest) && AllApart(done + rest) && |rest| >= 2 && End(rest[0]) == rest[1].at
    ensures var j := Block(rest[0].at, rest[0].size + rest[1].size);
            Threaded(Store(m, j.at, Header(j.size, NextOf(rest, 1))), head, done + [j] + rest[2..])
  {
    hide HeadAt, Same, Store, AllApart, Apart, NextOf;
    var j := Block(rest[0].at, rest[0].size + rest[1].size);
    var m' := Store(m, j.at, Header(j.size, NextOf(rest, 1)));
    var bs, cs, n := done + rest, done + [j] + rest[2..], |done|;
    assert bs[n] == rest[0] && bs[n].at > 0;
    Stored(m, j.at, Header(j.size, NextOf(rest, 1)));
    NextJoint(done, rest);
    forall k | 0 <= k < |cs| ensures cs[k].at > 0 && HeadAt(m', cs[k].at, Header(cs[k].size, NextOf(cs, k))) {
      if k != n {
        JointOther(m, head, done, rest, k);
      }
    }
  }

  lemma NextJoint(done: seq<Block>, rest: seq<Block>)
    requires |rest| >= 2
    ensures var j := Block(rest[0].at, rest[0].size + rest[1].size);
            NextOf(done + [j] + rest[2..], |done|) == NextOf(rest, 1)
  {
  }

  lemma HeadKept(m: Memory, a: nat, h: Header, b: nat, g: Header)
    requires HeadAt(m, a, h) && (a + OFFSET <= b || b + OFFSET <= a)
    ensures HeadAt(Store(m, b, g), a, h)
  {
    hide Store;
    Stored(m, b, g);
  }

  // ---------------------------------------------------- single calls, on values

  /** Memory and list agree, and nothing overlaps. */
  ghost predicate Agrees(m: Memory, head: nat, h: Heap) {
    Inv(h) && Threaded(m, head, h.free) && Handed(m, h.live) && (h.free == [] ==> h.live == [])
  }

  lemma LivePositive(h: Heap, i: nat)
    requires Inv(h) && i < |h.live|
    ensures h.live[i].at > 0
  {
    Positive(h.live[i], h.regions);
  }

  lemma InvMeans(h: Heap)
    requires Inv(h)
    ensures AllApart(h.free) && AllApart(h.live) && Separate(h.free, h.live) && AllMapped(h.free, h.regions)
            && AllMapped(h.live, h.regions)
    ensures forall k :: 0 <= k < |h.regions| ==> h.regions[k].at > 0
  {
  }

  /** A header written to a listed node leaves live blocks alone. */
  lemma NodeMemory(m: Memory, h: Heap, i: nat, g: Header)
    requires Inv(h) && Handed(m, h.live) && i < |h.free|
    ensures var m' := Store(m, h.free[i].at, g); Handed(m', h.live) && Kept(m, m', h.live)
  {
    hide Inv, Mapped, HeadAt, Outside, Store, Kept, Handed;
    InvMeans(h);
    var m' := Store(m, h.free[i].at, g);
    Stored(m, h.free[i].at, g);
    Wider(m, m', Block(h.free[i].at, 0), h.free[i]);
    OthersKept(m, m', h.free[i], h.live);
  }

  /** The headers that a grown region gets. */
  lemma GrowMemory(m: Memory, head: nat, h: Heap, at: nat, len: nat, n: nat)
    requires Agrees(m, head, h) && h.free != [] && OFFSET <= n && n + OFFSET <= len && FreshAt(h, at, len)
    ensures var z := h.free[|h.free| - 1];
            var b, cut := Block(at, len - n - OFFSET), Block(at + len - n, n - OFFSET);
            var m1 := Store(Store(m, b.at, Header(b.size, 0)), z.at, Header(z.size, at));
            var m' := Store(m1, cut.at, Header(cut.size, 0));
            && Threaded(m', head, h.free + [b]) && Handed(m', h.live + [cut]) && Kept(m, m', h.live)
  {
    hide Inv, Mapped, HeadAt, Outside, Store, Kept, Handed, Apart, Threaded;
    var g := Grown(h, at, len, n);
    var b, cut := Block(at, len - n - OFFSET), Block(at + len - n, n - OFFSET);
    var n' := |h.free| - 1;
    var z := h.free[n'];
    var m0 := Store(m, b.at, Header(b.size, 0));
    var m1 := Store(m0, z.at, Header(z.size, at));
    GrownInv(h, at, len, n);
    InvMeans(g);
    InvMeans(h);
    assert g.free[n'] == z && g.free[n' + 1] == b;
    Append(m, head, h.free, b);
    forall j | 0 <= j < |h.live| ensures Apart(b, h.live[j]) && Apart(z, h.live[j]) {
      assert Apart(g.free[n' + 1], g.live[j]) && Apart(g.free[n'], g.live[j]);
    }
    Stored(m, b.at, Header(b.size, 0));
    Stored(m0, z.at, Header(z.size, at));
    Wider(m, m0, Block(b.at, 0), b);
    Wider(m0, m1, Block(z.at, 0), z);
    OthersKept(m, m0, b, h.live);
    OthersKept(m0, m1, z, h.live);
    KeptTrans(m, m0, m1, h.live);
    HandOut(m1, head, g.free, h.live, cut);
    KeptTrans(m, m1, Store(m1, cut.at, Header(cut.size, 0)), h.live);
  }

  /** A header written to a block apart from all nodes leaves the list alone. */
  lemma ThreadKept(m: Memory, m': Memory, head: nat, bs: seq<Block>, c: Block, live: seq<Block>)
    requires Threaded(m, head, bs) && Outside(m, m', c) && c in live && Separate(bs, live)
    ensures Threaded(m', head, bs)
  {
    hide HeadAt;
    forall j | 0 <= j < |bs| ensures HeadAt(m', bs[j].at, Header(bs[j].size, NextOf(bs, j))) {
      ApartSame(m, m', c, bs[j]);
      SameHead(m, m', bs[j].at, Header(bs[j].size, NextOf(bs, j)));
    }
  }

  /** The header of a block that is handed out. */
  lemma HandOut(m: Memory, head: nat, bs: seq<Block>, live: seq<Block>, cut: Block)
    requires Threaded(m, head, bs) && Handed(m, live) && Separate(bs, live + [cut]) && AllApart(live + [cut])
    ensures var m' := Store(m, cut.at, Header(cut.size, 0));
            Threaded(m', head, bs) && Handed(m', live + [cut]) && Kept(m, m', live)
  {
    hide HeadAt, Store, Outside, Same;
    var m' := Store(m, cut.at, Header(cut.size, 0));
    var all := live + [cut];
    Stored(m, cut.at, Header(cut.size, 0));
    Wider(m, m', Block(cut.at, 0), cut);
    ThreadKept(m, m', head, bs, cut, all);
    forall j | 0 <= j < |live| ensures Apart(cut, live[j]) {
      assert Apart(all[j], all[|live|]);
    }
    OthersKept(m, m', cut, live);
  }

  /** The list after node `i` has given up `n` bytes. */
  lemma Shrink(m: Memory, head: nat, h: Heap, i: nat, n: nat)
    requires Agrees(m, head, h) && i < |h.free| && n <= h.free[i].size
    ensures var b := h.free[i];
            var m' := Store(m, b.at, Header(b.size - n, NextOf(h.free, i)));
            Threaded(m', head, h.free[i := Block(b.at, b.size - n)]) && Handed(m', h.live) && Kept(m, m', h.live)
  {
    hide Inv, HeadAt, Store, Outside;
    InvMeans(h);
    var b := h.free[i];
    NodeMemory(m, h, i, Header(b.size - n, NextOf(h.free, i)));
    Stored(m, b.at, Header(b.size - n, NextOf(h.free, i)));
    Wider(m, Store(m, b.at, Header(b.size - n, NextOf(h.free, i))), Block(b.at, 0), Block(b.at, b.size));
    Rethread(m, Store(m, b.at, Header(b.size - n, NextOf(h.free, i))), head, h.free,
      h.free[i := Block(b.at, b.size - n)], i, b);
  }

  lemma ShrunkApart(bs: seq<Block>, i: nat, n: nat)
    requires AllApart(bs) && i < |bs| && n <= bs[i].size
    ensures AllApart(bs[i := Block(bs[i].at, bs[i].size - n)])
  {
    var cs := bs[i := Block(bs[i].at, bs[i].size - n)];
    forall j, k | 0 <= j < k < |cs| ensures Apart(cs[j], cs[k]) {
      assert Apart(bs[j], bs[k]);
    }
  }

  lemma {:induction false} FitIs(bs: seq<Block>, n: nat, i: nat)
    requires i <= |bs| && (i < |bs| ==> bs[i].size >= n) && forall j :: 0 <= j < i ==> bs[j].size < n
    ensures FirstFit(bs, n) == i
    decreases i
  {
    if i > 0 {
      FitIs(bs[1..], n, i - 1);
    }
  }

  lemma Opening(m: Memory, head: nat, h: Heap)
    requires Agrees(m, head, h)
    ensures head == 0 <==> h.free == []
    ensures h.free == [] ==> h.live == []
  {
    hide HeadAt, Inv;
  }

  /** The headers of the nodes that a merge looks at. */
  lemma NodesAt(m: Memory, head: nat, done: seq<Block>, rest: seq<Block>)
    requires Threaded(m, head, done + rest) && rest != []
    ensures rest[0].at > 0 && Load(m, rest[0].at) == Header(rest[0].size, NextOf(rest, 0))
    ensures |rest| > 1 ==> rest[1].at > 0 && Load(m, rest[1].at) == Header(rest[1].size, NextOf(rest, 1))
  {
    hide HeadAt, Load;
    var all, n := done + rest, |done|;
    assert all[n] == rest[0] && NextOf(all, n) == NextOf(rest, 0);
    Node(m, head, all, n);
    if |rest| > 1 {
      assert all[n + 1] == rest[1] && NextOf(all, n + 1) == NextOf(rest, 1);
      Node(m, head, all, n + 1);
    }
  }

  /** After a node has been dealt with, its header leads to the rest. */
  lemma NodeAfter(m: Memory, head: nat, done: seq<Block>, rest: seq<Block>)
    requires Threaded(m, head, done + rest) && done != []
    ensures Load(m, done[|done| - 1].at).next == if rest == [] then 0 else rest[0].at
    ensures rest != [] ==> rest[0].at > 0
  {
    hide HeadAt, Load;
    var all, n := done + rest, |done| - 1;
    assert all[n] == done[n];
    Node(m, head, all, n);
    if rest != [] {
      assert all[n + 1] == rest[0];
      Node(m, head, all, n + 1);
    }
  }

  lemma MergeAhead(done: seq<Block>, rest: seq<Block>)
    requires rest != []
    ensures var joined := |rest| > 1 && End(rest[0]) == rest[1].at;
            var done' := done + [if joined then Block(rest[0].at, rest[0].size + rest[1].size) else rest[0]];
            done + Merge(rest) == done' + Merge(if joined then rest[2..] else rest[1..])
  {
  }

  function At(m: Memory, x: nat): Cell {
    if x in m then m[x] else Raw(0)
  }

  function Copied1(m: Memory, p: nat, q: nat): Memory {
    if p in m then m[q := m[p]] else m - {q}
  }

  /** The `n` bytes of `m'` from `q` on are those of `m` from `p` on. */
  predicate CopyOf(m: Memory, p: nat, m': Memory, q: nat, n: nat) {
    forall x :: q <= x < q + n ==> At(m', x) == At(m, p + (x - q))
  }

  lemma CopyApart(h: Heap, i: nat, j: nat, n: nat)
    requires Inv(h) && i < j < |h.live| && n <= h.live[i].size
    ensures var p := h.live[i].at + OFFSET; p + n <= h.live[j].at || End(h.live[j]) <= p
    ensures AllApart(h.live)
  {
    InvMeans(h);
    assert Apart(h.live[i], h.live[j]);
  }

  /** Only the payload of `b` was written. */
  ghost predicate Elsewhere(m: Memory, m': Memory, b: Block) {
    forall x :: x < b.at + OFFSET || End(b) <= x ==> ((x in m' <==> x in m) && (x in m' ==> m'[x] == m[x]))
  }

  lemma CopyStep(m0: Memory, m: Memory, p: nat, q: nat, k: nat, b: Block)
    requires CopyOf(m0, p, m, q, k) && Elsewhere(m0, m, b) && b.at + OFFSET <= q <= q + k < End(b)
    requires p + k < b.at + OFFSET || End(b) <= p + k
    ensures CopyOf(m0, p, Copied1(m, p + k, q + k), q, k + 1) && Elsewhere(m0, Copied1(m, p + k, q + k), b)
  {
    var m' := Copied1(m, p + k, q + k);
    assert At(m, p + k) == At(m0, p + k);
    forall x | q <= x < q + k + 1 ensures At(m', x) == At(m0, p + (x - q)) {
      if x < q + k {
        assert At(m', x) == At(m, x);
      } else {
        assert At(m', x) == At(m, p + k);
      }
    }
  }

  /** A program may write what it was given. */
  lemma PayloadWritten(m: Memory, m': Memory, head: nat, h: Heap, j: nat)
    requires Agrees(m, head, h) && j < |h.live| && Elsewhere(m, m', h.live[j])
    ensures Agrees(m', head, h) && Kept(m, m', Without(h.live, j))
  {
    hide Inv, HeadAt, Mapped;
    var b, rest := h.live[j], Without(h.live, j);
    InvMeans(h);
    Remaining(h, j);
    assert Outside(m, m', b);
    forall k | 0 <= k < |rest| ensures Apart(b, rest[k]) {
      assert if k < j then Apart(h.live[k], b) else Apart(b, h.live[k + 1]);
    }
    OthersKept(m, m', b, rest);
    ThreadKept(m, m', head, h.free, b, h.live);
    assert Handed(m, rest);
    forall k | 0 <= k < |h.live| ensures HeadAt(m', h.live[k].at, Header(h.live[k].size, 0)) {
      if k == j {
        SameHead(m, m', b.at, Header(b.size, 0));
      } else {
        assert h.live[k] == rest[if k < j then k else k - 1];
      }
    }
  }

  /** The copy survives the release of the old block; the other blocks see nothing. */
  lemma Copied(m0: Memory, m1: Memory, m2: Memory, m3: Memory, live: seq<Block>, mid: seq<Block>, i: nat, n: nat)
    requires |mid| == |live| + 1 && mid[..|live|] == live && i < |live| && n <= live[i].size && n <= mid[|live|].size
    requires Kept(m0, m1, live) && Elsewhere(m1, m2, mid[|live|]) && AllApart(mid) && Kept(m2, m3, Without(mid, i))
    requires CopyOf(m1, live[i].at + OFFSET, m2, mid[|live|].at + OFFSET, n)
    ensures Kept(m0, m3, Without(live, i))
    ensures CopyOf(m0, live[i].at + OFFSET, m3, mid[|live|].at + OFFSET, n)
  {
    var rest, new_ := Without(mid, i), mid[|live|];
    assert rest[|live| - 1] == new_;
    assert Same(m0, m1, live[i].at + OFFSET, End(live[i]));
    assert Same(m2, m3, rest[|live| - 1].at + OFFSET, End(rest[|live| - 1]));
    var p, q := live[i].at + OFFSET, new_.at + OFFSET;
    forall x | q <= x < q + n ensures At(m3, x) == At(m0, p + (x - q)) {
      assert At(m3, x) == At(m2, x);
      assert At(m2, x) == At(m1, p + (x - q));
      assert At(m1, p + (x - q)) == At(m0, p + (x - q));
    }
    forall j | 0 <= j < |Without(live, i)| ensures Same(m0, m3, Without(live, i)[j].at + OFFSET,
      End(Without(live, i)[j])) {
      var k := if j < i then j else j + 1;
      assert rest[j] == mid[k] == live[k];
      assert Same(m0, m1, live[k].at + OFFSET, End(live[k]));
      assert Apart(mid[k], new_);
      assert Same(m2, m3, rest[j].at + OFFSET, End(rest[j]));
    }
  }

  lemma FreeIs(h: Heap, i: nat)
    requires i < |h.live|
    ensures var b, g := h.live[i], Free(h, i);
            && g.live == Without(h.live, i)
            && g.free == (if b.size == 0 then h.free else if AllBefore(h.free, b) then Merge(h.free + [b])
                 else Merge(h.free))
    ensures h.free != [] ==> Free(h, i).free != []
  {
  }

  /** Live block `i` on its way out. */
  lemma Taken(m: Memory, head: nat, h: Heap, i: nat)
    requires Agrees(m, head, h) && i < |h.live|
    ensures var b, rest := h.live[i], Without(h.live, i);
            && Load(m, b.at) == Header(b.size, 0) && h.free != [] && b.at > 0
            && Handed(m, rest) && Separate(h.free, rest) && AllApart(h.free)
            && AllApart(h.free + [b]) && Separate(h.free + [b], rest)
  {
    hide HeadAt, Load, Mapped;
    InvMeans(h);
    Remaining(h, i);
    LivePositive(h, i);
    Loaded(m, h.live[i].at, Header(h.live[i].size, 0));
  }

  lemma LastNode(m: Memory, head: nat, bs: seq<Block>, j: nat)
    requires Threaded(m, head, bs) && j < |bs|
    ensures NextOf(bs, j) == 0 <==> j == |bs| - 1
  {
    hide HeadAt;
    if j + 1 < |bs| {
      assert bs[j + 1].at > 0;
    }
  }

  /** The two headers written when block `i` is linked behind the last node. */
  lemma LinkMemory(m: Memory, head: nat, h: Heap, i: nat)
    requires Agrees(m, head, h) && i < |h.live|
    ensures var b, rest := h.live[i], Without(h.live, i);
            && h.free != []
            && var z := h.free[|h.free| - 1];
               var m' := Store(Store(m, b.at, Header(b.size, 0)), z.at, Header(z.size, b.at));
               Threaded(m', head, h.free + [b]) && Handed(m', rest) && Kept(m, m', rest)
  {
    hide HeadAt, Load, Mapped, Store, Outside, Kept, Handed, Threaded, Apart, Inv;
    Taken(m, head, h, i);
    InvMeans(h);
    var b, rest, n := h.live[i], Without(h.live, i), |h.free|;
    var z, bs := h.free[n - 1], h.free + [b];
    var m1 := Store(m, b.at, Header(b.size, 0));
    var m' := Store(m1, z.at, Header(z.size, b.at));
    Append(m, head, h.free, b);
    forall k | 0 <= k < |rest| ensures Apart(b, rest[k]) && Apart(z, rest[k]) {
      assert Apart(bs[n], rest[k]) && Apart(bs[n - 1], rest[k]);
    }
    Stored(m, b.at, Header(b.size, 0));
    Stored(m1, z.at, Header(z.size, b.at));
    Wider(m, m1, Block(b.at, 0), b);
    Wider(m1, m', Block(z.at, 0), z);
    OthersKept(m, m1, b, rest);
    OthersKept(m1, m', z, rest);
    KeptTrans(m, m1, m', rest);
  }

  lemma MergeStart(m: Memory, head: nat, bs: seq<Block>, live: seq<Block>)
    requires Threaded(m, head, bs)
    ensures head == 0 <==> bs == []
    ensures head == if bs == [] then 0 else bs[0].at
    ensures Kept(m, m, live)
  {
    hide HeadAt;
  }

  /** Joining two neighbours leaves live blocks alone, and the joint stays apart from them. */
  lemma JointLive(m: Memory, done: seq<Block>, rest: seq<Block>, live: seq<Block>)
    requires |rest| >= 2 && End(rest[0]) == rest[1].at && Separate(done + rest, live) && Handed(m, live)
    ensures var j := Block(rest[0].at, rest[0].size + rest[1].size);
            var m' := Store(m, j.at, Header(j.size, NextOf(rest, 1)));
            Separate(done + [j] + rest[2..], live) && Handed(m', live) && Kept(m, m', live)
  {
    hide HeadAt, Store, Outside, Same, Kept, Handed;
    var j := Block(rest[0].at, rest[0].size + rest[1].size);
    var h := Header(j.size, NextOf(rest, 1));
    var bs, cs, n := done + rest, done + [j] + rest[2..], |done|;
    assert bs[n] == rest[0] && bs[n + 1] == rest[1];
    forall k | 0 <= k < |live| ensures Apart(j, live[k]) && Apart(rest[0], live[k]) {
      assert Apart(bs[n], live[k]) && Apart(bs[n + 1], live[k]);
    }
    forall a, k | 0 <= a < |cs| && 0 <= k < |live| ensures Apart(cs[a], live[k]) {
      assert a != n ==> cs[a] == bs[Old(a, n)];
    }
    Stored(m, j.at, h);
    Wider(m, Store(m, j.at, h), Block(j.at, 0), rest[0]);
    OthersKept(m, Store(m, j.at, h), rest[0], live);
  }

  lemma CarvedIs(h: Heap, i: nat, n: nat)
    requires i < |h.free| && OFFSET <= n <= h.free[i].size
    ensures var b, g := h.free[i], Carved(h, i, n);
            var us := h.free[i := Block(b.at, b.size - n)];
            && g.free == (if b.size == n && i > 0 then Without(us, i) else us) && g.free != []
            && g.live == h.live + [Block(b.at + OFFSET + (b.size - n), n - OFFSET)]
  {
    var us := h.free[i := Block(h.free[i].at, h.free[i].size - n)];
    assert Without(us, i) == Without(h.free, i);
  }

  /** What the header of node `i` says. */
  lemma Node(m: Memory, head: nat, bs: seq<Block>, i: nat)
    requires Threaded(m, head, bs) && i < |bs|
    ensures var h := Header(bs[i].size, NextOf(bs, i)); bs[i].at > 0 && HeadAt(m, bs[i].at, h) && Load(m, bs[i].at) == h
    ensures head == bs[0].at
  {
    Loaded(m, bs[i].at, Header(bs[i].size, NextOf(bs, i)));
  }

  lemma Neighbours(bs: seq<Block>, i: nat)
    requires AllApart(bs) && 0 < i < |bs|
    ensures bs[i].at + OFFSET <= bs[i - 1].at || bs[i - 1].at + OFFSET <= bs[i].at
  {
    assert Apart(bs[i - 1], bs[i]);
  }

  lemma KeptStart(m: Memory, m': Memory, bs: seq<Block>)
    requires bs == [] || m' == m
    ensures Kept(m, m', bs)
  {
  }

  /** Writing a header again changes nothing. */
  lemma StoreSame(m: Memory, a: nat, h: Header)
    requires HeadAt(m, a, h)
    ensures Store(m, a, h) == m
  {
    hide Store;
    var r := Store(m, a, h);
    Stored(m, a, h);
    forall x | x in r || x in m ensures x in r && x in m && r[x] == m[x] {
    }
  }

  // ---------------------------------------------------------------- the arena

  /** The allocator's state: `head` is the global list, `m` the memory. `heap` says what the
      blocks are. The addresses that the system would map are parameters. */
  class Arena {
    var head: nat
    var m: Memory
    ghost var heap: Heap

    ghost predicate Valid()
      reads this
    {
      Agrees(m, head, heap)
    }

    /** `initialize_global_mem`. */
    constructor ()
      ensures Valid() && heap == EMPTY
    {
      head, m, heap := 0, map[], EMPTY;
    }

    /** `alloc_free_list`. */
    method AllocFreeList(page: nat)
      requires Valid() && head == 0 && FreshAt(heap, page, PAGE)
      modifies this
      ensures Valid() && heap == Started(old(heap), page) && heap.free != [] && heap.live == old(heap.live) == []
    {
      StartedInv(heap, page);
      head := page;
      m := Store(m, page, Header(PAGE - OFFSET, 0));
      heap := Started(heap, page);
    }

    /** The first node of at least `n` bytes, or 0, and the node before it, or the last. */
    method Search(n: nat) returns (prev: nat, next: nat, ghost i: nat)
      requires Valid() && heap.free != []
      ensures i == FirstFit(heap.free, n) && (next != 0 <==> i < |heap.free|)
      ensures next == if i < |heap.free| then heap.free[i].at else 0
      ensures prev == if i == 0 then 0 else heap.free[i - 1].at
    {
      hide Inv, HeadAt, Handed, Threaded, Load;
      prev, next, i := 0, head, 0;
      Node(m, head, heap.free, 0);
      while next != 0 && Load(m, next).size < n
        invariant i <= |heap.free| && (next != 0 <==> i < |heap.free|)
        invariant next == if i < |heap.free| then heap.free[i].at else 0
        invariant prev == if i == 0 then 0 else heap.free[i - 1].at
        invariant forall j :: 0 <= j < i ==> heap.free[j].size < n
        decreases |heap.free| - i
      {
        Node(m, head, heap.free, i);
        prev := next;
        next := Load(m, next).next;
        i := i + 1;
        if i < |heap.free| {
          Node(m, head, heap.free, i);
        }
      }
      if next != 0 {
        Node(m, head, heap.free, i);
      }
      FitIs(heap.free, n, i);
    }

    /** `_malloc_`: the address of the payload. What live blocks hold is untouched. */
    method Malloc(n: nat, page: nat, at: nat) returns (p: nat)
      requires Valid() && OFFSET <= n && Fits(n) && Answers(heap, n, page, at)
      modifies this
      ensures Valid() && heap == Allocator.Malloc(old(heap), n, page, at)
      ensures p == heap.live[|old(heap.live)|].at + OFFSET
      ensures Kept(old(m), m, old(heap.live))
    {
      hide Inv, HeadAt, Handed, Threaded, Kept;
      ghost var was := heap;
      ghost var m0 := m;
      Opening(m, head, heap);
      if head == 0 {
        AllocFreeList(page);
      }
      KeptStart(m0, m, was.live);
      ghost var m1 := m;
      var prev, next, i := Search(n);
      if next != 0 {
        p := Carve(prev, next, n, i);
      } else {
        var tmp := PAGE;
        while n > tmp
          invariant 0 < tmp && Doubled(tmp, n) == Doubled(PAGE, n)
          decreases n - tmp
        {
          tmp := tmp * 2;
        }
        p := Extend(prev, at, tmp, n);
      }
      KeptTrans(m0, m1, m, was.live);
    }

    /** Cuts `n` bytes from the tail of `next`; an emptied node that is not the head is
        unlinked. */
    method Carve(prev: nat, next: nat, n: nat, ghost i: nat) returns (p: nat)
      requires Valid() && i < |heap.free| && OFFSET <= n <= heap.free[i].size
      requires next == heap.free[i].at && prev == if i == 0 then 0 else heap.free[i - 1].at
      modifies this
      ensures Valid() && heap == Carved(old(heap), i, n)
      ensures p == heap.live[|old(heap.live)|].at + OFFSET && Kept(old(m), m, old(heap.live))
    {
      hide Inv, HeadAt, Handed, Kept, Mapped, Store, Threaded, Outside, Apart, Load, Carved;
      ghost var b, was, m0, g := heap.free[i], heap, m, Carved(heap, i, n);
      ghost var us := was.free[i := Block(b.at, b.size - n)];
      ghost var cut := Block(b.at + OFFSET + (b.size - n), n - OFFSET);
      CarvedInv(was, i, n);
      CarvedIs(was, i, n);
      InvMeans(was);
      InvMeans(g);
      Shrink(m, head, was, i, n);
      ShrunkApart(was.free, i, n);
      Node(m, head, was.free, i);
      if i > 0 {
        Node(m, head, was.free, i - 1);
      }
      m := Store(m, next, Load(m, next).(size := Load(m, next).size - n));
      ghost var m1 := m;
      KeptStart(m1, m, was.live);
      Node(m, head, us, i);
      if prev != 0 && Load(m, next).size == 0 {
        Node(m, head, us, i - 1);
        Unlink(m, head, us, i);
        Neighbours(us, i);
        ghost var h := Header(us[i - 1].size, NextOf(us, i));
        HeadKept(m, next, Header(us[i].size, NextOf(us, i)), prev, h);
        NodeMemory(m, was, i - 1, h);
        m := Store(m, prev, Load(m, prev).(next := Load(m, next).next));
        Loaded(m, next, Header(us[i].size, NextOf(us, i)));
      } else if prev == 0 && Load(m, next).size == 0 {
        StoreSame(m, head, Load(m, head));
        m := Store(m, head, Load(m, head).(next := Load(m, next).next));
      }
      KeptTrans(m0, m1, m, was.live);
      ghost var m2 := m;
      HandOut(m, head, g.free, was.live, cut);
      p := InitAlloced(next + OFFSET + Load(m, next).size, n);
      KeptTrans(m0, m2, m, was.live);
      heap := g;
    }

    /** `init_alloced_ptr`. */
    method InitAlloced(a: nat, n: nat) returns (p: nat)
      requires OFFSET <= n
      modifies this`m
      ensures m == Store(old(m), a, Header(n - OFFSET, 0)) && p == a + OFFSET
    {
      m := Store(m, a, Header(n - OFFSET, 0));
      p := a + OFFSET;
    }

    /** A new region of `tmp` bytes behind the last node; its tail is handed out. */
    method Extend(prev: nat, at: nat, tmp: nat, n: nat) returns (p: nat)
      requires Valid() && heap.free != [] && prev == heap.free[|heap.free| - 1].at
      requires OFFSET <= n && n + OFFSET <= tmp && FreshAt(heap, at, tmp)
      modifies this
      ensures Valid() && heap == Grown(old(heap), at, tmp, n)
      ensures p == heap.live[|old(heap.live)|].at + OFFSET && Kept(old(m), m, old(heap.live))
    {
      hide Inv, HeadAt, Handed, Kept, Mapped, Store, Outside, Same, Threaded, Load, Apart;
      ghost var n' := |heap.free| - 1;
      ghost var z, b := heap.free[n'], Block(at, tmp - n - OFFSET);
      GrownInv(heap, at, tmp, n);
      ghost var g := Grown(heap, at, tmp, n);
      InvMeans(g);
      GrowMemory(m, head, heap, at, tmp, n);
      Neighbours(g.free, n' + 1);
      Node(m, head, heap.free, n');
      HeadKept(m, z.at, Header(z.size, 0), at, Header(b.size, 0));
      m := Store(m, at, Header(tmp - n - OFFSET, 0));
      Loaded(m, prev, Header(z.size, 0));
      m := Store(m, prev, Load(m, prev).(next := at));
      p := InitAlloced(at + OFFSET + (tmp - n - OFFSET), n);
      heap := g;
    }

    /** `merge_list`: one pass over the list `bs`. */
    method MergeList(ghost bs: seq<Block>, ghost live: seq<Block>)
      requires Threaded(m, head, bs) && AllApart(bs) && Handed(m, live) && Separate(bs, live)
      modifies this`m
      ensures Threaded(m, head, Merge(bs)) && Handed(m, live) && Kept(old(m), m, live)
    {
      hide HeadAt, Handed, Kept, Store, Threaded, Load, Apart, Same, Outside;
      ghost var done, rest := [], bs;
      var next := head;
      assert [] + bs == bs;
      MergeStart(m, head, bs, live);
      while next != 0
        invariant Threaded(m, head, done + rest) && AllApart(done + rest) && Separate(done + rest, live)
        invariant next == (if rest == [] then 0 else rest[0].at) && (next == 0 <==> rest == [])
        invariant done + Merge(rest) == Merge(bs)
        invariant Handed(m, live) && Kept(old(m), m, live)
        decreases |rest|
      {
        ghost var m1 := m;
        ghost var joined := |rest| > 1 && End(rest[0]) == rest[1].at;
        MergeAhead(done, rest);
        MergeAt(next, done, rest, live);
        KeptTrans(old(m), m1, m, live);
        done, rest := done + [if joined then Block(rest[0].at, rest[0].size + rest[1].size) else rest[0]], if joined
          then rest[2..] else rest[1..];
        NodeAfter(m, head, done, rest);
        next := Load(m, next).next;
      }
      assert done + [] == done;
    }

    /** One node of the pass: it swallows its neighbour if they touch. */
    method MergeAt(next: nat, ghost done: seq<Block>, ghost rest: seq<Block>, ghost live: seq<Block>)
      requires rest != [] && next == rest[0].at
      requires Threaded(m, head, done + rest) && AllApart(done + rest) && Handed(m, live) && Separate(done + rest, live)
      modifies this`m
      ensures var joined := |rest| > 1 && End(rest[0]) == rest[1].at;
              var done' := done + [if joined then Block(rest[0].at, rest[0].size + rest[1].size) else rest[0]];
              var rest' := if joined then rest[2..] else rest[1..];
              Threaded(m, head, done' + rest') && AllApart(done' + rest') && Separate(done' + rest', live)
      ensures Handed(m, live) && Kept(old(m), m, live)
    {
      hide HeadAt, Handed, Kept, Store, Threaded, Load, Apart, Same, Outside, AllApart, Separate;
      var prev := next;
      NodesAt(m, head, done, rest);
      var h := Load(m, next);
      if h.next != 0 && next + OFFSET + h.size == h.next {
        Joint(m, head, done, rest);
        JointApart(done, rest);
        JointLive(m, done, rest, live);
        m := Store(m, prev, Header(h.size + Load(m, h.next).size, Load(m, h.next).next));
      } else {
        KeptStart(m, m, live);
        assert done + [rest[0]] + rest[1..] == done + rest;
      }
    }

    /** `_free_` of the payload at `p`, which is live block `i`. */
    method Release(p: nat, ghost i: nat)
      requires Valid() && (p != 0 ==> i < |heap.live| && p == heap.live[i].at + OFFSET)
      modifies this
      ensures Valid()
      ensures p == 0 ==> heap == old(heap) && m == old(m)
      ensures p != 0 ==> heap == Free(old(heap), i) && Kept(old(m), m, Without(old(heap.live), i))
    {
      hide Inv, HeadAt, Handed, Kept, Store, Threaded, Load, Apart, Same, Outside, Free, Mapped, Merge;
      if p == 0 {
        return;
      }
      ghost var was, b, rest, m0 := heap, heap.live[i], Without(heap.live, i), m;
      var ptr := p - OFFSET;
      FreeInv(was, i);
      FreeIs(was, i);
      Taken(m, head, was, i);
      KeptStart(m, m, rest);
      if Load(m, ptr).size == 0 {
        heap := Free(was, i);
        return;
      }
      ghost var bs := was.free;
      var linked := Link(ptr, i);
      if linked {
        bs := bs + [b];
      }
      ghost var m1 := m;
      MergeList(bs, rest);
      KeptTrans(m0, m1, m, rest);
      heap := Free(was, i);
    }

    /** The first half of `_free_`: the walk along the list, and the insertion. It is made only
        behind the last node, and only when all nodes lie before `ptr`. */
    method Link(ptr: nat, ghost i: nat) returns (linked: bool)
      requires Valid() && i < |heap.live| && ptr == heap.live[i].at
      modifies this`m
      ensures linked == AllBefore(heap.free, heap.live[i])
      ensures linked ==> Threaded(m, head, heap.free + [heap.live[i]])
      ensures !linked ==> m == old(m)
      ensures Handed(m, Without(heap.live, i)) && Kept(old(m), m, Without(heap.live, i))
    {
      hide Inv, HeadAt, Handed, Kept, Store, Threaded, Load, Apart, Same, Outside, Mapped;
      ghost var b, rest := heap.live[i], Without(heap.live, i);
      Taken(m, head, heap, i);
      KeptStart(m, m, rest);
      var prev, next := 0, head;
      ghost var j := 0;
      Node(m, head, heap.free, 0);
      while Load(m, next).next != 0 && next < ptr
        invariant j < |heap.free| && next == heap.free[j].at && m == old(m)
        invariant Load(m, next) == Header(heap.free[j].size, NextOf(heap.free, j)) && next != 0
        invariant prev == if j == 0 then 0 else next
        invariant forall k :: 0 <= k < j ==> heap.free[k].at < ptr
        decreases |heap.free| - j
      {
        prev := Load(m, next).next;
        next := Load(m, next).next;
        j := j + 1;
        Node(m, head, heap.free, j);
      }
      LastNode(m, head, heap.free, j);
      linked := false;
      if next != 0 && next < ptr {
        LinkMemory(m, head, heap, i);
        Neighbours(heap.free + [b], |heap.free|);
        Node(m, head, heap.free, j);
        HeadKept(m, next, Load(m, next), ptr, Header(b.size, 0));
        ghost var z := Load(m, next);
        m := Store(m, ptr, Load(m, ptr).(next := Load(m, next).next));
        Loaded(m, next, z);
        m := Store(m, next, Load(m, next).(next := ptr));
        linked := true;
      } else if prev != 0 && prev < ptr {
        assert false;
      }
    }

    /** `_realloc_`: a new block, the old contents, the old block freed. */
    method Realloc(p: nat, oldSize: nat, size: nat, page: nat, at: nat, ghost i: nat) returns (q: nat)
      requires Valid() && (size != 0 ==> Fits(size + OFFSET) && Answers(heap, size + OFFSET, page, at))
      requires p != 0 ==> i < |heap.live| && p == heap.live[i].at + OFFSET && oldSize <= heap.live[i].size
      requires p != 0 && size != 0 ==> oldSize <= size
      modifies this
      ensures Valid()
      ensures p == 0 && size == 0 ==> q == 0 && heap == old(heap) && m == old(m)
      ensures p == 0 && size != 0 ==> heap == Allocator.Malloc(old(heap), size + OFFSET, page, at)
      ensures p == 0 && size != 0 ==> q == heap.live[|old(heap.live)|].at + OFFSET && Kept(old(m), m, old(heap.live))
      ensures p != 0 && size == 0 ==> q == 0 && heap == Free(old(heap), i)
      ensures p != 0 && size != 0 ==> heap == Free(Allocator.Malloc(old(heap), size + OFFSET, page, at), i)
      ensures p != 0 ==> Kept(old(m), m, Without(old(heap.live), i))
      ensures p != 0 && size != 0 ==> CopyOf(old(m), p, m, q, oldSize)
      ensures p != 0 && size != 0 ==> q >= OFFSET && heap.live[|old(heap.live)| - 1] == Block(q - OFFSET, size)
    {
      hide Inv, HeadAt, Handed, Kept, Store, Threaded, Load, Apart, Same, Outside, Free, Mapped, Merge,
           Allocator.Malloc, Fits, Answers;
      ghost var was, m0 := heap, m;
      if p == 0 && size != 0 {
        q := Malloc(size + OFFSET, page, at);
        return;
      }
      if p == 0 {
        return 0;
      }
      if size == 0 {
        Release(p, i);
        return 0;
      }
      q := Malloc(size + OFFSET, page, at);
      ghost var m1, mid, n := m, heap, |was.live|;
      assert mid.live[i] == was.live[i];
      CopyApart(mid, i, n, oldSize);
      CopyCells(p, q, oldSize, n);
      ghost var m2 := m;
      Release(p, i);
      FreeIs(mid, i);
      Copied(m0, m1, m2, m, was.live, mid.live, i, oldSize);
    }

    /** `memcpy` of `n` bytes into live block `j`. */
    method CopyCells(p: nat, q: nat, n: nat, ghost j: nat)
      requires Valid() && j < |heap.live| && q == heap.live[j].at + OFFSET && n <= heap.live[j].size
      requires p + n <= heap.live[j].at || End(heap.live[j]) <= p
      modifies this`m
      ensures Valid() && Elsewhere(old(m), m, heap.live[j])
      ensures CopyOf(old(m), p, m, q, n)
    {
      hide Inv, HeadAt, Handed, Threaded;
      var k := 0;
      while k < n
        invariant k <= n && Elsewhere(old(m), m, heap.live[j])
        invariant CopyOf(old(m), p, m, q, k)
      {
        CopyStep(old(m), m, p, q, k, heap.live[j]);
        m := Copied1(m, p + k, q + k);
        k := k + 1;
      }
      PayloadWritten(old(m), m, head, heap, j);
    }

    /** A program writes a byte of its own block. */
    method Write(i: nat, off: nat, v: nat, ghost j: nat)
      requires Valid() && j < |heap.live| && i == heap.live[j].at + OFFSET && off < heap.live[j].size
      modifies this`m
      ensures Valid() && At(m, i + off) == Raw(v) && Kept(old(m), m, Without(heap.live, j))
    {
      hide Inv, HeadAt, Handed, Threaded, Kept;
      m := m[i + off := Raw(v)];
      PayloadWritten(old(m), m, head, heap, j);
    }
  }
}
