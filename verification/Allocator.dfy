/** The free-list allocator of mem.c on lists of blocks. */
module Allocator {

  const OFFSET: nat := 16
  const PAGE: nat := 16384

  /** A header at `at`, followed by `size` bytes of payload. */
  datatype Block = Block(at: nat, size: nat)

  datatype Region = Region(at: nat, len: nat)

  /** `free` is the free list in its order. `live` are the blocks handed out. `lost` counts the
      mapped bytes that belong to neither. */
  datatype Heap = Heap(free: seq<Block>, live: seq<Block>, regions: seq<Region>, lost: nat)

  function End(b: Block): nat {
    b.at + OFFSET + b.size
  }

  // ------------------------------------------------------------ separation

  predicate Apart(a: Block, b: Block) {
    End(a) <= b.at || End(b) <= a.at
  }

  predicate Clear(a: Region, b: Region) {
    a.at + a.len <= b.at || b.at + b.len <= a.at
  }

  predicate Holds(r: Region, x: nat) {
    r.at <= x < r.at + r.len
  }

  predicate Known(x: nat, rs: seq<Region>) {
    exists k :: 0 <= k < |rs| && Holds(rs[k], x)
  }

  /** Every byte of the block is mapped; touching regions may share a merged block. */
  predicate Mapped(b: Block, rs: seq<Region>) {
    forall x :: b.at <= x < End(b) ==> Known(x, rs)
  }

  predicate AllApart(bs: seq<Block>) {
    forall i, j :: 0 <= i < j < |bs| ==> Apart(bs[i], bs[j])
  }

  predicate Separate(bs: seq<Block>, cs: seq<Block>) {
    forall i, j :: 0 <= i < |bs| && 0 <= j < |cs| ==> Apart(bs[i], cs[j])
  }

  predicate AllMapped(bs: seq<Block>, rs: seq<Region>) {
    forall i :: 0 <= i < |bs| ==> Mapped(bs[i], rs)
  }

  predicate AllClear(rs: seq<Region>) {
    forall i, j :: 0 <= i < j < |rs| ==> Clear(rs[i], rs[j])
  }

  // ---------------------------------------------------------------- ledger

  function Extents(bs: seq<Block>): nat {
    if bs == [] then 0 else OFFSET + bs[0].size + Extents(bs[1..])
  }

  function Lengths(rs: seq<Region>): nat {
    if rs == [] then 0 else rs[0].len + Lengths(rs[1..])
  }

  /** Listed and live blocks are disjoint and lie in mapped regions, and every mapped byte is
      accounted for. */
  predicate Inv(h: Heap) {
    && AllApart(h.free) && AllApart(h.live) && Separate(h.free, h.live)
    && AllMapped(h.free, h.regions) && AllMapped(h.live, h.regions)
    && AllClear(h.regions)
    && (forall k :: 0 <= k < |h.regions| ==> h.regions[k].at > 0)
    && Lengths(h.regions) == Extents(h.free) + Extents(h.live) + h.lost
  }

  /** What the system promises about a new mapping. */
  predicate FreshAt(h: Heap, at: nat, len: nat) {
    at > 0 && forall k :: 0 <= k < |h.regions| ==> Clear(Region(at, len), h.regions[k])
  }

  // ------------------------------------------------------------ operations

  /** The first listed block of at least `n` bytes. */
  function FirstFit(bs: seq<Block>, n: nat): (i: nat)
    ensures i <= |bs|
    ensures i < |bs| ==> bs[i].size >= n
    ensures forall j :: 0 <= j < i ==> bs[j].size < n
  {
    if bs == [] then 0 else if bs[0].size >= n then 0 else 1 + FirstFit(bs[1..], n)
  }

  /** `tmp` doubled until it holds `n`. */
  function Doubled(tmp: nat, n: nat): (t: nat)
    requires tmp > 0
    ensures t >= n
    decreases n - tmp
  {
    if n > tmp then Doubled(tmp * 2, n) else tmp
  }

  /** The first page, when there is no list yet. */
  function Started(h: Heap, page: nat): Heap {
    if h.free == [] then h.(free := [Block(page, PAGE - OFFSET)], regions := h.regions + [Region(page, PAGE)]) else h
  }

  /** A block of `n` bytes, header included, cut from the tail of listed block `i`. */
  function Carved(h: Heap, i: nat, n: nat): Heap
    requires i < |h.free| && OFFSET <= n <= h.free[i].size
  {
    var b := h.free[i];
    var rest := b.size - n;
    var cut := Block(b.at + OFFSET + rest, n - OFFSET);
    if rest == 0 && i > 0 then
      h.(free := h.free[..i] + h.free[i + 1..], live := h.live + [cut], lost := h.lost + OFFSET)
    else
      h.(free := h.free[i := Block(b.at, rest)], live := h.live + [cut])
  }

  /** A new region of `len` bytes, its tail handed out at once. */
  function Grown(h: Heap, at: nat, len: nat, n: nat): Heap
    requires OFFSET <= n && n + OFFSET <= len
  {
    h.(free := h.free + [Block(at, len - n - OFFSET)],
       live := h.live + [Block(at + len - n, n - OFFSET)],
       regions := h.regions + [Region(at, len)])
  }

  /** The region a request of `n` bytes maps holds the request and its own header. */
  predicate Fits(n: nat) {
    n + OFFSET <= Doubled(PAGE, n)
  }

  /** `_malloc_(n)`. `page` and `at` are what the system would answer. */
  function Malloc(h: Heap, n: nat, page: nat, at: nat): (g: Heap)
    requires OFFSET <= n && Fits(n)
    ensures |g.live| == |h.live| + 1 && g.live[..|h.live|] == h.live && g.live[|h.live|].size == n - OFFSET
  {
    var s := Started(h, page);
    var i := FirstFit(s.free, n);
    if i < |s.free| then Carved(s, i, n) else Grown(s, at, Doubled(PAGE, n), n)
  }

  /** `merge_list`: one pass that joins a node with its neighbour in the list where they touch.
      The second header's bytes are not counted into the joint payload. */
  function Merge(bs: seq<Block>): seq<Block>
    decreases |bs|
  {
    if |bs| < 2 then bs
    else if End(bs[0]) == bs[1].at then [Block(bs[0].at, bs[0].size + bs[1].size)] + Merge(bs[2..])
    else [bs[0]] + Merge(bs[1..])
  }

  function Merges(bs: seq<Block>): nat
    decreases |bs|
  {
    if |bs| < 2 then 0
    else if End(bs[0]) == bs[1].at then 1 + Merges(bs[2..])
    else Merges(bs[1..])
  }

  /** Every listed block lies before `b`: only then is `b` linked back. */
  predicate AllBefore(bs: seq<Block>, b: Block) {
    forall i :: 0 <= i < |bs| ==> bs[i].at < b.at
  }

  function Without(bs: seq<Block>, i: nat): seq<Block>
    requires i < |bs|
  {
    bs[..i] + bs[i + 1..]
  }

  /** `_free_` of live block `i`. */
  function Free(h: Heap, i: nat): Heap
    requires i < |h.live|
  {
    var b := h.live[i];
    var rest := h.(live := Without(h.live, i));
    if b.size == 0 then rest.(lost := h.lost + OFFSET)
    else if AllBefore(h.free, b) then
      rest.(free := Merge(h.free + [b]), lost := h.lost + OFFSET * Merges(h.free + [b]))
    else
      rest.(free := Merge(h.free), lost := h.lost + OFFSET * Merges(h.free) + OFFSET + b.size)
  }

  // ---------------------------------------------------------- ledger lemmas

  lemma {:induction false} ExtentsAppend(a: seq<Block>, b: seq<Block>)
    ensures Extents(a + b) == Extents(a) + Extents(b)
    decreases |a|
  {
    if a == [] {
      assert a + b == b;
    } else {
      assert (a + b)[1..] == a[1..] + b;
      ExtentsAppend(a[1..], b);
    }
  }

  lemma ExtentsOne(b: Block)
    ensures Extents([b]) == OFFSET + b.size
  {
    assert [b][1..] == [];
  }

  lemma ExtentsSplit(bs: seq<Block>, i: nat)
    requires i < |bs|
    ensures Extents(bs) == Extents(bs[..i]) + OFFSET + bs[i].size + Extents(bs[i + 1..])
    ensures Extents(Without(bs, i)) == Extents(bs) - OFFSET - bs[i].size
  {
    assert bs == bs[..i] + bs[i..];
    ExtentsAppend(bs[..i], bs[i..]);
    assert bs[i..][1..] == bs[i + 1..];
    ExtentsAppend(bs[..i], bs[i + 1..]);
  }

  lemma ExtentsUpdate(bs: seq<Block>, i: nat, b: Block)
    requires i < |bs|
    ensures Extents(bs[i := b]) == Extents(bs) - bs[i].size + b.size
  {
    var cs := bs[i := b];
    ExtentsSplit(bs, i);
    ExtentsSplit(cs, i);
    assert cs[..i] == bs[..i] && cs[i + 1..] == bs[i + 1..];
  }

  lemma {:induction false} LengthsAppend(a: seq<Region>, r: Region)
    ensures Lengths(a + [r]) == Lengths(a) + r.len
    decreases |a|
  {
    if a == [] {
      assert (a + [r])[1..] == [];
    } else {
      assert (a + [r])[1..] == a[1..] + [r];
      LengthsAppend(a[1..], r);
    }
  }

  lemma {:induction false} MergeExtents(bs: seq<Block>)
    ensures Extents(bs) == Extents(Merge(bs)) + OFFSET * Merges(bs)
    decreases |bs|
  {
    if |bs| >= 2 {
      if End(bs[0]) == bs[1].at {
        MergeExtents(bs[2..]);
        assert bs[1..][1..] == bs[2..];
        ExtentsAppend([Block(bs[0].at, bs[0].size + bs[1].size)], Merge(bs[2..]));
        ExtentsOne(Block(bs[0].at, bs[0].size + bs[1].size));
      } else {
        MergeExtents(bs[1..]);
        ExtentsAppend([bs[0]], Merge(bs[1..]));
        ExtentsOne(bs[0]);
      }
    }
  }

  // ------------------------------------------------------- separation lemmas

  /** A block apart from all of `bs` is apart from all of `Merge(bs)`. */
  lemma {:induction false} MergeApart(bs: seq<Block>, b: Block)
    requires forall i :: 0 <= i < |bs| ==> Apart(bs[i], b)
    ensures forall i :: 0 <= i < |Merge(bs)| ==> Apart(Merge(bs)[i], b)
    decreases |bs|
  {
    if |bs| >= 2 {
      if End(bs[0]) == bs[1].at {
        var joint := Block(bs[0].at, bs[0].size + bs[1].size);
        assert Apart(bs[0], b) && Apart(bs[1], b);
        MergeApart(bs[2..], b);
        assert Apart(joint, b);
        assert Merge(bs) == [joint] + Merge(bs[2..]);
      } else {
        MergeApart(bs[1..], b);
        assert Merge(bs) == [bs[0]] + Merge(bs[1..]);
      }
    }
  }

  lemma {:induction false} MergeKeepsApart(bs: seq<Block>)
    requires AllApart(bs)
    ensures AllApart(Merge(bs))
    decreases |bs|
  {
    if |bs| >= 2 {
      if End(bs[0]) == bs[1].at {
        var joint := Block(bs[0].at, bs[0].size + bs[1].size);
        var rest := bs[2..];
        forall i | 0 <= i < |rest| ensures Apart(rest[i], joint) {
          assert rest[i] == bs[i + 2];
          assert Apart(bs[0], bs[i + 2]) && Apart(bs[1], bs[i + 2]);
        }
        MergeKeepsApart(rest);
        MergeApart(rest, joint);
        assert Merge(bs) == [joint] + Merge(rest);
      } else {
        MergeKeepsApart(bs[1..]);
        MergeApart(bs[1..], bs[0]);
        assert Merge(bs) == [bs[0]] + Merge(bs[1..]);
      }
    }
  }

  lemma {:induction false} MergeMapped(bs: seq<Block>, rs: seq<Region>)
    requires AllMapped(bs, rs)
    ensures AllMapped(Merge(bs), rs)
    decreases |bs|
  {
    if |bs| >= 2 {
      if End(bs[0]) == bs[1].at {
        var joint := Block(bs[0].at, bs[0].size + bs[1].size);
        assert Mapped(bs[0], rs) && Mapped(bs[1], rs);
        assert Mapped(joint, rs);
        MergeMapped(bs[2..], rs);
        assert Merge(bs) == [joint] + Merge(bs[2..]);
      } else {
        MergeMapped(bs[1..], rs);
        assert Merge(bs) == [bs[0]] + Merge(bs[1..]);
      }
    }
  }

  lemma MoreRegions(bs: seq<Block>, rs: seq<Region>, r: Region)
    requires AllMapped(bs, rs)
    ensures AllMapped(bs, rs + [r])
  {
    forall i, x | 0 <= i < |bs| && bs[i].at <= x < End(bs[i]) ensures Known(x, rs + [r]) {
      assert Mapped(bs[i], rs) && Known(x, rs);
      var k :| 0 <= k < |rs| && Holds(rs[k], x);
      assert Holds((rs + [r])[k], x);
    }
  }

  lemma InLast(b: Block, rs: seq<Region>, r: Region)
    requires r.at <= b.at && End(b) <= r.at + r.len
    ensures Mapped(b, rs + [r])
  {
    forall x | b.at <= x < End(b) ensures Known(x, rs + [r]) {
      assert Holds((rs + [r])[|rs|], x);
    }
  }

  lemma NotKnown(h: Heap, at: nat, len: nat, x: nat)
    requires FreshAt(h, at, len) && at <= x < at + len
    ensures !Known(x, h.regions)
  {
    forall k | 0 <= k < |h.regions| ensures !Holds(h.regions[k], x) {
      assert Clear(Region(at, len), h.regions[k]);
    }
  }

  /** A block of mapped bytes lies apart from a block inside a fresh region. */
  lemma FreshApart(h: Heap, b: Block, c: Block, at: nat, len: nat)
    requires FreshAt(h, at, len) && Mapped(b, h.regions) && at <= c.at && End(c) <= at + len
    ensures Apart(b, c)
  {
    hide FreshAt, Known;
    if !Apart(b, c) {
      NotKnown(h, at, len, if b.at < c.at then c.at else b.at);
    }
  }

  lemma FreshClear(h: Heap, at: nat, len: nat)
    requires AllClear(h.regions) && FreshAt(h, at, len)
    ensures AllClear(h.regions + [Region(at, len)])
  {
    var rs := h.regions + [Region(at, len)];
    forall i, j | 0 <= i < j < |rs| ensures Clear(rs[i], rs[j]) {
      if j == |rs| - 1 {
        assert Clear(Region(at, len), h.regions[i]);
      }
    }
  }

  // ---------------------------------------------- what every call keeps

  lemma StartedInv(h: Heap, page: nat)
    requires Inv(h) && (h.free == [] ==> FreshAt(h, page, PAGE))
    ensures Inv(Started(h, page)) && Started(h, page).free != [] && Started(h, page).lost == h.lost
  {
    if h.free == [] {
      var b, r := Block(page, PAGE - OFFSET), Region(page, PAGE);
      InLast(b, h.regions, r);
      MoreRegions(h.live, h.regions, r);
      FreshClear(h, page, PAGE);
      LengthsAppend(h.regions, r);
      ExtentsOne(b);
      forall j | 0 <= j < |h.live| ensures Apart(b, h.live[j]) {
        assert Mapped(h.live[j], h.regions);
        FreshApart(h, h.live[j], b, page, PAGE);
      }
    }
  }

  /** The two parts of a block that has been cut lie apart, within it. */
  lemma CutParts(b: Block, n: nat)
    requires OFFSET <= n <= b.size
    ensures var rest, cut := Block(b.at, b.size - n), Block(b.at + OFFSET + b.size - n, n - OFFSET);
            && End(rest) == cut.at && End(cut) == End(b)
            && (forall c :: Apart(b, c) ==> Apart(rest, c) && Apart(cut, c) && Apart(c, rest) && Apart(c, cut))
            && (forall rs :: Mapped(b, rs) ==> Mapped(rest, rs) && Mapped(cut, rs))
  {
  }

  lemma CarvedInv(h: Heap, i: nat, n: nat)
    requires Inv(h) && i < |h.free| && OFFSET <= n <= h.free[i].size
    ensures Inv(Carved(h, i, n))
    ensures Carved(h, i, n).lost == h.lost + if h.free[i].size == n && i > 0 then OFFSET else 0
  {
    var b, g := h.free[i], Carved(h, i, n);
    var rest, cut := Block(b.at, b.size - n), g.live[|h.live|];
    CutParts(b, n);
    CarvedApart(h, i, n, rest, cut);
    ExtentsAppend(h.live, [cut]);
    ExtentsOne(cut);
    ExtentsUpdate(h.free, i, rest);
    ExtentsSplit(h.free, i);
  }

  lemma CarvedApart(h: Heap, i: nat, n: nat, rest: Block, cut: Block)
    requires Inv(h) && i < |h.free| && OFFSET <= n <= h.free[i].size
    requires rest == Block(h.free[i].at, h.free[i].size - n)
             && cut == Block(h.free[i].at + OFFSET + h.free[i].size - n, n - OFFSET)
    ensures var g := Carved(h, i, n);
            && AllApart(g.free) && AllApart(g.live) && Separate(g.free, g.live)
            && AllMapped(g.free, g.regions) && AllMapped(g.live, g.regions)
  {
    hide Extents, Mapped;
    var b, g := h.free[i], Carved(h, i, n);
    CutParts(b, n);
    assert Mapped(b, h.regions);
    forall j | 0 <= j < |h.free| && j != i
      ensures Apart(h.free[j], rest) && Apart(rest, h.free[j]) && Apart(h.free[j], cut)
    {
      assert if j < i then Apart(h.free[j], b) else Apart(b, h.free[j]);
    }
    forall j | 0 <= j < |h.live| ensures Apart(rest, h.live[j]) && Apart(h.live[j], cut) {
      assert Apart(b, h.live[j]);
    }
    var u, w := h.free[i := rest], Without(h.free, i);
    assert AllApart(u) && Separate(u, h.live + [cut]) && AllMapped(u, h.regions);
    assert AllApart(w) && Separate(w, h.live + [cut]) && AllMapped(w, h.regions);
  }

  lemma GrownInv(h: Heap, at: nat, len: nat, n: nat)
    requires Inv(h) && OFFSET <= n && n + OFFSET <= len && FreshAt(h, at, len)
    ensures Inv(Grown(h, at, len, n)) && Grown(h, at, len, n).lost == h.lost
  {
    hide Extents, Lengths, Mapped;
    var g, r := Grown(h, at, len, n), Region(at, len);
    var b, c := Block(at, len - n - OFFSET), Block(at + len - n, n - OFFSET);
    InLast(b, h.regions, r);
    InLast(c, h.regions, r);
    MoreRegions(h.free, h.regions, r);
    MoreRegions(h.live, h.regions, r);
    FreshClear(h, at, len);
    LengthsAppend(h.regions, r);
    ExtentsAppend(h.free, [b]);
    ExtentsAppend(h.live, [c]);
    ExtentsOne(b);
    ExtentsOne(c);
    forall j | 0 <= j < |h.free| ensures Apart(h.free[j], b) && Apart(h.free[j], c) {
      assert Mapped(h.free[j], h.regions);
      FreshApart(h, h.free[j], b, at, len);
      FreshApart(h, h.free[j], c, at, len);
    }
    forall j | 0 <= j < |h.live| ensures Apart(b, h.live[j]) && Apart(h.live[j], c) {
      assert Mapped(h.live[j], h.regions);
      FreshApart(h, h.live[j], b, at, len);
      FreshApart(h, h.live[j], c, at, len);
    }
  }

  /** The bytes a call of `_malloc_` loses. */
  function MallocLoss(h: Heap, n: nat, page: nat): nat {
    var s := Started(h, page);
    var i := FirstFit(s.free, n);
    if 0 < i < |s.free| && s.free[i].size == n then OFFSET else 0
  }

  /** What the system must answer for a call of `_malloc_`. */
  predicate Answers(h: Heap, n: nat, page: nat, at: nat) {
    && (h.free == [] ==> FreshAt(h, page, PAGE))
    && FreshAt(Started(h, page), at, Doubled(PAGE, n))
  }

  lemma MallocInv(h: Heap, n: nat, page: nat, at: nat)
    requires Inv(h) && OFFSET <= n && Fits(n) && Answers(h, n, page, at)
    ensures Inv(Malloc(h, n, page, at))
    ensures Malloc(h, n, page, at).lost == h.lost + MallocLoss(h, n, page)
    ensures |Malloc(h, n, page, at).live| == |h.live| + 1 && Malloc(h, n, page, at).live[..|h.live|] == h.live
    ensures Malloc(h, n, page, at).live[|h.live|].size == n - OFFSET
  {
    hide Inv, Answers;
    assert Answers(h, n, page, at) ==>
           (h.free == [] ==> FreshAt(h, page, PAGE)) && FreshAt(Started(h, page), at, Doubled(PAGE, n)) by {
      AnswersMean(h, n, page, at);
    }
    StartedInv(h, page);
    var s := Started(h, page);
    var i := FirstFit(s.free, n);
    if i < |s.free| {
      CarvedInv(s, i, n);
    } else {
      GrownInv(s, at, Doubled(PAGE, n), n);
    }
  }

  lemma AnswersMean(h: Heap, n: nat, page: nat, at: nat)
    ensures Answers(h, n, page, at) ==>
            (h.free == [] ==> FreshAt(h, page, PAGE)) && FreshAt(Started(h, page), at, Doubled(PAGE, n))
  {
  }

  /** The bytes a call of `_free_` loses: 16 for each merge, and the whole block when it has no
      payload or is not linked back. */
  function FreeLoss(h: Heap, i: nat): nat
    requires i < |h.live|
  {
    var b := h.live[i];
    if b.size == 0 then OFFSET
    else if AllBefore(h.free, b) then OFFSET * Merges(h.free + [b])
    else OFFSET * Merges(h.free) + OFFSET + b.size
  }

  lemma MergedSeparate(bs: seq<Block>, cs: seq<Block>)
    requires Separate(bs, cs)
    ensures Separate(Merge(bs), cs)
  {
    forall j | 0 <= j < |cs| ensures forall i :: 0 <= i < |Merge(bs)| ==> Apart(Merge(bs)[i], cs[j]) {
      MergeApart(bs, cs[j]);
    }
  }

  lemma FreeInv(h: Heap, i: nat)
    requires Inv(h) && i < |h.live|
    ensures Inv(Free(h, i)) && Free(h, i).lost == h.lost + FreeLoss(h, i) && Free(h, i).regions == h.regions
  {
    hide Extents, Merge, Merges, Apart, Mapped;
    var b, rest := h.live[i], Without(h.live, i);
    ExtentsSplit(h.live, i);
    Remaining(h, i);
    if b.size > 0 {
      var bs := if AllBefore(h.free, b) then h.free + [b] else h.free;
      MergeKeepsApart(bs);
      MergeMapped(bs, h.regions);
      MergedSeparate(bs, rest);
      MergeExtents(bs);
      ExtentsAppend(h.free, [b]);
      ExtentsOne(b);
    }
  }

  /** Taking a block out of the live ones, and listing it, keeps all apart. */
  lemma Remaining(h: Heap, i: nat)
    requires Inv(h) && i < |h.live|
    ensures var b, rest := h.live[i], Without(h.live, i);
            && AllApart(rest) && AllMapped(rest, h.regions) && Separate(h.free, rest)
            && AllApart(h.free + [b]) && AllMapped(h.free + [b], h.regions) && Separate(h.free + [b], rest)
  {
    hide Extents, Mapped;
    var b, rest := h.live[i], Without(h.live, i);
    forall j | 0 <= j < |rest| ensures Apart(b, rest[j]) {
      assert if j < i then Apart(h.live[j], b) else Apart(b, h.live[j + 1]);
    }
  }

  // ------------------------------------------------------- first fit, growth

  /** No region is mapped while some listed block is large enough, and the block handed out is
      the tail of the first such block. */
  lemma FirstFitCarved(h: Heap, n: nat, page: nat, at: nat, j: nat)
    requires OFFSET <= n && Fits(n) && j < |h.free| && h.free[j].size >= n
    ensures var g, i := Malloc(h, n, page, at), FirstFit(h.free, n);
            && g.regions == h.regions && i <= j
            && End(g.live[|h.live|]) == End(h.free[i])
            && (forall k :: 0 <= k < i ==> h.free[k].size < n)
  {
  }

  /** Conversely, a region is mapped exactly when no listed block is large enough. */
  lemma MapsWhenFull(h: Heap, n: nat, page: nat, at: nat)
    requires OFFSET <= n && Fits(n) && h.free != []
    ensures Malloc(h, n, page, at).regions == h.regions <==> exists j :: 0 <= j < |h.free| && h.free[j].size >= n
  {
    var i := FirstFit(h.free, n);
    if i < |h.free| {
      assert h.free[i].size >= n;
    } else {
      assert |Malloc(h, n, page, at).regions| == |h.regions| + 1;
    }
  }

  function TwoTo(k: nat): nat {
    if k == 0 then 1 else 2 * TwoTo(k - 1)
  }

  lemma Twice(tmp: nat, p: nat)
    ensures tmp * 2 * p == tmp * (2 * p)
  {
  }

  /** The growth loop ends at the least `tmp * 2^k` that holds the request; `tmp` is one page. */
  lemma {:induction false} GrowthIsLeast(tmp: nat, n: nat) returns (k: nat)
    requires tmp > 0
    ensures Doubled(tmp, n) == tmp * TwoTo(k) && Doubled(tmp, n) >= n
    ensures k > 0 ==> tmp * TwoTo(k - 1) < n
    decreases n - tmp
  {
    if n > tmp {
      var m := GrowthIsLeast(tmp * 2, n);
      k := m + 1;
      Twice(tmp, TwoTo(m));
      if m > 0 {
        Twice(tmp, TwoTo(m - 1));
      }
    } else {
      k := 0;
    }
  }

  /** A grown region keeps its own header clear of the block cut from it exactly when the
      request leaves room for that header. */
  lemma GrowthExact(n: nat, at: nat)
    requires OFFSET <= n
    ensures var len := Doubled(PAGE, n);
            at + len - n >= 0 && (Fits(n) <==> Apart(Block(at, 0), Block(at + len - n, n - OFFSET)))
  {
  }

  // -------------------------------------------------------------------- runs

  datatype Op =
    | Alloc(size: nat, page: nat, at: nat)
    | Release(i: nat)
    | Resize(i: nat, size: nat, page: nat, at: nat)

  /** A program may free and resize what is live; the system answers with fresh regions; a
      request fits the region it grows. */
  predicate May(h: Heap, op: Op) {
    match op
    case Alloc(n, page, at) => Fits(n + OFFSET) && Answers(h, n + OFFSET, page, at)
    case Release(i) => i < |h.live|
    case Resize(i, n, page, at) => i < |h.live| && (n > 0 ==> Fits(n + OFFSET) && Answers(h, n + OFFSET, page, at))
  }

  function Do(h: Heap, op: Op): Heap
    requires May(h, op)
  {
    match op
    case Alloc(n, page, at) => Malloc(h, n + OFFSET, page, at)
    case Release(i) => Free(h, i)
    case Resize(i, n, page, at) =>
      if n == 0 then Free(h, i)
      else
        Free(Malloc(h, n + OFFSET, page, at), i)
  }

  function Loss(h: Heap, op: Op): nat
    requires May(h, op)
  {
    match op
    case Alloc(n, page, _) => MallocLoss(h, n + OFFSET, page)
    case Release(i) => FreeLoss(h, i)
    case Resize(i, n, page, at) =>
      if n == 0 then FreeLoss(h, i)
      else
        MallocLoss(h, n + OFFSET, page) + FreeLoss(Malloc(h, n + OFFSET, page, at), i)
  }

  lemma DoInv(h: Heap, op: Op)
    requires Inv(h) && May(h, op)
    ensures Inv(Do(h, op)) && Do(h, op).lost == h.lost + Loss(h, op)
  {
    hide Inv, Malloc, Free, MallocLoss, FreeLoss, Answers, Fits;
    match op
    case Alloc(n, page, at) => MallocInv(h, n + OFFSET, page, at);
    case Release(i) => FreeInv(h, i);
    case Resize(i, n, page, at) =>
      if n == 0 {
        FreeInv(h, i);
      } else {
        MallocInv(h, n + OFFSET, page, at);
        FreeInv(Malloc(h, n + OFFSET, page, at), i);
      }
  }

  predicate CanRun(h: Heap, ops: seq<Op>)
    decreases |ops|
  {
    ops == [] || (May(h, ops[0]) && CanRun(Do(h, ops[0]), ops[1..]))
  }

  function Run(h: Heap, ops: seq<Op>): Heap
    requires CanRun(h, ops)
    decreases |ops|
  {
    if ops == [] then h else Run(Do(h, ops[0]), ops[1..])
  }

  function TotalLoss(h: Heap, ops: seq<Op>): nat
    requires CanRun(h, ops)
    decreases |ops|
  {
    if ops == [] then 0 else Loss(h, ops[0]) + TotalLoss(Do(h, ops[0]), ops[1..])
  }

  const EMPTY := Heap([], [], [], 0)

  /** After any run from the start all live and listed blocks are pairwise disjoint and mapped,
      every mapped byte is listed, live or lost, and exactly the losses of the single calls are
      lost. */
  lemma {:induction false} RunInv(h: Heap, ops: seq<Op>)
    requires Inv(h) && CanRun(h, ops)
    ensures Inv(Run(h, ops)) && Run(h, ops).lost == h.lost + TotalLoss(h, ops)
    decreases |ops|
  {
    hide Inv, Do, Loss, May;
    if ops != [] {
      DoInv(h, ops[0]);
      RunInv(Do(h, ops[0]), ops[1..]);
    }
  }

  lemma RunFromStart(ops: seq<Op>)
    requires CanRun(EMPTY, ops)
    ensures var h := Run(EMPTY, ops);
            && AllApart(h.free + h.live) && AllMapped(h.free + h.live, h.regions)
            && Lengths(h.regions) == Extents(h.free) + Extents(h.live) + TotalLoss(EMPTY, ops)
  {
    hide Run, TotalLoss, CanRun;
    RunInv(EMPTY, ops);
    var h := Run(EMPTY, ops);
    assert Separate(h.free, h.live);
  }
}
