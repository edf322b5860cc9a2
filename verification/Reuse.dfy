/** When freed memory comes back, and what each round of allocating and freeing costs. */
module Reuse {
  import opened Allocator
  import Arenas

  /** Nothing of `b` is in the list. */
  predicate Unlisted(bs: seq<Block>, b: Block) {
    forall k :: 0 <= k < |bs| ==> Apart(bs[k], b)
  }

  /** The list ends with `b`, or with a block that has taken `b` in, except for a header. */
  predicate Returned(bs: seq<Block>, b: Block) {
    && bs != []
    && var last := bs[|bs| - 1];
       last == b || (last.at < b.at && End(last) == End(b) - OFFSET)
  }

  /** The last block of a merged list is the last one, or that one joined with a block that ends where it begins. */
  lemma {:induction false} MergeLast(bs: seq<Block>, b: Block)
    ensures var m := Merge(bs + [b]);
            m != [] && var last := m[|m| - 1];
            last == b || exists i :: 0 <= i < |bs| && End(bs[i]) == b.at && last == Block(bs[i].at, bs[i].size + b.size)
    decreases |bs|
  {
    var cs := bs + [b];
    if |bs| > 0 {
      if End(cs[0]) == cs[1].at {
        if |bs| == 1 {
          assert cs[2..] == [];
        } else {
          assert cs[2..] == bs[2..] + [b];
          MergeLast(bs[2..], b);
          LastOf(Block(cs[0].at, cs[0].size + cs[1].size), Merge(cs[2..]));
        }
      } else {
        assert cs[1..] == bs[1..] + [b];
        MergeLast(bs[1..], b);
        LastOf(cs[0], Merge(cs[1..]));
      }
    }
  }

  lemma LastOf(b: Block, bs: seq<Block>)
    requires bs != []
    ensures ([b] + bs)[|bs|] == bs[|bs| - 1]
  {
  }

  /** A block that lies behind every listed one comes back: it is listed, or part of a listed block. */
  lemma FreedReturns(h: Heap, i: nat)
    requires i < |h.live| && h.live[i].size > 0
    requires forall k :: 0 <= k < |h.free| ==> h.free[k].at < h.live[i].at
    ensures Returned(Free(h, i).free, h.live[i])
    ensures (forall k :: 0 <= k < |h.free| ==> End(h.free[k]) != h.live[i].at) ==> h.live[i] in Free(h, i).free
  {
    hide Merge, Merges;
    MergeLast(h.free, h.live[i]);
  }

  /** A block in front of a listed one is lost for good, and so is one without payload. */
  lemma FreedIsLost(h: Heap, i: nat, k: nat)
    requires Inv(h) && i < |h.live| && k < |h.free| && (h.free[k].at > h.live[i].at || h.live[i].size == 0)
    ensures Unlisted(Free(h, i).free, h.live[i])
  {
    hide Merge, Merges, Apart, Extents, Lengths;
    assert forall j :: 0 <= j < |h.free| ==> Apart(h.free[j], h.live[i]);
    MergeApart(h.free, h.live[i]);
  }

  // ----------------------------------------------------------------- merging

  /** Two blocks that touch become one; the bytes of the second header are not in it. */
  lemma MergeTwo(a: nat, s: nat, b: nat, t: nat)
    ensures Merge([Block(a, s), Block(b, t)]) ==
            if a + 16 + s == b then [Block(a, s + t)] else [Block(a, s), Block(b, t)]
  {
    assert [Block(a, s), Block(b, t)][2..] == [] && [Block(a, s), Block(b, t)][1..] == [Block(b, t)];
  }

  /** Of three blocks in a row only two are joined: the pass goes on behind the joint block, which
      no longer reaches the third. */
  lemma MergeThree(a: nat, s: nat, t: nat, u: nat)
    ensures
      var bs := [Block(a, s), Block(a + 16 + s, t), Block(a + 16 + s + 16 + t, u)];
      var m := [Block(a, s + t), Block(a + 16 + s + 16 + t, u)];
      Merge(bs) == m && Merge(m) == m
  {
    var bs := [Block(a, s), Block(a + 16 + s, t), Block(a + 16 + s + 16 + t, u)];
    assert bs[2..] == [Block(a + 16 + s + 16 + t, u)];
    MergeTwo(a, s + t, a + 16 + s + 16 + t, u);
  }

  // ------------------------------------------------------- one region, reused

  /** The list has one block, of `s` bytes. */
  predicate Single(h: Heap, p: nat, s: nat) {
    h.free == [Block(p, s)]
  }

  /** Allocating from the only block takes its tail. */
  lemma MallocSingle(h: Heap, p: nat, s: nat, n: nat, page: nat, at: nat)
    requires Single(h, p, s) && 16 <= n <= s && Fits(n)
    ensures var g := Malloc(h, n, page, at);
            && Single(g, p, s - n) && g.regions == h.regions && g.lost == h.lost
            && g.live == h.live + [Block(p + 16 + s - n, n - 16)]
  {
    assert FirstFit(h.free, n) == 0;
  }

  /** Giving it back makes the block 16 bytes smaller than it was. */
  lemma FreeSingle(h: Heap, p: nat, s: nat, n: nat)
    requires Single(h, p, s) && 16 <= n && h.live != [] && h.live[|h.live| - 1] == Block(p + 16 + s, n - 16)
    ensures var g := Free(h, |h.live| - 1);
            && Single(g, p, s + n - 16) && g.regions == h.regions && g.lost == h.lost + 16
            && g.live == h.live[..|h.live| - 1]
  {
    MergeTwo(p, s, p + 16 + s, n - 16);
    MergesTwo(p, s, n - 16);
    assert Without(h.live, |h.live| - 1) == h.live[..|h.live| - 1];
    assert h.free + [h.live[|h.live| - 1]] == [Block(p, s), Block(p + 16 + s, n - 16)];
  }

  lemma MergesTwo(p: nat, s: nat, t: nat)
    ensures Merges([Block(p, s), Block(p + 16 + s, t)]) == 1
  {
    assert [Block(p, s), Block(p + 16 + s, t)][2..] == [];
  }

  /** Allocate `n` bytes, header included, and free them again, `rounds` times. */
  function Rounds(h: Heap, n: nat, page: nat, at: nat, rounds: nat): Heap
    requires 16 <= n && Fits(n)
  {
    if rounds == 0 then h
    else
      var g := Malloc(Rounds(h, n, page, at, rounds - 1), n, page, at);
      Free(g, |g.live| - 1)
  }

  /** Each round costs the only block 16 bytes, as long as the request fits. */
  lemma {:induction false} RoundsCost(h: Heap, p: nat, s: nat, n: nat, page: nat, at: nat, rounds: nat)
    requires Single(h, p, s) && 16 <= n && Fits(n) && (rounds > 0 ==> n + 16 * (rounds - 1) <= s)
    ensures var g := Rounds(h, n, page, at, rounds);
            && 16 * rounds <= s && Single(g, p, s - 16 * rounds) && g.lost == h.lost + 16 * rounds
            && g.live == h.live && g.regions == h.regions
    decreases rounds
  {
    hide Malloc, Free, Fits;
    if rounds > 0 {
      RoundsCost(h, p, s, n, page, at, rounds - 1);
      RoundAdded(h, p, s, n, page, at, rounds - 1);
    }
  }

  lemma RoundAdded(h: Heap, p: nat, s: nat, n: nat, page: nat, at: nat, rounds: nat)
    requires 16 <= n && Fits(n) && n + 16 * rounds <= s
    requires var u := Rounds(h, n, page, at, rounds);
             Single(u, p, s - 16 * rounds) && u.lost == h.lost + 16 * rounds && u.live == h.live
               && u.regions == h.regions
    ensures var g := Rounds(h, n, page, at, rounds + 1);
            Single(g, p, s - 16 * (rounds + 1)) && g.lost == h.lost + 16 * (rounds + 1)
            && g.live == h.live && g.regions == h.regions
  {
    hide Malloc, Free, Fits, Single, Rounds;
    OneRound(Rounds(h, n, page, at, rounds), p, s - 16 * rounds, n, page, at);
    RoundsStep(h, n, page, at, rounds);
  }

  lemma RoundsStep(h: Heap, n: nat, page: nat, at: nat, rounds: nat)
    requires 16 <= n && Fits(n)
    ensures var m := Malloc(Rounds(h, n, page, at, rounds), n, page, at);
            Rounds(h, n, page, at, rounds + 1) == Free(m, |m.live| - 1)
  {
    hide Malloc, Free, Fits;
  }

  lemma OneRound(h: Heap, p: nat, s: nat, n: nat, page: nat, at: nat)
    requires Single(h, p, s) && 16 <= n <= s && Fits(n)
    ensures var m := Malloc(h, n, page, at);
            m.live != [] && var g := Free(m, |m.live| - 1);
            Single(g, p, s - 16) && g.regions == h.regions && g.lost == h.lost + 16 && g.live == h.live
  {
    hide Malloc, Free, Fits, Single;
    MallocSingle(h, p, s, n, page, at);
    FreeSingle(Malloc(h, n, page, at), p, s - n, n);
    assert (h.live + [Block(p + 16 + s - n, n - 16)])[..|h.live|] == h.live;
  }

  /** A freed block of a one-block heap is handed out again: the same request maps a new region
      exactly when the 16 lost bytes make the difference. */
  lemma ReusedExactly(h: Heap, p: nat, s: nat, n: nat, page: nat, at: nat)
    requires Single(h, p, s) && 16 <= n <= s && Fits(n)
    ensures Malloc(Rounds(h, n, page, at, 1), n, page, at).regions == h.regions <==> n + 16 <= s
  {
    hide Malloc, Free, Rounds, Fits;
    RoundsCost(h, p, s, n, page, at, 1);
    var g := Rounds(h, n, page, at, 1);
    MapsWhenFull(g, n, page, at);
    assert forall j :: 0 <= j < |g.free| ==> g.free[j] == Block(p, s - 16);
    assert g.free[0].size == s - 16;
  }

  /** The same on the memory itself: what was handed out and given back is handed out again, 16
      bytes further down, and no region is mapped. */
  method AllocateAgain(a: Arenas.Arena, n: nat, page: nat, at: nat, ghost p: nat, ghost s: nat)
    returns (first: nat, second: nat)
    requires a.Valid() && Single(a.heap, p, s) && 16 < n && n + 16 <= s && Fits(n) && Answers(a.heap, n, page, at)
    modifies a
    ensures a.Valid() && a.heap.regions == old(a.heap.regions) && a.heap.lost == old(a.heap.lost) + 16
    ensures first == p + 16 + s - n + 16 && second == first - 16 && Single(a.heap, p, s - 16 - n)
  {
    hide Malloc, Free, Fits;
    ghost var h := a.heap;
    first := a.Malloc(n, page, at);
    MallocSingle(h, p, s, n, page, at);
    ghost var i := |h.live|;
    a.Release(first, i);
    FreeSingle(Malloc(h, n, page, at), p, s - n, n);
    second := a.Malloc(n, page, at);
    MallocSingle(Free(Malloc(h, n, page, at), i), p, s - 16, n, page, at);
  }

  // ---------------------------------------------------------- from the start

  /** A first request, of less than a page: the page's tail is handed out, the rest is listed. */
  lemma FirstRequest(n: nat, page: nat, at: nat)
    requires 16 <= n <= 16368
    ensures Fits(n)
    ensures Malloc(EMPTY, n, page, at) ==
            Heap([Block(page, 16368 - n)], [Block(page + 16384 - n, n - 16)], [Region(page, 16384)], 0)
  {
    assert FirstFit([Block(page, 16368)], n) == 0;
  }

  /** 100 bytes from an empty heap, and back: 16 bytes are lost, and a request of nearly the whole
      page is still met from it. */
  lemma PageReused(page: nat, at: nat)
    ensures Fits(116) && Fits(16300)
    ensures
      var h := Malloc(EMPTY, 116, page, at);
      && h.live == [Block(page + 16268, 100)] && h.free == [Block(page, 16252)]
      && var g := Free(h, 0);
         && g.free == [Block(page, 16352)] && g.lost == 16
         && var k := Malloc(g, 16300, page, at);
            k.regions == [Region(page, 16384)] && k.live == [Block(page + 68, 16284)]
  {
    hide Malloc, Free, Fits;
    FirstRequest(116, page, at);
    FirstRequest(16300, page, at);
    var h := Malloc(EMPTY, 116, page, at);
    FreeSingle(h, page, 16252, 116);
    MallocSingle(Free(h, 0), page, 16352, 16300, page, at);
  }

  /** A request that no listed block can meet: the least `16384 * 2^k` bytes that hold it are
      mapped, their tail is handed out, and the rest is listed last. */
  lemma Grows(h: Heap, n: nat, page: nat, at: nat) returns (k: nat)
    requires 16 <= n && Fits(n) && h.free != [] && forall j :: 0 <= j < |h.free| ==> h.free[j].size < n
    ensures var len := 16384 * TwoTo(k);
            && n <= len && (k > 0 ==> 16384 * TwoTo(k - 1) < n) && n + 16 <= len
            && Malloc(h, n, page, at) ==
               Heap(h.free + [Block(at, len - n - 16)], h.live + [Block(at + len - n, n - 16)],
                    h.regions + [Region(at, len)], h.lost)
  {
    hide Doubled, TwoTo;
    k := GrowthIsLeast(16384, n);
    assert FirstFit(h.free, n) == |h.free|;
  }

  /** Cutting a block: the tail is handed out, the front stays listed in its place; a block that is
      used up leaves the list, and its header is lost, unless it is the first. */
  lemma Cuts(h: Heap, n: nat, page: nat, at: nat, i: nat)
    requires 16 <= n && Fits(n) && i < |h.free| && h.free[i].size >= n
    requires forall j :: 0 <= j < i ==> h.free[j].size < n
    ensures
      var b, g := h.free[i], Malloc(h, n, page, at);
      && g.live == h.live + [Block(b.at + 16 + b.size - n, n - 16)] && g.regions == h.regions
      && (if b.size == n && i > 0 then g.free == h.free[..i] + h.free[i + 1..] && g.lost == h.lost + 16
          else |g.free| == |h.free| && g.free[i] == Block(b.at, b.size - n) && g.lost == h.lost
               && forall j :: 0 <= j < |h.free| && j != i ==> g.free[j] == h.free[j])
  {
    assert FirstFit(h.free, n) == i;
  }
}
