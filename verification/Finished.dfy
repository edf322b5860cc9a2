/** Finished chunks: whole functions and whole scripts. */
module Finished {
  import opened Values
  import opened Syntax
  import opened Bytecode
  import opened Layout
  import opened Functions
  import opened Jumps
  import Emission
  import Machine

  /** In a function's code, up to its return, every jump has been patched and goes to an
      instruction of that code. */
  lemma FunctionJumps(d: FunDef, fns: Fns, ch: Chunk)
    requires FnCode(d, fns, ch) && SizeD(d.body) < 65535 && IfsD(d.body) < 65536
    ensures var end := 2 * |d.params| + SizeD(d.body) + 1; Good(ch, 0, end, 0, end)
  {
    hide Good, LaidD, SizeD, IfsD, Decodes, Length;
    var p := 2 * |d.params|;
    var q := p + SizeD(d.body);
    SealedD(d.body, d.params, fns, ch, p, 0);
    ParamsGood(d, fns, ch, |d.params|, 0, q + 1);
    GoodDecodes(ch, 0, p, 0, q + 1);
    Return(ch, q, 0, q + 1);
    GoodDecodes(ch, q, q + 1, 0, q + 1);
    SealedWide(ch, p, q, 0, IfsD(d.body), 0, q + 1);
    GoodPieces(ch, [0, p, q, q + 1], 0, 0, q + 1);
  }

  lemma Return(ch: Chunk, pc: nat, lo: nat, hi: nat)
    requires At1(ch, pc, OP_RETURN)
    ensures Good(ch, pc, pc + 1, lo, hi)
  {
    hide Good;
    Plain(ch, pc, 1, lo, hi);
  }

  lemma {:induction false} ParamsGood(d: FunDef, fns: Fns, ch: Chunk, n: nat, lo: nat, hi: nat)
    requires n <= |d.params| && forall k :: 0 <= k < |d.params| ==> At2(ch, 2 * k, OP_SET_LOCAL_PARAM, k)
    ensures Good(ch, 0, 2 * n, lo, hi)
    decreases n
  {
    hide Good;
    if n == 0 {
      GoodHere(ch, 0, lo, hi);
    } else {
      ParamsGood(d, fns, ch, n - 1, lo, hi);
      assert At2(ch, 2 * (n - 1), OP_SET_LOCAL_PARAM, n - 1);
      Plain(ch, 2 * (n - 1), 2, lo, hi);
      GoodJoin(ch, 0, 2 * (n - 1), 2 * n, lo, hi);
    }
  }

  lemma {:induction false} ItemsSealed(items: seq<Item>, i: nat, blank: Name, obj: nat, ch: Chunk,
                                       funcs: seq<Machine.Function>)
    requires LaidScript(items, blank, obj, ch, funcs) && i <= |items|
    requires SizeItems(items) < 65535 && IfsItems(items) < 65536
    ensures Sealed(ch, 0, SizeItems(items[..i]), 0, IfsItems(items[..i]))
    decreases i
  {
    hide Good, Decodes, Inside, LaidS, SizeS, IfsS, FnsOf, FunCount, FnCode, Blanks, LitsItems, LaidItem;
    if i == 0 {
      GoodHere(ch, 0, 0, 0);
    } else {
      ItemsSealed(items, i - 1, blank, obj, ch, funcs);
      NextSpot(items, i - 1, blank, obj);
      PrefixBounds(items, i);
      var s := SpotOf(items, i - 1, blank, obj);
      assert LaidAt(items, i - 1, blank, obj, ch, funcs);
      OneMore(ch, items[i - 1], s);
    }
  }

  lemma OneMore(ch: Chunk, x: Item, s: Spot)
    requires Sealed(ch, 0, s.pc, 0, s.nc) && LaidItem(x, s, ch)
    requires SizeItem(x) < 65535 && s.nc + IfsItem(x) <= |ch.cases| < 65536
    ensures Sealed(ch, 0, s.pc + SizeItem(x), 0, s.nc + IfsItem(x))
  {
    hide Good, Decodes, Inside, LaidS, SizeS, IfsS;
    var end := s.pc + SizeItem(x);
    match x {
      case Fun(_, _) => Plain(ch, s.pc, 3, s.pc, end);
      case Stat(t, _) => SealedS(t, Emission.Names(s.names), s.fns, ch, s.pc, s.nc);
    }
    assert Sealed(ch, s.pc, end, s.nc, IfsItem(x));
    SealedDecodes(ch, 0, s.pc, 0, s.nc);
    SealedDecodes(ch, s.pc, end, s.nc, IfsItem(x));
    Here(ch, 0);
    Here(ch, end);
    SealedWide(ch, 0, s.pc, 0, s.nc, 0, end);
    SealedWide(ch, s.pc, end, s.nc, IfsItem(x), 0, end);
    GoodJoin(ch, 0, s.pc, end, 0, end);
  }

  /** The same for a script. */
  lemma ScriptJumps(items: seq<Item>, blank: Name, obj: nat, ch: Chunk, funcs: seq<Machine.Function>)
    requires LaidScript(items, blank, obj, ch, funcs) && SizeItems(items) < 65535 && IfsItems(items) < 65536
    ensures var end := SizeItems(items) + 1; Good(ch, 0, end, 0, end) && CasesInside(ch, 0, IfsItems(items), 0, end)
  {
    hide Good, Decodes, LaidAt, SizeItems, IfsItems, Inside;
    var q := SizeItems(items);
    ItemsSealed(items, |items|, blank, obj, ch, funcs);
    assert items[..|items|] == items;
    Return(ch, q, 0, q + 1);
    GoodDecodes(ch, q, q + 1, 0, q + 1);
    Here(ch, 0);
    SealedWide(ch, 0, q, 0, IfsItems(items), 0, q + 1);
    GoodJoin(ch, 0, q, q + 1, 0, q + 1);
  }
}
