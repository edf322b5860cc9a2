/** The fragment, described on the source alone: which scripts the machine's 8-bit operands,
    its POPN and the shared `cases` table can carry. */
module Fragment {
  import opened Values
  import opened Syntax
  import opened Bytecode
  import opened Layout
  import opened Machine
  import opened ExprSimulation
  import opened Simulation
  import opened Functions
  import opened Scripts
  import opened Preservation
  import Emission

  /** `s`, compiled to `pc`, stays within the machine's limits: jumps shorter than 256 bytes,
      scopes with one variable at most, `elif` arms that leave at their chain's end, compound
      assignments whose right-hand side ends on no other identifier. */
  predicate Modest(s: Stmt, pc: nat)
    decreases s
  {
    match s
    case Eval(e) => SoundE(e)
    case Pout(es) => SoundArgs(es)
    case Return(e) => SoundE(e)
    case Back => true
    case While(c, b) => SoundE(c) && Modest(b, pc + SizeE(c) + 3) && SizeS(s) < 256
    case If(c, t, arms) =>
      var j := pc + SizeE(c) + 3;
      && SoundE(c) && Modest(t, j) && SizeS(t) + 3 < 256 && SizeArms(arms) < 256
      && ModestArms(arms, j + SizeS(t) + 3) && ArmsLand(arms, j + SizeS(t) + 3, pc + SizeS(s))
    case Block(ds) => ModestD(ds, pc) && |Declared(ds)| <= 1
    case For(i, c, n, b) =>
      && (i.SomeVar? ==> SoundE(i.e)) && SoundOpt(c) && SoundOpt(n)
      && Modest(b, pc + SizeInit(i) + SizeCond(c) + SizeInc(n))
      && SizeCond(c) + SizeInc(n) + SizeS(b) + 3 < 256
  }

  predicate ModestArms(a: Arms, pc: nat)
    decreases a
  {
    match a
    case End => true
    case Else(s) => Modest(s, pc)
    case Elif(c, s, t) =>
      && SoundE(c) && Modest(s, pc + SizeE(c) + 3) && SizeS(s) + 3 < 256
      && ModestArms(t, pc + SizeE(c) + 3 + SizeS(s) + 3)
  }

  predicate ModestD(ds: Decls, pc: nat)
    decreases ds
  {
    match ds
    case Done => true
    case Then(Var(_, e), t) => SoundE(e) && ModestD(t, pc + SizeE(e) + 2)
    case Then(Do(s), t) => Modest(s, pc) && ModestD(t, pc + SizeS(s))
  }

  lemma {:induction false} ModestSound(s: Stmt, names: seq<Name>, fns: Fns, ch: Chunk, pc: nat, nc: nat)
    requires LaidS(s, names, fns, ch, pc, nc) && Modest(s, pc) && |ch.cases| <= 256
    ensures SoundS(s, ch, pc, nc)
    decreases s, 1
  {
    hide LaidE, SizeE, SoundE, SoundArgs, LaidPout, SizePout;
    match s
    case While(_, _) => ModestWhile(s, names, fns, ch, pc, nc);
    case If(_, _, _) => ModestIf(s, names, fns, ch, pc, nc);
    case Block(ds) => ModestDSound(ds, names, fns, ch, pc, nc);
    case For(_, _, _, _) => ModestFor(s, names, fns, ch, pc, nc);
    case _ =>
  }

  lemma {:induction false} ModestWhile(s: Stmt, names: seq<Name>, fns: Fns, ch: Chunk, pc: nat, nc: nat)
    requires s.While? && LaidS(s, names, fns, ch, pc, nc) && Modest(s, pc) && |ch.cases| <= 256
    ensures SoundS(s, ch, pc, nc)
    decreases s, 0
  {
    hide LaidE, SizeE, SoundE;
    ModestSound(s.body, names, fns, ch, pc + SizeE(s.c) + 3, nc);
  }

  lemma {:induction false} ModestIf(s: Stmt, names: seq<Name>, fns: Fns, ch: Chunk, pc: nat, nc: nat)
    requires s.If? && LaidS(s, names, fns, ch, pc, nc) && Modest(s, pc) && |ch.cases| <= 256
    ensures SoundS(s, ch, pc, nc)
    decreases s, 0
  {
    hide LaidE, SizeE, SoundE, LaidArms, SizeArms, IfsArms, SoundArms, ModestArms, ArmsLand;
    var j := pc + SizeE(s.c) + 3;
    ModestSound(s.then_, names, fns, ch, j, nc);
    ModestArmsSound(s.arms, names, fns, ch, j + SizeS(s.then_) + 3, nc + IfsS(s.then_), pc + SizeS(s));
  }

  lemma {:induction false} ModestFor(s: Stmt, names: seq<Name>, fns: Fns, ch: Chunk, pc: nat, nc: nat)
    requires s.For? && LaidS(s, names, fns, ch, pc, nc) && Modest(s, pc) && |ch.cases| <= 256
    ensures SoundS(s, ch, pc, nc)
    decreases s, 0
  {
    hide LaidE, SizeE, SoundE, LaidCond, LaidInc, LaidPops, SoundOpt, SizeCond, SizeInc, SizeInit;
    var inner := match s.init case NoVar => names case SomeVar(x, _) => names + [x];
    ModestSound(s.body, inner, fns, ch, pc + SizeInit(s.init) + SizeCond(s.cond) + SizeInc(s.inc), nc);
  }

  lemma {:induction false} ModestArmsSound(a: Arms, names: seq<Name>, fns: Fns, ch: Chunk, pc: nat, nc: nat, end: nat)
    requires LaidArms(a, names, fns, ch, pc, nc) && ModestArms(a, pc) && ArmsLand(a, pc, end)
    requires nc + IfsArms(a) < |ch.cases| <= 256 && ch.cases[nc + IfsArms(a)] == end
    ensures SoundArms(a, ch, pc, nc, end)
    decreases a, 0
  {
    hide LaidE, SizeE, SoundE, LaidS, SoundS, Modest, IfsS, FirstEnd;
    match a
    case End =>
    case Else(s) => ModestSound(s, names, fns, ch, pc, nc);
    case Elif(c, s, t) =>
      var q := pc + SizeE(c) + 3 + SizeS(s) + 3;
      ModestSound(s, names, fns, ch, pc + SizeE(c) + 3, nc);
      ElifLandsExactly(t, names, fns, ch, q, nc + IfsS(s), end);
      ModestArmsSound(t, names, fns, ch, q, nc + IfsS(s), end);
  }

  lemma {:induction false} ModestDSound(ds: Decls, names: seq<Name>, fns: Fns, ch: Chunk, pc: nat, nc: nat)
    requires LaidD(ds, names, fns, ch, pc, nc) && ModestD(ds, pc) && |ch.cases| <= 256
    ensures SoundD(ds, ch, pc, nc)
    decreases ds, 0
  {
    hide LaidE, SizeE, SoundE, LaidS, SoundS, Modest, IfsS;
    match ds
    case Done =>
    case Then(Var(x, e), t) => ModestDSound(t, names + [x], fns, ch, pc + SizeE(e) + 2, nc);
    case Then(Do(s), t) =>
      ModestSound(s, names, fns, ch, pc, nc);
      ModestDSound(t, names, fns, ch, pc + SizeS(s), nc + IfsS(s));
  }

  predicate ModestItem(items: seq<Item>, i: nat, blank: Name)
    requires i < |items|
  {
    match items[i]
    case Fun(_, d) => ModestD(d.body, 2 * |d.params|) && IfsD(d.body) <= 256
    case Stat(s, _) => Modest(s, SizeItems(items[..i])) && Unnamed(items, i, blank)
  }

  predicate ModestScript(items: seq<Item>, blank: Name) {
    IfsItems(items) <= 256 && forall i :: 0 <= i < |items| ==> ModestItem(items, i, blank)
  }

  /** A script of the fragment, as compiled, is one that the preservation theorems speak of. */
  lemma FragmentIsScript(items: seq<Item>, blank: Name, obj: nat, script: Chunk, funcs: seq<Function>)
    requires ScriptFits(items, blank, obj) && LaidScript(items, blank, obj, script, funcs)
    requires ModestScript(items, blank)
    ensures Script(items, blank, obj, script, funcs)
  {
    forall i | 0 <= i < |items| ensures SoundAt(items, i, blank, script, funcs)
      && (items[i].Fun? ==> items[i].f !in FnsOf(items[..i], obj)) {
      var s := SpotOf(items, i, blank, obj);
      assert LaidAt(items, i, blank, obj, script, funcs) && ItemFits(items[i], s) && ModestItem(items, i, blank);
      hide LaidS, LaidD, SoundS, SoundD, Modest, ModestD, SizeItems, IfsItems, FunCount, FnsOf, ScriptFits, LaidScript,
           IfsD, Unnamed;
      match items[i]
      case Fun(f, d) => ModestDSound(d.body, d.params, s.fns[f := s.obj], funcs[s.fn].ch, 2 * |d.params|, 0);
      case Stat(t, _) => ModestSound(t, Emission.Names(s.names), s.fns, script, s.pc, s.nc);
    }
  }

}
