/** A whole script: its code, run by the machine, does what its source means. */
module Scripts {
  import opened Values
  import opened Syntax
  import opened Bytecode
  import opened Layout
  import opened Machine
  import opened Semantics
  import opened ExprSimulation
  import opened Simulation
  import opened Correctness
  import opened Functions
  import opened Padding
  import Emission
  import Loops

  // ------------------------------------------------- code without variables

  predicate NoLocalsE(e: Expr) {
    match e
    case Lit(_) | FuncRef(_) => true
    case Local(_) | Assign(_, _) | Compound(_, _, _) | Bump(_, _, _) => false
    case Neg(_, r) => NoLocalsE(r)
    case Paren(r) => NoLocalsE(r)
    case Bin(_, l, r) => NoLocalsE(l) && NoLocalsE(r)
    case Call(f, args) => NoLocalsE(f) && NoLocalsArgs(args)
  }

  predicate NoLocalsArgs(es: Exprs) {
    match es case Nil => true case Cons(e, t) => NoLocalsE(e) && NoLocalsArgs(t)
  }

  predicate NoLocalsOpt(e: OptExpr) {
    match e case NoExpr => true case SomeExpr(x) => NoLocalsE(x)
  }

  predicate NoLocals(s: Stmt) {
    match s
    case Eval(e) => NoLocalsE(e)
    case Pout(es) => NoLocalsArgs(es)
    case If(c, t, arms) => NoLocalsE(c) && NoLocals(t) && NoLocalsArms(arms)
    case While(c, b) => NoLocalsE(c) && NoLocals(b)
    case For(i, c, n, b) => i.NoVar? && NoLocalsOpt(c) && NoLocalsOpt(n) && NoLocals(b)
    case Block(ds) => NoLocalsD(ds)
    case Return(e) => NoLocalsE(e)
    case Back => true
  }

  predicate NoLocalsArms(a: Arms) {
    match a
    case End => true
    case Else(s) => NoLocals(s)
    case Elif(c, s, t) => NoLocalsE(c) && NoLocals(s) && NoLocalsArms(t)
  }

  predicate NoLocalsD(ds: Decls) {
    match ds
    case Done => true
    case Then(Var(_, _), _) => false
    case Then(Do(s), t) => NoLocals(s) && NoLocalsD(t)
  }

  // ---------------------------------------------- the same code, seen later

  predicate Extends(fns: Fns, fns': Fns) {
    forall f :: f in fns ==> f in fns' && fns'[f] == fns[f]
  }

  lemma {:induction false} RelaidE(e: Expr, names: seq<Name>, names': seq<Name>, fns: Fns, fns': Fns, ch: Chunk,
                                   pc: nat)
    requires LaidE(e, names, fns, ch, pc) && Extends(fns, fns') && (names' == names || NoLocalsE(e))
    ensures LaidE(e, names', fns', ch, pc)
    decreases e, 1
  {
    hide Newest, Target, SizeE, SizeArgs, At1, At2, OpByte, BumpByte, LaidArgs;
    match e
    case Assign(_, r) => RelaidE(r, names, names', fns, fns', ch, pc);
    case Compound(_, _, r) => RelaidE(r, names, names', fns, fns', ch, pc + 2);
    case Neg(_, r) => RelaidE(r, names, names', fns, fns', ch, pc);
    case Paren(r) => RelaidE(r, names, names', fns, fns', ch, pc);
    case Bin(_, _, _) => RelaidBin(e, names, names', fns, fns', ch, pc);
    case Call(_, _) => RelaidCall(e, names, names', fns, fns', ch, pc);
    case _ =>
  }

  lemma {:induction false} RelaidBin(e: Expr, names: seq<Name>, names': seq<Name>, fns: Fns, fns': Fns, ch: Chunk,
                                     pc: nat)
    requires e.Bin? && LaidE(e, names, fns, ch, pc) && Extends(fns, fns') && (names' == names || NoLocalsE(e))
    ensures LaidE(e, names', fns', ch, pc)
    decreases e, 0
  {
    hide SizeE, At1, OpByte;
    RelaidE(e.l, names, names', fns, fns', ch, pc);
    RelaidE(e.r, names, names', fns, fns', ch, pc + SizeE(e.l));
  }

  lemma {:induction false} RelaidCall(e: Expr, names: seq<Name>, names': seq<Name>, fns: Fns, fns': Fns, ch: Chunk,
                                      pc: nat)
    requires e.Call? && LaidE(e, names, fns, ch, pc) && Extends(fns, fns') && (names' == names || NoLocalsE(e))
    ensures LaidE(e, names', fns', ch, pc)
    decreases e, 0
  {
    hide SizeE, SizeArgs, At2, LaidArgs;
    RelaidE(e.fn, names, names', fns, fns', ch, pc);
    RelaidArgs(e.args, names, names', fns, fns', ch, pc + SizeE(e.fn));
  }

  lemma {:induction false} RelaidArgs(es: Exprs, names: seq<Name>, names': seq<Name>, fns: Fns, fns': Fns, ch: Chunk,
                                      pc: nat)
    requires LaidArgs(es, names, fns, ch, pc) && Extends(fns, fns') && (names' == names || NoLocalsArgs(es))
    ensures LaidArgs(es, names', fns', ch, pc)
    decreases es, 2
  {
    hide LaidE, SizeE;
    match es
    case Nil =>
    case Cons(e, t) =>
      RelaidE(e, names, names', fns, fns', ch, pc);
      RelaidArgs(t, names, names', fns, fns', ch, pc + SizeE(e));
  }

  lemma {:induction false} RelaidPout(es: Exprs, names: seq<Name>, names': seq<Name>, fns: Fns, fns': Fns, ch: Chunk,
                                      pc: nat)
    requires LaidPout(es, names, fns, ch, pc) && Extends(fns, fns') && (names' == names || NoLocalsArgs(es))
    ensures LaidPout(es, names', fns', ch, pc)
    decreases es
  {
    hide LaidE, SizeE;
    match es
    case Nil =>
    case Cons(e, t) =>
      RelaidE(e, names, names', fns, fns', ch, pc);
      RelaidPout(t, names, names', fns, fns', ch, pc + SizeE(e) + 1);
  }

  lemma {:induction false} RelaidS(s: Stmt, names: seq<Name>, names': seq<Name>, fns: Fns, fns': Fns, ch: Chunk,
                                   pc: nat, nc: nat)
    requires LaidS(s, names, fns, ch, pc, nc) && Extends(fns, fns') && (names' == names || NoLocals(s))
    ensures LaidS(s, names', fns', ch, pc, nc)
    decreases s, 1
  {
    hide LaidE, SizeE, LaidPout, SizePout;
    match s
    case Eval(e) => RelaidE(e, names, names', fns, fns', ch, pc);
    case Return(e) => RelaidE(e, names, names', fns, fns', ch, pc);
    case Back =>
    case Pout(es) => RelaidPout(es, names, names', fns, fns', ch, pc);
    case While(_, _) => RelaidWhile(s, names, names', fns, fns', ch, pc, nc);
    case If(_, _, _) => RelaidIf(s, names, names', fns, fns', ch, pc, nc);
    case Block(ds) => RelaidD(ds, names, names', fns, fns', ch, pc, nc);
    case For(_, _, _, _) => RelaidFor(s, names, names', fns, fns', ch, pc, nc);
  }

  lemma {:induction false} RelaidWhile(s: Stmt, names: seq<Name>, names': seq<Name>, fns: Fns, fns': Fns, ch: Chunk,
                                       pc: nat, nc: nat)
    requires s.While? && LaidS(s, names, fns, ch, pc, nc) && Extends(fns, fns') && (names' == names || NoLocals(s))
    ensures LaidS(s, names', fns', ch, pc, nc)
    decreases s, 0
  {
    hide LaidE, SizeE;
    RelaidE(s.c, names, names', fns, fns', ch, pc);
    RelaidS(s.body, names, names', fns, fns', ch, pc + SizeE(s.c) + 3, nc);
  }

  lemma {:induction false} RelaidIf(s: Stmt, names: seq<Name>, names': seq<Name>, fns: Fns, fns': Fns, ch: Chunk,
                                    pc: nat, nc: nat)
    requires s.If? && LaidS(s, names, fns, ch, pc, nc) && Extends(fns, fns') && (names' == names || NoLocals(s))
    ensures LaidS(s, names', fns', ch, pc, nc)
    decreases s, 0
  {
    hide LaidE, SizeE, LaidArms, SizeArms;
    var j := pc + SizeE(s.c) + 3;
    RelaidE(s.c, names, names', fns, fns', ch, pc);
    RelaidS(s.then_, names, names', fns, fns', ch, j, nc);
    RelaidArms(s.arms, names, names', fns, fns', ch, j + SizeS(s.then_) + 3, nc + IfsS(s.then_));
  }

  lemma RelaidCond(c: OptExpr, names: seq<Name>, names': seq<Name>, fns: Fns, fns': Fns, ch: Chunk, pc: nat, d: nat)
    requires LaidCond(c, names, fns, ch, pc, d) && Extends(fns, fns') && (names' == names || NoLocalsOpt(c))
    ensures LaidCond(c, names', fns', ch, pc, d)
  {
    hide LaidE, SizeE;
    if c.SomeExpr? {
      RelaidE(c.e, names, names', fns, fns', ch, pc);
    }
  }

  lemma RelaidInc(c: OptExpr, names: seq<Name>, names': seq<Name>, fns: Fns, fns': Fns, ch: Chunk, pc: nat, back: nat)
    requires LaidInc(c, names, fns, ch, pc, back) && Extends(fns, fns') && (names' == names || NoLocalsOpt(c))
    ensures LaidInc(c, names', fns', ch, pc, back)
  {
    hide LaidE, SizeE;
    if c.SomeExpr? {
      RelaidE(c.e, names, names', fns, fns', ch, pc + 3);
    }
  }

  lemma {:induction false} RelaidFor(s: Stmt, names: seq<Name>, names': seq<Name>, fns: Fns, fns': Fns, ch: Chunk,
                                     pc: nat, nc: nat)
    requires s.For? && LaidS(s, names, fns, ch, pc, nc) && Extends(fns, fns') && (names' == names || NoLocals(s))
    ensures LaidS(s, names', fns', ch, pc, nc)
    decreases s, 0
  {
    hide LaidE, SizeE, SizeS, LaidCond, LaidInc, SizeCond, SizeInc;
    var q := pc + SizeInit(s.init);
    var ns := match s.init case NoVar => names case SomeVar(x, _) => names + [x];
    var ns' := match s.init case NoVar => names' case SomeVar(x, _) => names' + [x];
    if s.init.SomeVar? {
      RelaidE(s.init.e, ns, ns', fns, fns', ch, pc);
    }
    RelaidCond(s.cond, ns, ns', fns, fns', ch, q, SizeInc(s.inc) + SizeS(s.body) + 3);
    RelaidInc(s.inc, ns, ns', fns, fns', ch, q + SizeCond(s.cond), SizeCond(s.cond));
    RelaidS(s.body, ns, ns', fns, fns', ch, q + SizeCond(s.cond) + SizeInc(s.inc), nc);
  }

  lemma {:induction false} RelaidArms(a: Arms, names: seq<Name>, names': seq<Name>, fns: Fns, fns': Fns, ch: Chunk,
                                      pc: nat, nc: nat)
    requires LaidArms(a, names, fns, ch, pc, nc) && Extends(fns, fns') && (names' == names || NoLocalsArms(a))
    ensures LaidArms(a, names', fns', ch, pc, nc)
    decreases a, 0
  {
    hide LaidE, SizeE, SizeS, LaidS;
    match a
    case End =>
    case Else(s) => RelaidS(s, names, names', fns, fns', ch, pc, nc);
    case Elif(c, s, t) =>
      RelaidE(c, names, names', fns, fns', ch, pc);
      RelaidS(s, names, names', fns, fns', ch, pc + SizeE(c) + 3, nc);
      RelaidArms(t, names, names', fns, fns', ch, pc + SizeE(c) + 3 + SizeS(s) + 3, nc + IfsS(s));
  }

  lemma {:induction false} RelaidD(ds: Decls, names: seq<Name>, names': seq<Name>, fns: Fns, fns': Fns, ch: Chunk,
                                   pc: nat, nc: nat)
    requires LaidD(ds, names, fns, ch, pc, nc) && Extends(fns, fns') && (names' == names || NoLocalsD(ds))
    ensures LaidD(ds, names', fns', ch, pc, nc)
    decreases ds, 0
  {
    hide LaidE, SizeE, SizeS, LaidS;
    match ds
    case Done =>
    case Then(Var(x, e), t) =>
      RelaidE(e, names + [x], names' + [x], fns, fns', ch, pc);
      RelaidD(t, names + [x], names' + [x], fns, fns', ch, pc + SizeE(e) + 2, nc);
    case Then(Do(s), t) =>
      RelaidS(s, names, names', fns, fns', ch, pc, nc);
      RelaidD(t, names, names', fns, fns', ch, pc + SizeS(s), nc + IfsS(s));
  }

  // -------------------------------------------------------------- semantics

  /** The functions known to item `i`: those declared before it. */
  function Known(items: seq<Item>, i: nat): Program
    requires i <= |items|
  {
    Program(DefsOf(items[..i]), FnsOf(items[..i], 0))
  }

  /** A script runs its items in order. Its only variable is the unnamed first slot. */
  function RunItems(items: seq<Item>, i: nat, blank: Name, vals: Vals, out: Output, fuel: nat): SR
    requires i <= |items|
    decreases |items| - i
  {
    if i == |items| then Norm(vals, out)
    else
      match items[i]
      case Fun(_, _) => RunItems(items, i + 1, blank, vals, out, fuel)
      case Stat(s, _) =>
        var r := Exec(Known(items, i), s, [blank], vals, out, fuel);
        if r.Norm? then RunItems(items, i + 1, blank, r.vals, r.out, fuel) else r
  }

  // ------------------------------------------------------------ the machine

  function ScriptWorld(script: Chunk, funcs: seq<Function>, limit: nat): World {
    World(funcs + [Function(0, script)], limit)
  }

  /** The machine as `interpret` starts it; `idle` is what the unused cells hold. */
  function Start(funcs: seq<Function>, objs: seq<Element>, idle: seq<Element>): Machine {
    Machine(0, [Closure(|funcs|)], idle, [Frame(|funcs|, 0, 0, 255)], 0, 0, objs, [], Running)
  }

  /** Cells that the items leave on the stack, at least. */
  function LeftItems(items: seq<Item>): nat {
    if items == [] then 0
    else LeftItems(items[..|items| - 1]) + (match items[|items| - 1] case Fun(_, _) => 0 case Stat(s, _) => Leaves(s))
  }

  /** A statement that uses slots after a function does not name what lies in the functions' slots. */
  predicate Unnamed(items: seq<Item>, i: nat, blank: Name)
    requires i < |items| && items[i].Stat?
  {
    FunCount(items[..i]) == 0 || NoLocals(items[i].s) || Avoids(items[i].s, blank)
  }

  /** Each function of the script takes a slot of the script's compiler but nothing of its stack.
      The machine stands before a statement that uses slots, and the cells before them are not
      all in use. */
  predicate LowAt(items: seq<Item>, i: nat, m: Machine)
    requires i < |items|
  {
    items[i].Stat? && !NoLocals(items[i].s) && |m.stack| < 1 + FunCount(items[..i])
  }

  /** The stack is never low: before each such statement, on every path, expression statements have
      left as many values as there are functions. */
  predicate High(items: seq<Item>) {
    forall i :: 0 <= i < |items| && items[i].Stat? && !NoLocals(items[i].s) ==>
      FunCount(items[..i]) <= LeftItems(items[..i])
  }

  /** The limits of the machine, item by item. */
  predicate SoundAt(items: seq<Item>, i: nat, blank: Name, script: Chunk, funcs: seq<Function>)
    requires i < |items|
  {
    var q := items[..i];
    match items[i]
    case Fun(_, d) => FunCount(q) < |funcs| && SoundD(d.body, funcs[FunCount(q)].ch, 2 * |d.params|, 0)
    case Stat(s, _) => SoundS(s, script, SizeItems(q), IfsItems(q)) && Unnamed(items, i, blank)
  }

  predicate SoundScript(items: seq<Item>, blank: Name, script: Chunk, funcs: seq<Function>) {
    forall i :: 0 <= i < |items| ==> SoundAt(items, i, blank, script, funcs)
  }

  /** A script as the compiler left it, within the machine's limits. */
  predicate Script(items: seq<Item>, blank: Name, obj: nat, script: Chunk, funcs: seq<Function>) {
    && LaidScript(items, blank, obj, script, funcs) && SoundScript(items, blank, script, funcs)
    && (forall i :: 0 <= i < |items| && items[i].Fun? ==> items[i].f !in FnsOf(items[..i], obj))
  }

  function SettingAt(items: seq<Item>, i: nat, obj: nat, w: World): Setting
    requires i <= |items|
  {
    Setting(w, Known(items, i), FnsOf(items[..i], obj))
  }

  lemma {:induction false} Shifted(items: seq<Item>, obj: nat)
    ensures FnsOf(items, obj).Keys == FnsOf(items, 0).Keys
    ensures forall f :: f in FnsOf(items, obj) ==>
            FnsOf(items, obj)[f] == obj + FnsOf(items, 0)[f] && FnsOf(items, 0)[f] < FunCount(items)
    decreases |items|
  {
    if items != [] {
      Shifted(items[..|items| - 1], obj);
    }
  }

  lemma FunStep(items: seq<Item>, i: nat, obj: nat)
    requires i < |items|
    ensures items[i].Fun? ==>
              && FnsOf(items[..i + 1], obj) == FnsOf(items[..i], obj)[items[i].f := obj + FunCount(items[..i])]
              && DefsOf(items[..i + 1]) == DefsOf(items[..i]) + [items[i].d]
              && FunCount(items[..i + 1]) == FunCount(items[..i]) + 1
    ensures items[i].Stat? ==>
              && FnsOf(items[..i + 1], obj) == FnsOf(items[..i], obj)
              && DefsOf(items[..i + 1]) == DefsOf(items[..i])
              && FunCount(items[..i + 1]) == FunCount(items[..i])
  {
    var q := items[..i + 1];
    assert q[..|q| - 1] == items[..i] && q[|q| - 1] == items[i];
  }

  /** OP_CLOSURE makes the next function known. */
  lemma LinkNext(items: seq<Item>, i: nat, blank: Name, obj: nat, script: Chunk, funcs: seq<Function>, w: World,
                 objs: seq<Element>, objs': seq<Element>)
    requires Script(items, blank, obj, script, funcs) && w == ScriptWorld(script, funcs, w.limit)
    requires i < |items| && items[i].Fun? && Linked(SettingAt(items, i, obj, w), objs)
    requires var o := obj + FunCount(items[..i]); o < |objs| && objs' == objs[o := Closure(FunCount(items[..i]))]
    ensures Linked(SettingAt(items, i + 1, obj, w), objs')
  {
    hide Script, LaidD, SoundD, FunCount, FnsOf, DefsOf, Compiled;
    var s, t := SettingAt(items, i, obj, w), SettingAt(items, i + 1, obj, w);
    var n := FunCount(items[..i]);
    FunStep(items, i, obj);
    FunStep(items, i, 0);
    Shifted(items[..i], obj);
    NextCompiled(items, i, blank, obj, script, funcs);
    forall j | 0 <= j < |t.p.defs| ensures Compiled(t.p.defs[j], t.fns, w.funcs[j]) {
      if j < n {
        StillCompiled(s.p.defs[j], s.fns, t.fns, w.funcs[j]);
      }
    }
  }

  lemma NextCompiled(items: seq<Item>, i: nat, blank: Name, obj: nat, script: Chunk, funcs: seq<Function>)
    requires Script(items, blank, obj, script, funcs) && i < |items| && items[i].Fun?
    ensures var n := FunCount(items[..i]);
            && items[i].f !in FnsOf(items[..i], obj) && n < |funcs|
            && Compiled(items[i].d, FnsOf(items[..i], obj)[items[i].f := obj + n], funcs[n])
  {
    hide LaidD, SoundD, FunCount, FnsOf, SizeItems, IfsItems, LitsItems;
    assert LaidAt(items, i, blank, obj, script, funcs) && SoundAt(items, i, blank, script, funcs);
  }

  lemma StillCompiled(d: FunDef, fns: Fns, fns': Fns, g: Function)
    requires Compiled(d, fns, g) && Extends(fns, fns')
    ensures Compiled(d, fns', g)
  {
    hide LaidD, SoundD;
    RelaidD(d.body, d.params, d.params, fns, fns', g.ch, 2 * |d.params|, 0);
  }

  // ---------------------------------------------------------- running items

  /** The machine stands before item `i`. */
  predicate AtSpot(items: seq<Item>, i: nat, obj: nat, script: Chunk, funcs: seq<Function>, w: World, m: Machine,
                   vals: Vals)
    requires i <= |items|
  {
    && w == ScriptWorld(script, funcs, w.limit) && Ready(w, m, vals) && |vals| == 1
    && |m.frames| == 1 && Top(m).fn == |funcs| && Base(m) == 0 && m.ip == SizeItems(items[..i])
    && 1 + LeftItems(items[..i]) <= |m.stack|
    && Linked(SettingAt(items, i, obj, w), m.objs) && obj + FunCount(items) <= |m.objs|
  }

  /** What a run from `m` to `m'` must show for the result `r` of the rest of a script. */
  predicate Shows(m': Machine, r: SR, n: nat, fuel: nat) {
    || Spent(m')
    || (match r
        case Norm(_, out) => m'.status == Finished && m'.out == out
        case Ret(_, out) => m'.status == Finished && m'.out == out
        case Void(out) => m'.status == Finished && m'.out == out
        case SStop(e) => Ended(m', e, n, fuel))
  }

  lemma SizeStep(items: seq<Item>, i: nat)
    requires i < |items|
    ensures SizeItems(items[..i + 1]) == SizeItems(items[..i]) + SizeItem(items[i])
    ensures LeftItems(items[..i + 1]) == LeftItems(items[..i]) + (match items[i] case Fun(_, _) => 0 case Stat(s, _) =>
            Leaves(s))
    ensures FunCount(items[..i]) <= FunCount(items) && (items[i].Fun? ==> FunCount(items[..i]) < FunCount(items))
  {
    var q := items[..i + 1];
    assert q[..|q| - 1] == items[..i] && q[|q| - 1] == items[i];
    PrefixBounds(items, i + 1);
  }

  lemma StepClosure(items: seq<Item>, i: nat, blank: Name, obj: nat, script: Chunk, funcs: seq<Function>, w: World,
                    m: Machine, vals: Vals)
    requires Script(items, blank, obj, script, funcs) && i < |items| && items[i].Fun?
    requires AtSpot(items, i, obj, script, funcs, w, m, vals)
    ensures AtSpot(items, i + 1, obj, script, funcs, w, Step(w, m), vals) && Step(w, m).out == m.out
  {
    SizeStep(items, i);
    assert LaidAt(items, i, blank, obj, script, funcs);
    hide SizeItems, LeftItems, FunCount, FnsOf, DefsOf, Linked;
    var o := obj + FunCount(items[..i]);
    assert Step(w, m) == m.(ip := m.ip + 3, objs := m.objs[o := Closure(FunCount(items[..i]))]);
    LinkNext(items, i, blank, obj, script, funcs, w, m.objs, Step(w, m).objs);
  }

  lemma RunStat(items: seq<Item>, i: nat, blank: Name, obj: nat, script: Chunk, funcs: seq<Function>, w: World,
                m: Machine, vals: Vals, fuel: nat)
    returns (n: nat)
    requires Script(items, blank, obj, script, funcs) && i < |items| && items[i].Stat?
    requires AtSpot(items, i, obj, script, funcs, w, m, vals) && !LowAt(items, i, m)
    ensures var r, m' := Exec(Known(items, i), items[i].s, [blank], vals, m.out, fuel), StepN(w, m, n);
            AfterS(w, m, m', r, SizeS(items[i].s), Leaves(items[i].s), 1, n, fuel)
  {
    assert LaidAt(items, i, blank, obj, script, funcs) && SoundAt(items, i, blank, script, funcs);
    var q, s := items[..i], SettingAt(items, i, obj, w);
    var names := Emission.Names(Blanks(blank, FunCount(q)));
    assert FunCount(q) == 0 ==> names == [blank];
    hide LaidS, SoundS, SizeItems, LeftItems, FunCount, FnsOf, DefsOf, Linked, IfsItems, Exec, StepN, Leaves;
    if FunCount(q) == 0 || NoLocals(items[i].s) {
      RelaidS(items[i].s, names, [blank], s.fns, s.fns, script, m.ip, IfsItems(q));
      n := SimS(s, items[i].s, [blank], vals, fuel, m, IfsItems(q));
    } else {
      n := RunAbove(s, items[i].s, blank, FunCount(q), vals, fuel, m, IfsItems(q));
    }
  }

  /** A statement of the script after `k` functions: the cells that stand where the functions'
      slots are count as unnamed variables. */
  lemma RunAbove(s: Setting, t: Stmt, blank: Name, k: nat, vals: Vals, fuel: nat, m: Machine, nc: nat) returns (n: nat)
    requires Ready(s.w, m, vals) && |vals| == 1 && Base(m) == 0 && 1 + k <= |m.stack| && Linked(s, m.objs)
             && Avoids(t, blank)
    requires LaidS(t, Emission.Names(Blanks(blank, k)), s.fns, CodeOf(s.w, m), m.ip, nc)
             && SoundS(t, CodeOf(s.w, m), m.ip, nc)
    ensures AfterS(s.w, m, StepN(s.w, m, n), Exec(s.p, t, [blank], vals, m.out, fuel), SizeS(t), Leaves(t), 1, n, fuel)
  {
    hide LaidS, SoundS, Linked, Exec, StepN, Leaves, Avoids, SizeS, Reached;
    var names, vals' := Emission.Names(Blanks(blank, k)), m.stack[..1 + k];
    assert names == Behind([blank], Copies(blank, k));
    assert vals' == Behind(vals, m.stack[1..1 + k]);
    PaddedS(s.p, t, [blank], vals, m.out, fuel, blank, m.stack[1..1 + k]);
    Loops.KeptS(s.p, t, [blank], vals, m.out, fuel);
    n := SimS(s, t, names, vals', fuel, m, nc);
    var r := Exec(s.p, t, [blank], vals, m.out, fuel);
    if r.Norm? && !Spent(StepN(s.w, m, n)) {
      Unpadded(s.w, m, StepN(s.w, m, n), SizeS(t), Leaves(t), r.vals, m.stack[1..1 + k], r.out);
    }
  }

  lemma Unpadded(w: World, m: Machine, m': Machine, bytes: nat, up: nat, vals: Vals, g: Vals, out: Output)
    requires |m.frames| > 0 && |vals| == 1 && Reached(w, m, m', bytes, up, Behind(vals, g), out)
    ensures Reached(w, m, m', bytes, up, vals, out)
  {
    var b := Base(m);
    Prefix(m'.stack, b, |vals| + |g|, |vals|);
    assert Behind(vals, g)[..1] == vals;
  }

  /** A statement done, the machine stands before the next item. */
  lemma NextItem(items: seq<Item>, i: nat, obj: nat, script: Chunk, funcs: seq<Function>, w: World, m: Machine,
                 m': Machine, vals: Vals, vals': Vals, out: Output)
    requires i < |items| && items[i].Stat? && AtSpot(items, i, obj, script, funcs, w, m, vals) && |vals'| == 1
    requires Reached(w, m, m', SizeS(items[i].s), Leaves(items[i].s), vals', out)
    ensures AtSpot(items, i + 1, obj, script, funcs, w, m', vals') && m'.out == out
  {
    SizeStep(items, i);
    FunStep(items, i, obj);
    FunStep(items, i, 0);
    hide Linked, FnsOf, DefsOf, FunCount, SizeItems, LeftItems, SizeS, Leaves;
  }

  lemma EndOfScript(items: seq<Item>, blank: Name, obj: nat, script: Chunk, funcs: seq<Function>, w: World, m: Machine,
                    vals: Vals)
    requires Script(items, blank, obj, script, funcs) && AtSpot(items, |items|, obj, script, funcs, w, m, vals)
    ensures Step(w, m).status == Finished && Step(w, m).out == m.out
  {
    assert items[..|items|] == items;
    hide LeftItems, SizeItems, FunCount, FnsOf, DefsOf, Linked;
  }

  /** The machine stands before a statement with too low a stack, and the source, having printed the
      same, before that statement; `r` is the result of all that was to be run. */
  ghost predicate LowStop(items: seq<Item>, j: nat, blank: Name, obj: nat, script: Chunk, funcs: seq<Function>,
                          w: World,
                          m: Machine, r: SR, fuel: nat)
    requires j < |items|
  {
    LowAt(items, j, m) && exists vals ::
      AtSpot(items, j, obj, script, funcs, w, m, vals) && r == RunItems(items, j, blank, vals, m.out, fuel)
  }

  lemma NeverLow(items: seq<Item>, j: nat, blank: Name, obj: nat, script: Chunk, funcs: seq<Function>, w: World,
                 m: Machine, r: SR, fuel: nat)
    requires High(items) && j < |items|
    ensures !LowStop(items, j, blank, obj, script, funcs, w, m, r, fuel)
  {
  }

  /** Running from item `i`: the rest of the script behaves as its source, or does so up to an item
      that the machine reaches with too low a stack. */
  lemma {:induction false} RunFrom(items: seq<Item>, i: nat, blank: Name, obj: nat, script: Chunk, funcs: seq<Function>,
                                   w: World, m: Machine, vals: Vals, fuel: nat)
    returns (n: nat, j: nat)
    requires i <= |items| && Script(items, blank, obj, script, funcs)
    requires AtSpot(items, i, obj, script, funcs, w, m, vals)
    ensures i <= j <= |items|
    ensures var r := RunItems(items, i, blank, vals, m.out, fuel);
            if j == |items| then Shows(StepN(w, m, n), r, n, fuel)
            else LowStop(items, j, blank, obj, script, funcs, w, StepN(w, m, n), r, fuel)
    decreases |items| - i
  {
    hide Script, AtSpot, Exec, Step, Reached, Ended, LowAt, LowStop;
    if i == |items| {
      EndOfScript(items, blank, obj, script, funcs, w, m, vals);
      n, j := 1, i;
      assert StepN(w, Step(w, m), 0) == Step(w, m);
    } else if items[i].Fun? {
      StepClosure(items, i, blank, obj, script, funcs, w, m, vals);
      n, j := RunFrom(items, i + 1, blank, obj, script, funcs, w, Step(w, m), vals, fuel);
      if j == |items| {
        MoreSteps(StepN(w, Step(w, m), n), RunItems(items, i + 1, blank, vals, m.out, fuel), n, 1, fuel);
      }
      n := n + 1;
    } else if LowAt(items, i, m) {
      n, j := 0, i;
      LowHere(items, i, blank, obj, script, funcs, w, m, vals, fuel);
    } else {
      Frames(items, i, obj, script, funcs, w, m, vals);
      n := RunStat(items, i, blank, obj, script, funcs, w, m, vals, fuel);
      j := |items|;
      var r := Exec(Known(items, i), items[i].s, [blank], vals, m.out, fuel);
      var m1 := StepN(w, m, n);
      if r.Norm? && !Spent(m1) {
        NextItem(items, i, obj, script, funcs, w, m, m1, vals, r.vals, r.out);
        var n2;
        n2, j := RunFrom(items, i + 1, blank, obj, script, funcs, w, m1, r.vals, fuel);
        StepNAdd(w, m, n, n2);
        if j == |items| {
          MoreSteps(StepN(w, m1, n2), RunItems(items, i + 1, blank, r.vals, r.out, fuel), n2, n, fuel);
        }
        n := n + n2;
      }
    }
  }

  lemma LowHere(items: seq<Item>, i: nat, blank: Name, obj: nat, script: Chunk, funcs: seq<Function>, w: World,
                m: Machine,
                vals: Vals, fuel: nat)
    requires i < |items| && LowAt(items, i, m) && AtSpot(items, i, obj, script, funcs, w, m, vals)
    ensures LowStop(items, i, blank, obj, script, funcs, w, m, RunItems(items, i, blank, vals, m.out, fuel), fuel)
  {
    hide AtSpot, LowAt, RunItems;
  }

  lemma Frames(items: seq<Item>, i: nat, obj: nat, script: Chunk, funcs: seq<Function>, w: World, m: Machine,
               vals: Vals)
    requires i <= |items| && AtSpot(items, i, obj, script, funcs, w, m, vals)
    ensures |m.frames| == 1
  {
  }

  lemma MoreSteps(m: Machine, r: SR, n: nat, more: nat, fuel: nat)
    requires Shows(m, r, n, fuel)
    ensures Shows(m, r, n + more, fuel)
  {
  }
}
