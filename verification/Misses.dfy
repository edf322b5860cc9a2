/** Programs that miss a limit: the machine ends as if nothing had happened, with the wrong
    output. */
module Misses {
  import opened Values
  import opened Syntax
  import opened Bytecode
  import opened Layout
  import opened Machine
  import opened Semantics
  import opened ExprSimulation
  import opened Simulation
  import opened Functions
  import opened Scripts
  import opened Limits
  import Emission
  import L = StmtEmission

  // ------------------------------------------------------ single instructions

  /** `m` at `pc`, with the first `c` of `cells` in use. */
  function Snapshot(m: Machine, pc: nat, cells: seq<Element>, c: nat, out: seq<Element>): Machine
    requires c <= |cells|
  {
    m.(ip := pc, stack := cells[..c], spare := cells[c..], out := out)
  }

  predicate Runs(w: World, m: Machine, cells: seq<Element>, c: nat) {
    m.status == Running && |m.frames| == 1 && Base(m) == 0 && c <= |cells| == w.limit
  }

  lemma Same(w: World, m: Machine, pc: nat, cells: seq<Element>, c: nat, out: seq<Element>)
    requires Runs(w, m, cells, c)
    ensures var n := Snapshot(m, pc, cells, c, out);
            && Cells(n) == cells && n.stack == cells[..c] && n.ip == pc && n.out == out
            && n.status == Running && n.frames == m.frames && CodeOf(w, n) == CodeOf(w, m)
  {
  }

  lemma Constant(w: World, m: Machine, pc: nat, cells: seq<Element>, c: nat, out: seq<Element>, v: Element)
    requires Runs(w, m, cells, c) && c < w.limit && LaidE(Lit(v), [], map[], CodeOf(w, m), pc)
    ensures Step(w, Snapshot(m, pc, cells, c, out)) == Snapshot(m, pc + 2, cells[c := v], c + 1, out)
  {
    Same(w, m, pc, cells, c, out);
    assert cells[c := v][..c + 1] == cells[..c] + [v];
  }

  lemma Load(w: World, m: Machine, pc: nat, cells: seq<Element>, c: nat, out: seq<Element>, k: nat)
    requires Runs(w, m, cells, c) && c < w.limit && k < w.limit && At2(CodeOf(w, m), pc, OP_GET_LOCAL, k)
    ensures Step(w, Snapshot(m, pc, cells, c, out)) == Snapshot(m, pc + 2, cells[c := cells[k]], c + 1, out)
  {
    Same(w, m, pc, cells, c, out);
    assert cells[c := cells[k]][..c + 1] == cells[..c] + [cells[k]];
  }

  lemma Set(w: World, m: Machine, pc: nat, cells: seq<Element>, c: nat, out: seq<Element>, k: nat)
    requires Runs(w, m, cells, c) && c > 0 && k < w.limit && At2(CodeOf(w, m), pc, OP_SET_LOCAL, k)
    ensures Step(w, Snapshot(m, pc, cells, c, out)) == Snapshot(m, pc + 2, cells[k := cells[c - 1]], c, out)
  {
    Same(w, m, pc, cells, c, out);
    var n := Snapshot(m, pc, cells, c, out);
    SetStep(w, n, k);
    assert Last(n.stack) == cells[c - 1];
    if k < c {
      assert cells[k := cells[c - 1]][c..] == cells[c..];
    } else {
      assert cells[k := cells[c - 1]][..c] == cells[..c];
    }
  }

  lemma Plus(w: World, m: Machine, pc: nat, cells: seq<Element>, c: nat, out: seq<Element>)
    requires Runs(w, m, cells, c) && c > 1 && cells[c - 2].Num? && cells[c - 1].Num? && At1(CodeOf(w, m), pc, OP_ADD)
    ensures Step(w, Snapshot(m, pc, cells, c, out)) ==
            Snapshot(m, pc + 1, cells[c - 2 := Num(cells[c - 2].num + cells[c - 1].num)], c - 1, out)
  {
    Same(w, m, pc, cells, c, out);
    var n, v := Snapshot(m, pc, cells, c, out), Num(cells[c - 2].num + cells[c - 1].num);
    assert Step(w, n) == StepBinary(n.(ip := pc + 1), OP_ADD);
    assert Peek(n, 0) == cells[c - 1] && Peek(n, 1) == cells[c - 2];
    assert Popped(n.stack, 2) + [v] == cells[c - 2 := v][..c - 1];
  }

  lemma Print(w: World, m: Machine, pc: nat, cells: seq<Element>, c: nat, out: seq<Element>)
    requires Runs(w, m, cells, c) && c > 0 && At1(CodeOf(w, m), pc, OP_PRINT)
    ensures Step(w, Snapshot(m, pc, cells, c, out)) == Snapshot(m, pc + 1, cells, c - 1, out + [cells[c - 1]])
  {
    Same(w, m, pc, cells, c, out);
    assert Popped(cells[..c], 1) == cells[..c - 1];
  }

  lemma Drop(w: World, m: Machine, pc: nat, cells: seq<Element>, c: nat, out: seq<Element>)
    requires Runs(w, m, cells, c) && At1(CodeOf(w, m), pc, OP_POP)
    ensures Step(w, Snapshot(m, pc, cells, c, out)) == Snapshot(m, pc + 1, cells, if c > 0 then c - 1 else 0, out)
  {
    Same(w, m, pc, cells, c, out);
    assert Popped(cells[..c], 1) == cells[..if c > 0 then c - 1 else 0];
  }

  /** OP_POPN, with more to pop than there is. */
  lemma DropAll(w: World, m: Machine, pc: nat, cells: seq<Element>, c: nat, out: seq<Element>, k: nat)
    requires Runs(w, m, cells, c) && k > 0 && At2(CodeOf(w, m), pc, OP_POPN, k - 1)
    requires k - 1 < |CodeOf(w, m).consts| && CodeOf(w, m).consts[k - 1].Num?
             && Trunc(CodeOf(w, m).consts[k - 1].num) >= c
    ensures Step(w, Snapshot(m, pc, cells, c, out)) == Snapshot(m, pc + 2, cells, 0, out)
  {
    Same(w, m, pc, cells, c, out);
    PopnStep(w, Snapshot(m, pc, cells, c, out), k);
    hide Trunc;
  }

  lemma Finish(w: World, m: Machine, pc: nat, cells: seq<Element>, c: nat, out: seq<Element>)
    requires Runs(w, m, cells, c) && At1(CodeOf(w, m), pc, OP_RETURN)
    ensures var n := Step(w, Snapshot(m, pc, cells, c, out)); n.status == Finished && n.out == out
  {
    Same(w, m, pc, cells, c, out);
  }

  lemma Five(w: World, m: Machine)
    ensures StepN(w, m, 5) == Step(w, Step(w, Step(w, Step(w, Step(w, m)))))
  {
    hide Step;
    var m2 := Step(w, Step(w, m));
    assert StepN(w, m, 2) == StepN(w, m2, 0);
    StepNAdd(w, m, 2, 3);
    var m4 := Step(w, Step(w, m2));
    assert StepN(w, m2, 3) == StepN(w, m4, 1);
    assert StepN(w, m4, 1) == StepN(w, Step(w, m4), 0);
  }

  // --------------------------------------------- `pout(x + b); pout(x);`

  function Twice(x: Name, b: real): Decls {
    Then(Do(Pout(Cons(Bin(Add, Local(x), Lit(Num(b))), Nil))), Then(Do(Pout(Cons(Local(x), Nil))), Done))
  }

  /** The bytes of `pout(x + b); pout(x);` and of the end of a scope and script after it. */
  predicate TwiceAt(ch: Chunk, pc: nat, slot: nat, b: real) {
    && At2(ch, pc, OP_GET_LOCAL, slot) && LaidE(Lit(Num(b)), [], map[], ch, pc + 2)
    && At1(ch, pc + 4, OP_ADD) && At1(ch, pc + 5, OP_PRINT)
    && At2(ch, pc + 6, OP_GET_LOCAL, slot) && At1(ch, pc + 8, OP_PRINT)
    && At1(ch, pc + 9, OP_POP) && At1(ch, pc + 10, OP_RETURN)
  }

  lemma TwiceLaid(x: Name, b: real, names: seq<Name>, fns: Fns, ch: Chunk, pc: nat, nc: nat)
    requires LaidD(Twice(x, b), names, fns, ch, pc, nc) && At1(ch, pc + 9, OP_POP) && At1(ch, pc + 10, OP_RETURN)
    requires Newest(names, x) >= 0
    ensures TwiceAt(ch, pc, Newest(names, x), b)
  {
    hide Newest;
    TwiceSizes(x, b);
    var sum, once := Cons(Bin(Add, Local(x), Lit(Num(b))), Nil), Cons(Local(x), Nil);
    assert LaidS(Pout(sum), names, fns, ch, pc, nc) && LaidPout(sum, names, fns, ch, pc);
    assert LaidE(sum.head, names, fns, ch, pc);
    assert LaidD(Then(Do(Pout(once)), Done), names, fns, ch, pc + 6, nc);
    assert LaidS(Pout(once), names, fns, ch, pc + 6, nc) && LaidPout(once, names, fns, ch, pc + 6);
    assert LaidE(Local(x), names, fns, ch, pc + 6);
    assert LaidE(Local(x), names, fns, ch, pc) && LaidE(Lit(Num(b)), names, fns, ch, pc + 2);
  }

  lemma TwiceSizes(x: Name, b: real)
    ensures var sum, once := Cons(Bin(Add, Local(x), Lit(Num(b))), Nil), Cons(Local(x), Nil);
            && SizeE(sum.head) == 5 && SizeE(Local(x)) == 2 && SizePout(sum) == 6 && SizePout(once) == 3
            && SizeD(Twice(x, b)) == 9 && Declared(Twice(x, b)) == []
            && IfsS(Pout(sum)) == 0 && IfsS(Pout(once)) == 0
  {
    var sum, once := Cons(Bin(Add, Local(x), Lit(Num(b))), Nil), Cons(Local(x), Nil);
    assert SizePout(Nil) == 0 && SizeE(Local(x)) == 2 && SizeE(Lit(Num(b))) == 2;
    assert SizeE(sum.head) == 5;
    assert SizeD(Done) == 0 && Declared(Done) == [];
    var last := Then(Do(Pout(once)), Done);
    assert SizeD(last) == 3 && Declared(last) == [];
  }

  /** With `a` in a cell that is not in use: the second `pout` prints what the sum left there. */
  lemma TwiceRuns(w: World, m: Machine, pc: nat, cells: seq<Element>, c: nat, slot: nat, a: real, b: real)
    requires Runs(w, m, cells, c) && c + 2 <= w.limit && TwiceAt(CodeOf(w, m), pc, slot, b)
    requires c <= slot <= c + 1 && cells[slot] == Num(a)
    ensures var m' := StepN(w, Snapshot(m, pc, cells, c, []), 8);
            m'.status == Finished && m'.out == [Num(a + b), Num(if slot == c then a + b else b)]
  {
    hide Step, StepN, LaidE, Snapshot;
    var c1 := cells[c := Num(a)];
    var c2 := c1[c + 1 := Num(b)];
    var c3 := c2[c := Num(a + b)];
    Load(w, m, pc, cells, c, [], slot);
    Constant(w, m, pc + 2, c1, c + 1, [], Num(b));
    Plus(w, m, pc + 4, c2, c + 2, []);
    Print(w, m, pc + 5, c3, c + 1, []);
    var v := c3[slot];
    assert v == Num(if slot == c then a + b else b);
    var m4 := Snapshot(m, pc + 6, c3, c, [Num(a + b)]);
    Load(w, m, pc + 6, c3, c, m4.out, slot);
    assert [] + [c3[c]] == [Num(a + b)];
    TwiceEnds(w, m, pc + 6, c3, c, [Num(a + b)], slot);
    Eight(w, Snapshot(m, pc, cells, c, []), m4);
  }

  lemma TwiceEnds(w: World, m: Machine, pc: nat, cells: seq<Element>, c: nat, out: seq<Element>, slot: nat)
    requires Runs(w, m, cells, c) && c < w.limit && slot < w.limit
    requires At2(CodeOf(w, m), pc, OP_GET_LOCAL, slot) && At1(CodeOf(w, m), pc + 2, OP_PRINT)
    requires At1(CodeOf(w, m), pc + 3, OP_POP) && At1(CodeOf(w, m), pc + 4, OP_RETURN)
    ensures var m' := StepN(w, Snapshot(m, pc, cells, c, out), 4);
            m'.status == Finished && m'.out == out + [cells[slot]]
  {
    hide Step, StepN, Snapshot;
    var v := cells[slot];
    var c1 := cells[c := v];
    Load(w, m, pc, cells, c, out, slot);
    Print(w, m, pc + 2, c1, c + 1, out);
    Drop(w, m, pc + 3, c1, c, out + [v]);
    Finish(w, m, pc + 4, c1, if c > 0 then c - 1 else 0, out + [v]);
    Four(w, Snapshot(m, pc, cells, c, out));
  }

  lemma Four(w: World, m: Machine)
    ensures StepN(w, m, 4) == Step(w, Step(w, Step(w, Step(w, m))))
  {
    hide Step;
    var m2 := Step(w, Step(w, m));
    assert StepN(w, m2, 2) == StepN(w, Step(w, Step(w, m2)), 0);
    StepNAdd(w, m, 2, 2);
    assert StepN(w, m, 2) == StepN(w, m2, 0);
  }

  lemma Eight(w: World, m: Machine, m4: Machine)
    requires m4 == Step(w, Step(w, Step(w, Step(w, m))))
    ensures StepN(w, m, 8) == StepN(w, m4, 4)
  {
    hide Step;
    Four(w, m);
    StepNAdd(w, m, 4, 4);
  }

  /** What `pout(x + b); pout(x);` means. */
  lemma TwiceMeans(p: Program, x: Name, a: real, b: real, names: seq<Name>, vals: Vals, out: Output, fuel: nat)
    requires Has(names, vals, x) && Lookup(names, vals, x) == Num(a)
    ensures ExecD(p, Twice(x, b), names, vals, out, fuel) == Norm(vals, out + [Num(a + b), Num(a)])
  {
    hide Newest, Has, Lookup;
    var sum, once := Cons(Bin(Add, Local(x), Lit(Num(b))), Nil), Cons(Local(x), Nil);
    assert EvalE(p, Local(x), names, vals, out, fuel) == Val(Num(a), vals, out);
    assert EvalE(p, Lit(Num(b)), names, vals, out, fuel) == Val(Num(b), vals, out);
    assert EvalE(p, sum.head, names, vals, out, fuel) == Val(Num(a + b), vals, out);
    var out1 := out + [Num(a + b)];
    assert ExecPout(p, sum, names, vals, out, fuel) == ExecPout(p, Nil, names, vals, out1, fuel) == Norm(vals, out1);
    assert EvalE(p, Local(x), names, vals, out1, fuel) == Val(Num(a), vals, out1);
    var out2 := out1 + [Num(a)];
    assert ExecPout(p, once, names, vals, out1, fuel) == ExecPout(p, Nil, names, vals, out2, fuel) == Norm(vals, out2);
    assert ExecD(p, Done, names, vals, out2, fuel) == Norm(vals, out2);
    assert ExecD(p, Then(Do(Pout(once)), Done), names, vals, out1, fuel) == Norm(vals, out2);
    assert out2 == out + [Num(a + b), Num(a)];
  }

  // ------------------------------------------- variables after a function

  /** `func f() {..} { var x = a; pout(x + b); pout(x); }` */
  function AfterFunction(f: Name, d: FunDef, x: Name, a: real, b: real): seq<Item> {
    [Fun(f, d), Stat(Block(Then(Var(x, Lit(Num(a))), Twice(x, b))), Whole)]
  }

  lemma AfterFunctionMeans(f: Name, d: FunDef, x: Name, a: real, b: real, blank: Name, c: Element, fuel: nat)
    ensures RunItems(AfterFunction(f, d, x, a, b), 0, blank, [c], [], fuel) == Norm([c], [Num(a + b), Num(a)])
  {
    var items := AfterFunction(f, d, x, a, b);
    var p, ds := Known(items, 1), Then(Var(x, Lit(Num(a))), Twice(x, b));
    var names, vals := [blank] + [x], [c] + [Num(a)];
    Fresh([blank], x);
    TwiceMeans(p, x, a, b, names, vals, [], fuel);
    hide Newest, Twice, Has;
    assert EvalE(p, Lit(Num(a)), names, [c], [], fuel) == Val(Num(a), [c], []);
    assert ExecD(p, ds, [blank], [c], [], fuel) == ExecD(p, Twice(x, b), names, vals, [], fuel);
    assert [] + [Num(a + b), Num(a)] == [Num(a + b), Num(a)];
    assert vals[..1] == [c];
    assert Exec(p, Block(ds), [blank], [c], [], fuel) == Norm([c], [Num(a + b), Num(a)]);
    assert RunItems(items, 2, blank, [c], [Num(a + b), Num(a)], fuel) == Norm([c], [Num(a + b), Num(a)]);
  }

  lemma Fresh(names: seq<Name>, x: Name)
    ensures Newest(names + [x], x) == |names|
  {
  }

  /** Each function takes a slot of the script's compiler and nothing of its stack, so the
      variable stands in a cell that the first sum runs over: the machine prints `a + b` twice. */
  lemma AfterFunctionMisses(f: Name, d: FunDef, x: Name, a: real, b: real, blank: Name, obj: nat, script: Chunk,
                            funcs: seq<Function>, limit: nat, objs: seq<Element>, idle: seq<Element>)
    requires LaidScript(AfterFunction(f, d, x, a, b), blank, obj, script, funcs)
    requires 4 <= limit == 1 + |idle| && obj < |objs|
    ensures var m := StepN(ScriptWorld(script, funcs, limit), Start(funcs, objs, idle), 11);
            m.status == Finished && m.out == [Num(a + b), Num(a + b)]
  {
    var w, m0 := ScriptWorld(script, funcs, limit), Start(funcs, objs, idle);
    var cells := [Closure(|funcs|)] + idle;
    AfterFunctionLaid(f, d, x, a, b, blank, obj, script, funcs);
    var m := m0.(objs := objs[obj := script.consts[script.code[1]]]);
    assert Step(w, m0) == Snapshot(m, 3, cells, 1, []);
    hide Step, StepN, Snapshot, LaidE, LaidScript, AfterFunction;
    var c1 := cells[1 := Num(a)];
    var c2 := c1[2 := Num(a)];
    Constant(w, m, 3, cells, 1, [], Num(a));
    Set(w, m, 5, c1, 2, [], 2);
    TwiceRuns(w, m, 7, c2, 2, 2, a, b);
    Three(w, m0);
    StepNAdd(w, m0, 3, 8);
  }

  lemma Three(w: World, m: Machine)
    ensures StepN(w, m, 3) == Step(w, Step(w, Step(w, m)))
  {
    hide Step;
    var m1 := Step(w, m);
    assert StepN(w, m, 3) == StepN(w, m1, 2);
    assert StepN(w, m1, 2) == StepN(w, Step(w, m1), 1);
    assert StepN(w, Step(w, m1), 1) == StepN(w, Step(w, Step(w, m1)), 0);
  }

  lemma AfterFunctionLaid(f: Name, d: FunDef, x: Name, a: real, b: real, blank: Name, obj: nat, script: Chunk,
                          funcs: seq<Function>)
    requires LaidScript(AfterFunction(f, d, x, a, b), blank, obj, script, funcs)
    ensures At1(script, 0, OP_CLOSURE) && 2 < |script.code| && script.code[1] < |script.consts| && script.code[2] == obj
    ensures LaidE(Lit(Num(a)), [], map[], script, 3) && At2(script, 5, OP_SET_LOCAL, 2) && TwiceAt(script, 7, 2, b)
  {
    var items := AfterFunction(f, d, x, a, b);
    var ds := Then(Var(x, Lit(Num(a))), Twice(x, b));
    TwiceSizes(x, b);
    OneVariable(x, a, b);
    AfterFunctionSizes(f, d, x, a, b, blank, obj);
    var names := Emission.Names(Blanks(blank, 1));
    assert LaidAt(items, 0, blank, obj, script, funcs) && LaidAt(items, 1, blank, obj, script, funcs);
    hide SpotOf, LaidD, SizeItems, Twice;
    BlockParts(ds, names, FnsOf(items[..1], obj), script, 3, IfsItems(items[..1]));
    VarParts(x, Lit(Num(a)), Twice(x, b), names, FnsOf(items[..1], obj), script, 3, IfsItems(items[..1]));
    Fresh(names, x);
    TwiceLaid(x, b, names + [x], FnsOf(items[..1], obj), script, 7, IfsItems(items[..1]));
  }

  lemma OneVariable(x: Name, a: real, b: real)
    ensures var ds := Then(Var(x, Lit(Num(a))), Twice(x, b));
            SizeD(ds) == 13 && Declared(ds) == [x] && SizeS(Block(ds)) == 14
  {
    TwiceSizes(x, b);
    hide Twice;
    assert SizeE(Lit(Num(a))) == 2;
    assert Declared(Then(Var(x, Lit(Num(a))), Twice(x, b))) == [x] + Declared(Twice(x, b));
  }

  lemma AfterFunctionSizes(f: Name, d: FunDef, x: Name, a: real, b: real, blank: Name, obj: nat)
    ensures
      var items := AfterFunction(f, d, x, a, b);
      && SizeItems(items) == 17
      && SpotOf(items, 0, blank, obj).pc == 0 && SpotOf(items, 0, blank, obj).obj == obj
      && SpotOf(items, 1, blank, obj) == Spot(Blanks(blank, 1), FnsOf(items[..1], obj), obj + 1, 1, 3,
           IfsItems(items[..1]))
  {
    var items := AfterFunction(f, d, x, a, b);
    OneVariable(x, a, b);
    hide Twice;
    assert items[..0] == [] && items[..1] == [items[0]] && items[..2] == items;
    NextSpot(items, 0, blank, obj);
    NextSpot(items, 1, blank, obj);
  }

  lemma BlockParts(ds: Decls, names: seq<Name>, fns: Fns, ch: Chunk, pc: nat, nc: nat)
    requires LaidS(Block(ds), names, fns, ch, pc, nc)
    ensures LaidD(ds, names, fns, ch, pc, nc) && LaidPops(|Declared(ds)|, ch, pc + SizeD(ds))
  {
    hide LaidD, SizeD, Declared, LaidPops;
  }

  lemma VarParts(x: Name, e: Expr, rest: Decls, names: seq<Name>, fns: Fns, ch: Chunk, pc: nat, nc: nat)
    requires LaidD(Then(Var(x, e), rest), names, fns, ch, pc, nc)
    ensures LaidE(e, names + [x], fns, ch, pc) && At2(ch, pc + SizeE(e), OP_SET_LOCAL, |names|)
    ensures LaidD(rest, names + [x], fns, ch, pc + SizeE(e) + 2, nc)
  {
    hide LaidE, SizeE;
  }

  // ----------------------------------------------- two variables in a scope

  /** `var y = 5; var z = 6;` */
  function Pair(y: Name, z: Name): Decls {
    Then(Var(y, Lit(Num(5.0))), Then(Var(z, Lit(Num(6.0))), Done))
  }

  /** `var x = a; { var y = 5; var z = 6; } pout(x + b); pout(x);` */
  function Around(x: Name, y: Name, z: Name, a: real, b: real): Decls {
    Then(Var(x, Lit(Num(a))), Then(Do(Block(Pair(y, z))), Twice(x, b)))
  }

  lemma AroundMeans(p: Program, x: Name, y: Name, z: Name, a: real, b: real, blank: Name, c: Element, fuel: nat)
    ensures Exec(p, Block(Around(x, y, z, a, b)), [blank], [c], [], fuel) == Norm([c], [Num(a + b), Num(a)])
  {
    var names, vals := [blank] + [x], [c] + [Num(a)];
    Fresh([blank], x);
    TwiceMeans(p, x, a, b, names, vals, [], fuel);
    PairMeans(p, y, z, names, vals, [], fuel);
    hide Newest, Twice, Has, Pair;
    assert EvalE(p, Lit(Num(a)), names, [c], [], fuel) == Val(Num(a), [c], []);
    var rest := Then(Do(Block(Pair(y, z))), Twice(x, b));
    assert ExecD(p, rest, names, vals, [], fuel) == ExecD(p, Twice(x, b), names, vals, [], fuel);
    assert ExecD(p, Around(x, y, z, a, b), [blank], [c], [], fuel) == ExecD(p, rest, names, vals, [], fuel);
    assert [] + [Num(a + b), Num(a)] == [Num(a + b), Num(a)] && vals[..1] == [c];
  }

  lemma PairMeans(p: Program, y: Name, z: Name, names: seq<Name>, vals: Vals, out: Output, fuel: nat)
    ensures Exec(p, Block(Pair(y, z)), names, vals, out, fuel) == Norm(vals, out)
  {
    var five, six := Lit(Num(5.0)), Lit(Num(6.0));
    var v1, v2 := vals + [Num(5.0)], vals + [Num(5.0)] + [Num(6.0)];
    assert EvalE(p, five, names + [y], vals, out, fuel) == Val(Num(5.0), vals, out);
    assert EvalE(p, six, names + [y] + [z], v1, out, fuel) == Val(Num(6.0), v1, out);
    assert ExecD(p, Done, names + [y] + [z], v2, out, fuel) == Norm(v2, out);
    assert ExecD(p, Then(Var(z, six), Done), names + [y], v1, out, fuel) == Norm(v2, out);
    assert v2[..|vals|] == vals;
  }

  /** The operand of OP_POPN is the constant it indexes, here the 5 that `y` was given: all
      variables are popped, and the first sum runs over the cell of `x`. */
  lemma TwoVariablesMiss(x: Name, y: Name, z: Name, a: real, b: real, blank: Name, obj: nat, script: Chunk, limit: nat,
                         objs: seq<Element>, idle: seq<Element>)
    requires LaidScript([Stat(Block(Around(x, y, z, a, b)), Whole)], blank, obj, script, [])
    requires 4 <= limit == 1 + |idle|
    ensures var m := StepN(ScriptWorld(script, [], limit), Start([], objs, idle), 15);
            m.status == Finished && m.out == [Num(a + b), Num(b)]
  {
    var w, m := ScriptWorld(script, [], limit), Start([], objs, idle);
    var cells := [Closure(0)] + idle;
    AroundLaid(x, y, z, a, b, blank, obj, script);
    AroundConstants(x, y, z, a, b, blank, obj, script);
    assert m == Snapshot(m, 0, cells, 1, []);
    assert Runs(w, m, cells, 1) && CodeOf(w, m) == script && Trunc(5.0) == 5;
    hide *;
    TwoRun(w, m, cells, a, b);
  }

  lemma TwoRun(w: World, m: Machine, cells: seq<Element>, a: real, b: real)
    requires Runs(w, m, cells, 1) && w.limit >= 4 && m == Snapshot(m, 0, cells, 1, [])
    requires LaidE(Lit(Num(a)), [], map[], CodeOf(w, m), 0) && At2(CodeOf(w, m), 2, OP_SET_LOCAL, 1)
    requires LaidE(Lit(Num(5.0)), [], map[], CodeOf(w, m), 4) && At2(CodeOf(w, m), 6, OP_SET_LOCAL, 2)
    requires LaidE(Lit(Num(6.0)), [], map[], CodeOf(w, m), 8) && At2(CodeOf(w, m), 10, OP_SET_LOCAL, 3)
    requires At2(CodeOf(w, m), 12, OP_POPN, 1) && TwiceAt(CodeOf(w, m), 14, 1, b)
    requires 1 < |CodeOf(w, m).consts| && CodeOf(w, m).consts[1] == Num(5.0) && Trunc(5.0) == 5
    ensures StepN(w, m, 15).status == Finished && StepN(w, m, 15).out == [Num(a + b), Num(b)]
  {
    hide Step, StepN, Snapshot, LaidE, TwiceAt, Runs, Trunc, CodeOf, At2;
    var c3 := ThreeStores(w, m, cells, a);
    StillRuns(w, m, cells, 1, c3, 4);
    SetAgain(w, m, 10, c3, 4, [], 3);
    DropAll(w, m, 12, c3, 4, [], 2);
    TwiceRuns(w, m, 14, c3, 0, 1, a, b);
    StepTwo(w, Snapshot(m, 10, c3, 4, []));
    StepNAdd(w, m, 5, 2);
    StepNAdd(w, m, 7, 8);
  }

  lemma StillRuns(w: World, m: Machine, cells: seq<Element>, c: nat, cells': seq<Element>, c': nat)
    requires Runs(w, m, cells, c) && Runs(w, m, cells', c')
    ensures |m.frames| == 1 && |cells'| == w.limit && Runs(w, m, cells', 0)
  {
  }

  /** `a`, 5 and 6, each pushed and (but for the last) stored where it is. */
  lemma ThreeStores(w: World, m: Machine, cells: seq<Element>, a: real) returns (c3: seq<Element>)
    requires Runs(w, m, cells, 1) && w.limit >= 4 && m == Snapshot(m, 0, cells, 1, [])
    requires LaidE(Lit(Num(a)), [], map[], CodeOf(w, m), 0) && At2(CodeOf(w, m), 2, OP_SET_LOCAL, 1)
    requires LaidE(Lit(Num(5.0)), [], map[], CodeOf(w, m), 4) && At2(CodeOf(w, m), 6, OP_SET_LOCAL, 2)
    requires LaidE(Lit(Num(6.0)), [], map[], CodeOf(w, m), 8)
    ensures Runs(w, m, c3, 4) && c3[1] == Num(a) && StepN(w, m, 5) == Snapshot(m, 10, c3, 4, [])
  {
    hide Step, StepN, Snapshot, LaidE;
    var c1 := cells[1 := Num(a)];
    Constant(w, m, 0, cells, 1, [], Num(a));
    SetAgain(w, m, 2, c1, 2, [], 1);
    var c2 := c1[2 := Num(5.0)];
    Constant(w, m, 4, c1, 2, [], Num(5.0));
    SetAgain(w, m, 6, c2, 3, [], 2);
    c3 := c2[3 := Num(6.0)];
    Constant(w, m, 8, c2, 3, [], Num(6.0));
    Five(w, m);
  }

  /** A store of the top into its own cell. */
  lemma SetAgain(w: World, m: Machine, pc: nat, cells: seq<Element>, c: nat, out: seq<Element>, k: nat)
    requires Runs(w, m, cells, c) && c == k + 1 && At2(CodeOf(w, m), pc, OP_SET_LOCAL, k)
    ensures Step(w, Snapshot(m, pc, cells, c, out)) == Snapshot(m, pc + 2, cells, c, out)
  {
    Set(w, m, pc, cells, c, out, k);
    assert cells[k := cells[c - 1]] == cells;
  }

  lemma StepTwo(w: World, m: Machine)
    ensures StepN(w, m, 2) == Step(w, Step(w, m))
  {
    hide Step;
    assert StepN(w, m, 2) == StepN(w, Step(w, m), 1);
    assert StepN(w, Step(w, m), 1) == StepN(w, Step(w, Step(w, m)), 0);
  }

  lemma AroundLaid(x: Name, y: Name, z: Name, a: real, b: real, blank: Name, obj: nat, script: Chunk)
    requires LaidScript([Stat(Block(Around(x, y, z, a, b)), Whole)], blank, obj, script, [])
    ensures LaidE(Lit(Num(a)), [], map[], script, 0) && At2(script, 2, OP_SET_LOCAL, 1)
    ensures LaidE(Lit(Num(5.0)), [], map[], script, 4) && At2(script, 6, OP_SET_LOCAL, 2)
    ensures LaidE(Lit(Num(6.0)), [], map[], script, 8) && At2(script, 10, OP_SET_LOCAL, 3)
    ensures At2(script, 12, OP_POPN, 1) && TwiceAt(script, 14, 1, b)
  {
    hide LaidD, LaidS, LaidE, LaidScript, Twice, Pair, TwiceAt, SizeD, SizeS, SizeE, Declared, IfsS, Newest, At1, At2;
    var ds, names := Around(x, y, z, a, b), [blank];
    var rest := Then(Do(Block(Pair(y, z))), Twice(x, b));
    AroundSizes(x, y, z, a, b);
    OneStatement(Block(ds), blank, obj, script);
    BlockParts(ds, names, map[], script, 0, 0);
    VarParts(x, Lit(Num(a)), rest, names, map[], script, 0, 0);
    LitAnywhere(Num(a), names + [x], map[], script, 0);
    DoParts(Block(Pair(y, z)), Twice(x, b), names + [x], map[], script, 4, 0);
    BlockParts(Pair(y, z), names + [x], map[], script, 4, 0);
    PairLaid(y, z, names + [x], map[], script, 4, 0);
    Fresh(names, x);
    TwiceLaid(x, b, names + [x], map[], script, 14, 0);
  }

  /** The constants of the script are its literals in order. */
  lemma AroundConstants(x: Name, y: Name, z: Name, a: real, b: real, blank: Name, obj: nat, script: Chunk)
    requires LaidScript([Stat(Block(Around(x, y, z, a, b)), Whole)], blank, obj, script, [])
    ensures 1 < |script.consts| && script.consts[1] == Num(5.0)
  {
    hide LaidAt, Twice;
    var items := [Stat(Block(Around(x, y, z, a, b)), Whole)];
    assert items[..0] == [];
    assert LitsItems(items) == [] + LitsItem(items[0], 0);
    var pair, rest := Do(Block(Pair(y, z))), Twice(x, b);
    assert L.LitsD(Pair(y, z)) == [Num(5.0)] + L.LitsD(Then(Var(z, Lit(Num(6.0))), Done));
    assert L.LitsD(Then(pair, rest)) == L.LitsD(Pair(y, z)) + L.LitsD(rest);
    assert L.LitsD(Around(x, y, z, a, b)) == [Num(a)] + L.LitsD(Then(pair, rest));
  }

  lemma LitAnywhere(v: Element, names: seq<Name>, fns: Fns, ch: Chunk, pc: nat)
    requires LaidE(Lit(v), names, fns, ch, pc)
    ensures LaidE(Lit(v), [], map[], ch, pc)
  {
  }

  lemma PairLaid(y: Name, z: Name, names: seq<Name>, fns: Fns, ch: Chunk, pc: nat, nc: nat)
    requires LaidD(Pair(y, z), names, fns, ch, pc, nc)
    ensures LaidE(Lit(Num(5.0)), [], map[], ch, pc) && At2(ch, pc + 2, OP_SET_LOCAL, |names|)
    ensures LaidE(Lit(Num(6.0)), [], map[], ch, pc + 4) && At2(ch, pc + 6, OP_SET_LOCAL, |names| + 1)
  {
    var last := Then(Var(z, Lit(Num(6.0))), Done);
    VarParts(y, Lit(Num(5.0)), last, names, fns, ch, pc, nc);
    assert SizeE(Lit(Num(5.0))) == 2 && SizeE(Lit(Num(6.0))) == 2;
    VarParts(z, Lit(Num(6.0)), Done, names + [y], fns, ch, pc + 4, nc);
  }

  lemma AroundSizes(x: Name, y: Name, z: Name, a: real, b: real)
    ensures SizeD(Pair(y, z)) == 8 && |Declared(Pair(y, z))| == 2 && SizeS(Block(Pair(y, z))) == 10
            && IfsS(Block(Pair(y, z))) == 0
    ensures SizeD(Around(x, y, z, a, b)) == 23 && |Declared(Around(x, y, z, a, b))| == 1
            && SizeS(Block(Around(x, y, z, a, b))) == 24
    ensures SizeE(Lit(Num(a))) == 2
  {
    var last := Then(Var(z, Lit(Num(6.0))), Done);
    assert SizeD(Done) == 0 && Declared(Done) == [] && IfsD(Done) == 0;
    assert SizeD(last) == 4 && Declared(last) == [z] && IfsD(last) == 0;
    assert SizeD(Pair(y, z)) == 8 && Declared(Pair(y, z)) == [y] + [z] && IfsD(Pair(y, z)) == 0;
    TwiceSizes(x, b);
    var rest := Then(Do(Block(Pair(y, z))), Twice(x, b));
    assert SizeD(rest) == 19 && Declared(rest) == [];
  }

  lemma DoParts(s: Stmt, rest: Decls, names: seq<Name>, fns: Fns, ch: Chunk, pc: nat, nc: nat)
    requires LaidD(Then(Do(s), rest), names, fns, ch, pc, nc)
    ensures LaidS(s, names, fns, ch, pc, nc) && LaidD(rest, names, fns, ch, pc + SizeS(s), nc + IfsS(s))
  {
    hide LaidS, SizeS, IfsS;
  }

  /** The code of a script of one statement. */
  lemma OneStatement(s: Stmt, blank: Name, obj: nat, script: Chunk)
    requires LaidScript([Stat(s, Whole)], blank, obj, script, [])
    ensures LaidS(s, [blank], map[], script, 0, 0) && At1(script, SizeS(s), OP_RETURN)
  {
    var items := [Stat(s, Whole)];
    assert items[..0] == [] && items[..1] == items;
    assert LaidAt(items, 0, blank, obj, script, []);
    assert SizeItems([]) == 0 && IfsItems([]) == 0 && FunCount([]) == 0;
    assert Emission.Names(Blanks(blank, 0)) == [blank];
    assert SizeItems(items) == SizeS(s);
    hide LaidS, SizeS;
  }

  // -------------------------------------------------------------- long jumps

  function Ones(n: nat): Exprs {
    if n == 0 then Nil else Cons(Lit(Num(1.0)), Ones(n - 1))
  }

  lemma {:induction false} OnesSize(n: nat)
    ensures SizePout(Ones(n)) == 3 * n
    decreases n
  {
    if n > 0 {
      OnesSize(n - 1);
      assert SizeE(Lit(Num(1.0))) == 2;
    } else {
      assert SizePout(Nil) == 0;
    }
  }

  /** `while (false) pout(1, .., 1);` with 85 operands, 255 bytes of body. */
  function LongLoop(): Stmt {
    While(Lit(Bool(false)), Pout(Ones(85)))
  }

  lemma LongLoopMeans(p: Program, names: seq<Name>, vals: Vals, out: Output, fuel: nat)
    ensures Exec(p, LongLoop(), names, vals, out, fuel) == Norm(vals, out)
  {
    hide Ones;
    assert EvalE(p, Lit(Bool(false)), names, vals, out, fuel) == Val(Bool(false), vals, out);
  }

  /** The jump past the body has the distance 258, of which the machine takes 2: it goes into the
      body and prints what it finds. */
  lemma LongLoopMisses(blank: Name, obj: nat, script: Chunk, limit: nat, objs: seq<Element>, idle: seq<Element>)
    requires LaidScript([Stat(LongLoop(), Whole)], blank, obj, script, [])
    requires 2 <= limit == 1 + |idle|
    ensures StepN(ScriptWorld(script, [], limit), Start([], objs, idle), 3).out == [Closure(0)]
  {
    var w, m := ScriptWorld(script, [], limit), Start([], objs, idle);
    var cells := [Closure(0)] + idle;
    LongLoopLaid(blank, obj, script);
    assert m == Snapshot(m, 0, cells, 1, []);
    Constant(w, m, 0, cells, 1, [], Bool(false));
    var c1 := cells[1 := Bool(false)];
    JumpFalse(w, m, 2, c1, 2, [], 258);
    Print(w, m, 7, c1, 1, []);
    hide Step, Snapshot;
    Three(w, m);
  }

  lemma JumpFalse(w: World, m: Machine, pc: nat, cells: seq<Element>, c: nat, out: seq<Element>, d: nat)
    requires Runs(w, m, cells, c) && c > 0 && cells[c - 1] == Bool(false) && At3(CodeOf(w, m), pc, OP_JMPF, d)
    ensures Step(w, Snapshot(m, pc, cells, c, out)) == Snapshot(m, pc + 3 + d % 256, cells, c - 1, out)
  {
    Same(w, m, pc, cells, c, out);
    var ch := CodeOf(w, m);
    DecodingsAgree(ch, pc + 1);
    assert d == ch.code[pc + 1] as int * 256 + ch.code[pc + 2];
    assert d % 256 == ch.code[pc + 2];
    assert Popped(cells[..c], 1) == cells[..c - 1];
  }

  lemma LongLoopLaid(blank: Name, obj: nat, script: Chunk)
    requires LaidScript([Stat(LongLoop(), Whole)], blank, obj, script, [])
    ensures LaidE(Lit(Bool(false)), [], map[], script, 0) && At3(script, 2, OP_JMPF, 258) && At1(script, 7, OP_PRINT)
  {
    hide Ones, LaidPout, SizePout;
    OneStatement(LongLoop(), blank, obj, script);
    OnesSize(85);
    assert SizeE(Lit(Bool(false))) == 2 && SizeS(Pout(Ones(85))) == 255;
    assert LaidE(Lit(Bool(false)), [blank], map[], script, 0);
    assert LaidS(Pout(Ones(85)), [blank], map[], script, 5, 0);
    FirstPrint(85, [blank], script, 5);
  }

  lemma FirstPrint(n: nat, names: seq<Name>, ch: Chunk, pc: nat)
    requires n > 0 && LaidPout(Ones(n), names, map[], ch, pc)
    ensures At1(ch, pc + 2, OP_PRINT)
  {
    assert SizeE(Lit(Num(1.0))) == 2;
  }
}
