/** The compiler's promises, about whole runs. */
module Preservation {
  import opened Values
  import opened Syntax
  import opened Bytecode
  import opened Layout
  import opened Machine
  import opened Semantics
  import opened ExprSimulation
  import opened Simulation
  import opened Correctness
  import opened Functions
  import opened Scripts
  import Loops

  // ------------------------------------------------------- whole scripts

  /** A compiled script and the machine it is started on. */
  predicate Launch(items: seq<Item>, blank: Name, obj: nat, script: Chunk, funcs: seq<Function>, limit: nat,
                   objs: seq<Element>) {
    && Script(items, blank, obj, script, funcs)
    && 1 <= limit <= 256 && obj + FunCount(items) <= |objs|
  }

  lemma Launched(items: seq<Item>, blank: Name, obj: nat, script: Chunk, funcs: seq<Function>, limit: nat,
                 objs: seq<Element>, idle: seq<Element>)
    requires Launch(items, blank, obj, script, funcs, limit, objs)
    ensures AtSpot(items, 0, obj, script, funcs, ScriptWorld(script, funcs, limit), Start(funcs, objs, idle),
            [Closure(|funcs|)])
  {
    var m := Start(funcs, objs, idle);
    assert items[..0] == [];
    assert m.stack[0..1] == [Closure(|funcs|)];
  }

  /** Whatever a script means, its compiled form does: a script that ends normally makes the
      machine finish with the same output, an error makes it stop with that error and the
      output so far, and a script that exhausts `fuel` keeps the machine running for at least
      `fuel` steps. The run may also end early because the stack or the frames are full, or reach
      a statement after a function with a stack that is too low for it; with a high stack it
      does not. */
  lemma ScriptPreserved(items: seq<Item>, blank: Name, obj: nat, script: Chunk, funcs: seq<Function>, limit: nat,
                        objs: seq<Element>, idle: seq<Element>, fuel: nat)
    requires Launch(items, blank, obj, script, funcs, limit, objs)
    ensures var w, m := ScriptWorld(script, funcs, limit), Start(funcs, objs, idle);
            var r := RunItems(items, 0, blank, [Closure(|funcs|)], [], fuel);
            || (exists n :: Shows(StepN(w, m, n), r, n, fuel))
            || (!High(items) && exists n, j | 0 <= j < |items| ::
                  LowStop(items, j, blank, obj, script, funcs, w, StepN(w, m, n), r, fuel))
  {
    hide *;
    var n, j := RunScript(items, blank, obj, script, funcs, limit, objs, idle, fuel);
  }

  lemma RunScript(items: seq<Item>, blank: Name, obj: nat, script: Chunk, funcs: seq<Function>, limit: nat,
                  objs: seq<Element>, idle: seq<Element>, fuel: nat)
    returns (n: nat, j: nat)
    requires Launch(items, blank, obj, script, funcs, limit, objs)
    ensures j <= |items| && (j < |items| ==> !High(items))
    ensures var m := StepN(ScriptWorld(script, funcs, limit), Start(funcs, objs, idle), n);
            var r := RunItems(items, 0, blank, [Closure(|funcs|)], [], fuel);
            if j == |items| then Shows(m, r, n, fuel)
            else LowStop(items, j, blank, obj, script, funcs, ScriptWorld(script, funcs, limit), m, r, fuel)
  {
    hide Script, AtSpot, StepN, RunItems, Shows, LowStop, High;
    Launched(items, blank, obj, script, funcs, limit, objs, idle);
    var w, m := ScriptWorld(script, funcs, limit), Start(funcs, objs, idle);
    n, j := RunFrom(items, 0, blank, obj, script, funcs, w, m, [Closure(|funcs|)], fuel);
    if j < |items| && High(items) {
      NeverLow(items, j, blank, obj, script, funcs, w, StepN(w, m, n),
        RunItems(items, 0, blank, [Closure(|funcs|)], [], fuel), fuel);
    }
  }

  /** A run of at most `n` steps that comes to a statement with too low a stack. */
  ghost predicate RunsLow(items: seq<Item>, w: World, m: Machine, n: nat) {
    exists k: nat, j: nat | k <= n && j < |items| ::
      LowAt(items, j, StepN(w, m, k)) && StepN(w, m, k).ip == SizeItems(items[..j])
  }

  /** Two prefixes of a run that have both ended are the same. */
  lemma SameEnd(w: World, m: Machine, a: nat, b: nat)
    requires StepN(w, m, a).status != Running && StepN(w, m, b).status != Running
    ensures StepN(w, m, a) == StepN(w, m, b)
  {
    if a <= b {
      StepNAdd(w, m, a, b - a);
      Halted(w, StepN(w, m, a), b - a);
    } else {
      StepNAdd(w, m, b, a - b);
      Halted(w, StepN(w, m, b), a - b);
    }
  }

  lemma LowFacts(items: seq<Item>, j: nat, blank: Name, obj: nat, script: Chunk, funcs: seq<Function>, w: World,
                 m: Machine, r: SR, fuel: nat)
    requires j < |items| && LowStop(items, j, blank, obj, script, funcs, w, m, r, fuel)
    ensures m.status == Running && LowAt(items, j, m) && m.ip == SizeItems(items[..j])
  {
  }

  /** Conversely, a machine that has stopped shows what the script means: one that finishes
      printed what the script prints, one that fails or exits does so because the script does,
      and one whose behaviour C leaves undefined got there because the script strays into what
      the language leaves undefined. Only full stacks and frames are the machine's own, and what
      follows on a stack that was too low. */
  lemma ScriptReflected(items: seq<Item>, blank: Name, obj: nat, script: Chunk, funcs: seq<Function>, limit: nat,
                        objs: seq<Element>, idle: seq<Element>, n: nat)
    requires Launch(items, blank, obj, script, funcs, limit, objs)
    requires var m := StepN(ScriptWorld(script, funcs, limit), Start(funcs, objs, idle), n);
             m.status != Running && !Spent(m)
    ensures
      var w, m0 := ScriptWorld(script, funcs, limit), Start(funcs, objs, idle);
      var m := StepN(w, m0, n);
      || (!High(items) && RunsLow(items, w, m0, n))
      || (match RunItems(items, 0, blank, [Closure(|funcs|)], [], n + 1)
          case Norm(_, out) => m.status == Finished && m.out == out
          case Ret(_, out) => m.status == Finished && m.out == out
          case Void(out) => m.status == Finished && m.out == out
          case SStop(Exit(out)) => m.status == Exited && m.out == out
          case SStop(Fail(out)) => m.status == Failed && m.out == out
          case SStop(Stray) => true
          case SStop(_) => false)
  {
    hide RunItems, Script, Step, LowStop, LowAt, High, SizeItems;
    var w, m0 := ScriptWorld(script, funcs, limit), Start(funcs, objs, idle);
    var k, j := RunScript(items, blank, obj, script, funcs, limit, objs, idle, n + 1);
    var r := RunItems(items, 0, blank, [Closure(|funcs|)], [], n + 1);
    if j < |items| {
      LowFacts(items, j, blank, obj, script, funcs, w, StepN(w, m0, k), r, n + 1);
    }
    if StepN(w, m0, k).status != Running {
      SameEnd(w, m0, n, k);
    } else if k >= n {
      StepNAdd(w, m0, n, k - n);
      Halted(w, StepN(w, m0, n), k - n);
    }
  }

  /** A script that never ends keeps the machine running for ever, or until a limit. */
  lemma ScriptDiverges(items: seq<Item>, blank: Name, obj: nat, script: Chunk, funcs: seq<Function>, limit: nat,
                       objs: seq<Element>, idle: seq<Element>, n: nat)
    requires Launch(items, blank, obj, script, funcs, limit, objs)
    requires forall fuel :: RunItems(items, 0, blank, [Closure(|funcs|)], [], fuel) == SStop(Timeout)
    ensures var w, m0 := ScriptWorld(script, funcs, limit), Start(funcs, objs, idle);
            var m := StepN(w, m0, n);
            m.status == Running || Spent(m) || (!High(items) && RunsLow(items, w, m0, n))
  {
    hide RunItems, Script, Step, LowStop, LowAt, High, SizeItems;
    var w, m0 := ScriptWorld(script, funcs, limit), Start(funcs, objs, idle);
    var k, j := RunScript(items, blank, obj, script, funcs, limit, objs, idle, n + 1);
    if j < |items| {
      LowFacts(items, j, blank, obj, script, funcs, w, StepN(w, m0, k),
        RunItems(items, 0, blank, [Closure(|funcs|)], [], n + 1), n + 1);
    }
    if StepN(w, m0, n).status != Running {
      if StepN(w, m0, k).status != Running {
        SameEnd(w, m0, n, k);
      } else if k >= n {
        StepNAdd(w, m0, n, k - n);
        Halted(w, StepN(w, m0, n), k - n);
      }
    }
  }

  // ------------------------------------------------------------- functions

  /** One value, the one that was returned if there was one, has replaced the callee and its
      arguments, and the caller goes on as it was. */
  ghost predicate Answered(m: Machine, m': Machine, below: seq<Element>, r: SR)
    requires !r.SStop?
  {
    exists v :: Resumed(m, m', below, v, r.out) && (r.Ret? ==> v == r.v)
  }

  /** A call, seen from the caller, for every callee that returns, by `return e;`, by `return;`
      or at the end of its body: the frames, the resume address, the objects and every cell
      below the callee are as they were, and exactly one value has replaced the callee and its
      arguments. Only `return e;` says which. */
  lemma CallReturns(s: Setting, f: nat, args: seq<Element>, below: seq<Element>, fuel: nat, m: Machine)
    requires m.status == Running && |m.frames| > 0 && Linked(s, m.objs)
    requires m.stack == below + [Closure(f)] + args && |m.stack| <= s.w.limit <= 256
    requires At2(CodeOf(s.w, m), m.ip, OP_CALL, |args|)
    requires f < |s.p.defs| && |s.p.defs[f].params| == |args|
    requires !ExecD(s.p, s.p.defs[f].body, s.p.defs[f].params, args, m.out, fuel).SStop?
    ensures
      var r := ExecD(s.p, s.p.defs[f].body, s.p.defs[f].params, args, m.out, fuel);
      exists n :: Spent(StepN(s.w, m, n)) || Answered(m, StepN(s.w, m, n), below, r)
  {
    hide ExecD, StepN, Linked, Resumed;
    var n := SimBody(s, f, args, below, fuel, m);
  }

  // ------------------------------------------------- compound assignment

  /** `x op= r` stores its result in the identifier that was read last. The variables come out
      as the language says if and only if that is `x` itself, or both assignments happen to
      change nothing that the other does not. */
  lemma CompoundExact(p: Program, e: Expr, names: seq<Name>, vals: Vals, out: Output, fuel: nat)
    requires e.Compound? && Has(names, vals, e.x) && Has(names, vals, Target(e.x, e.e))
    requires EvalE(p, e, names, vals, out, fuel).Val?
    ensures
      var z := Target(e.x, e.e);
      var r, r' := EvalE(p, e, names, vals, out, fuel), CompoundInto(p, e, z, names, vals, out, fuel);
      var before := EvalE(p, e.e, names, vals, out, fuel).vals;
      var i, j := Newest(names, e.x), Newest(names, z);
      && r'.Val? && r'.v == r.v && r'.out == r.out && |before| == |vals|
      && (r' == r <==> i == j || (before[i] == r.v && before[j] == r.v))
  {
    hide Newest, BinValue;
    KeptVals(p, e.e, names, vals, out, fuel);
    var z := Target(e.x, e.e);
    var i, j := Newest(names, e.x), Newest(names, z);
    var a := EvalE(p, e.e, names, vals, out, fuel);
    var r := EvalE(p, e, names, vals, out, fuel);
    assert i != j ==> a.vals[i := r.v][j] == a.vals[j] && a.vals[j := r.v][i] == a.vals[i];
    assert i != j && a.vals[i] == r.v && a.vals[j] == r.v ==> a.vals[i := r.v] == a.vals && a.vals[j := r.v] == a.vals;
  }

  lemma KeptVals(p: Program, e: Expr, names: seq<Name>, vals: Vals, out: Output, fuel: nat)
    ensures var r := EvalE(p, e, names, vals, out, fuel); r.Val? ==> |r.vals| == |vals|
  {
    Loops.KeptE(p, e, names, vals, out, fuel);
  }

  /** The compiled assignment has the language's effect on any values of the variables. */
  ghost predicate AlwaysAgrees(p: Program, e: Expr, names: seq<Name>)
    requires e.Compound?
  {
    forall vals, out, fuel | |vals| == |names| ::
      CompoundInto(p, e, Target(e.x, e.e), names, vals, out, fuel) == EvalE(p, e, names, vals, out, fuel)
  }

  /** On names alone: whatever the right-hand side, it is enough that the identifier read last is the
      assigned variable; and for `x op= y`, with any operator, that is also necessary. */
  lemma CompoundByNames(p: Program, e: Expr, names: seq<Name>)
    requires e.Compound? && e.x in names
    ensures Newest(names, e.x) == Newest(names, Target(e.x, e.e)) ==> AlwaysAgrees(p, e, names)
    ensures e.e.Local? && e.e.x in names ==>
              (AlwaysAgrees(p, e, names) <==> Newest(names, e.x) == Newest(names, Target(e.x, e.e)))
  {
    if e.e.Local? && e.e.x in names && Newest(names, e.x) != Newest(names, e.e.x) {
      TwosDiffer(p, e, names, [], 0);
    }
  }

  /** With 2 for every variable, no operator has the result 2, and either store is seen. */
  lemma TwosDiffer(p: Program, e: Expr, names: seq<Name>, out: Output, fuel: nat)
    requires e.Compound? && e.e.Local? && e.x in names && e.e.x in names && Newest(names, e.x) != Newest(names, e.e.x)
    ensures var vals: Vals := seq(|names|, _ => Num(2.0));
            CompoundInto(p, e, Target(e.x, e.e), names, vals, out, fuel) != EvalE(p, e, names, vals, out, fuel)
  {
    var vals: Vals := seq(|names|, _ => Num(2.0));
    var i, j := Newest(names, e.x), Newest(names, e.e.x);
    var v := TwoByTwo(e.op);
    assert EvalE(p, e.e, names, vals, out, fuel) == Val(Num(2.0), vals, out);
    assert vals[i := v][i] == v && vals[j := v][i] == Num(2.0);
  }

  lemma TwoByTwo(op: BinOp) returns (v: Element)
    ensures BinValue(op, Num(2.0), Num(2.0)) == Fine(v) && v != Num(2.0)
  {
    assert Trunc(2.0) == 2 && TruncMod(2, 2) == 0;
    v := BinValue(op, Num(2.0), Num(2.0)).v;
  }

  /** An example: `x += y` changes `y`. */
  lemma CompoundSwaps(p: Program, out: Output)
    ensures
      var e := Compound(Add, 1, Local(2));
      && EvalE(p, e, [1, 2], [Num(5.0), Num(3.0)], out, 0) == Val(Num(8.0), [Num(8.0), Num(3.0)], out)
      && CompoundInto(p, e, Target(1, Local(2)), [1, 2], [Num(5.0), Num(3.0)], out, 0) ==
           Val(Num(8.0), [Num(5.0), Num(8.0)], out)
  {
    var names, vals := [1, 2], [Num(5.0), Num(3.0)];
    assert names[..1] == [1];
    assert Newest([1], 1) == 0;
    assert Newest(names, 1) == 0 && Newest(names, 2) == 1;
    assert EvalE(p, Local(2), names, vals, out, 0) == Val(Num(3.0), vals, out);
    assert BinValue(Add, Num(5.0), Num(3.0)) == Fine(Num(8.0));
  }

  // --------------------------------------------------------- `elif` chains

  datatype Address = Nowhere | Somewhere(pc: nat)

  function Earlier(a: Address, b: Address): Address {
    if a.Somewhere? then a else b
  }

  /** Where the `if` that ends first within the statement at `pc` ends. */
  function FirstEnd(s: Stmt, pc: nat): Address
    decreases s
  {
    match s
    case Eval(_) | Pout(_) | Return(_) | Back => Nowhere
    case While(c, b) => FirstEnd(b, pc + SizeE(c) + 3)
    case If(c, t, arms) =>
      var j := pc + SizeE(c) + 3;
      Earlier(FirstEnd(t, j), Earlier(FirstArmsEnd(arms, j + SizeS(t) + 3), Somewhere(pc + SizeS(s))))
    case Block(ds) => FirstDEnd(ds, pc)
    case For(i, c, n, b) => FirstEnd(b, pc + SizeInit(i) + SizeCond(c) + SizeInc(n))
  }

  function FirstArmsEnd(a: Arms, pc: nat): Address
    decreases a
  {
    match a
    case End => Nowhere
    case Else(s) => FirstEnd(s, pc)
    case Elif(c, s, t) => Earlier(FirstEnd(s, pc + SizeE(c) + 3), FirstArmsEnd(t, pc + SizeE(c) + 3 + SizeS(s) + 3))
  }

  function FirstDEnd(ds: Decls, pc: nat): Address
    decreases ds
  {
    match ds
    case Done => Nowhere
    case Then(Var(_, e), t) => FirstDEnd(t, pc + SizeE(e) + 2)
    case Then(Do(s), t) => Earlier(FirstEnd(s, pc), FirstDEnd(t, pc + SizeS(s)))
  }

  lemma {:induction false} FirstCase(s: Stmt, names: seq<Name>, fns: Fns, ch: Chunk, pc: nat, nc: nat)
    requires LaidS(s, names, fns, ch, pc, nc)
    ensures FirstEnd(s, pc).Somewhere? <==> IfsS(s) > 0
    ensures IfsS(s) > 0 && nc < |ch.cases| ==> FirstEnd(s, pc) == Somewhere(ch.cases[nc])
    decreases s, 1
  {
    hide LaidE, SizeE, LaidPout, SizePout;
    match s
    case While(c, b) => FirstCase(b, names, fns, ch, pc + SizeE(c) + 3, nc);
    case If(_, _, _) => FirstIfCase(s, names, fns, ch, pc, nc);
    case Block(ds) => FirstDCase(ds, names, fns, ch, pc, nc);
    case For(_, _, _, _) => FirstForCase(s, names, fns, ch, pc, nc);
    case _ =>
  }

  lemma {:induction false} FirstForCase(s: Stmt, names: seq<Name>, fns: Fns, ch: Chunk, pc: nat, nc: nat)
    requires s.For? && LaidS(s, names, fns, ch, pc, nc)
    ensures FirstEnd(s, pc).Somewhere? <==> IfsS(s) > 0
    ensures IfsS(s) > 0 && nc < |ch.cases| ==> FirstEnd(s, pc) == Somewhere(ch.cases[nc])
    decreases s, 0
  {
    hide LaidE, SizeE, LaidCond, LaidInc, LaidPops;
    var inner := match s.init case NoVar => names case SomeVar(x, _) => names + [x];
    FirstCase(s.body, inner, fns, ch, pc + SizeInit(s.init) + SizeCond(s.cond) + SizeInc(s.inc), nc);
  }

  lemma {:induction false} FirstIfCase(s: Stmt, names: seq<Name>, fns: Fns, ch: Chunk, pc: nat, nc: nat)
    requires s.If? && LaidS(s, names, fns, ch, pc, nc)
    ensures FirstEnd(s, pc).Somewhere? && (nc < |ch.cases| ==> FirstEnd(s, pc) == Somewhere(ch.cases[nc]))
    decreases s, 0
  {
    hide LaidE, SizeE, LaidArms, SizeArms, IfsArms, FirstArmsEnd;
    var j := pc + SizeE(s.c) + 3;
    FirstCase(s.then_, names, fns, ch, j, nc);
    FirstArmsCase(s.arms, names, fns, ch, j + SizeS(s.then_) + 3, nc + IfsS(s.then_));
  }

  lemma {:induction false} FirstArmsCase(a: Arms, names: seq<Name>, fns: Fns, ch: Chunk, pc: nat, nc: nat)
    requires LaidArms(a, names, fns, ch, pc, nc)
    ensures FirstArmsEnd(a, pc).Somewhere? <==> IfsArms(a) > 0
    ensures IfsArms(a) > 0 && nc < |ch.cases| ==> FirstArmsEnd(a, pc) == Somewhere(ch.cases[nc])
    decreases a, 0
  {
    hide LaidE, SizeE, LaidS, IfsS;
    match a
    case End =>
    case Else(s) => FirstCase(s, names, fns, ch, pc, nc);
    case Elif(c, s, t) =>
      FirstCase(s, names, fns, ch, pc + SizeE(c) + 3, nc);
      FirstArmsCase(t, names, fns, ch, pc + SizeE(c) + 3 + SizeS(s) + 3, nc + IfsS(s));
  }

  lemma {:induction false} FirstDCase(ds: Decls, names: seq<Name>, fns: Fns, ch: Chunk, pc: nat, nc: nat)
    requires LaidD(ds, names, fns, ch, pc, nc)
    ensures FirstDEnd(ds, pc).Somewhere? <==> IfsD(ds) > 0
    ensures IfsD(ds) > 0 && nc < |ch.cases| ==> FirstDEnd(ds, pc) == Somewhere(ch.cases[nc])
    decreases ds, 0
  {
    hide LaidE, SizeE, LaidS, IfsS;
    match ds
    case Done =>
    case Then(Var(x, e), t) => FirstDCase(t, names + [x], fns, ch, pc + SizeE(e) + 2, nc);
    case Then(Do(s), t) =>
      FirstCase(s, names, fns, ch, pc, nc);
      FirstDCase(t, names, fns, ch, pc + SizeS(s), nc + IfsS(s));
  }

  /** The OP_JMPL after an `elif` arm whose later arms are `rest`, at `pc`, goes to the end of
      its chain if and only if the `if` that ends first among the later arms, if there is one,
      ends there too. In particular it does when the later arms contain no `if`. */
  lemma ElifLandsExactly(rest: Arms, names: seq<Name>, fns: Fns, ch: Chunk, pc: nat, nc: nat, end: nat)
    requires LaidArms(rest, names, fns, ch, pc, nc) && nc + IfsArms(rest) < |ch.cases|
             && ch.cases[nc + IfsArms(rest)] == end
    ensures ch.cases[nc] == end <==> FirstArmsEnd(rest, pc).Nowhere? || FirstArmsEnd(rest, pc) == Somewhere(end)
    ensures IfsArms(rest) == 0 ==> Lands(ch, nc, end) || nc >= 256
  {
    hide LaidArms, IfsArms, FirstArmsEnd;
    FirstArmsCase(rest, names, fns, ch, pc, nc);
  }

  /** The conditions on a chain's `elif` arms. */
  predicate ArmsLand(a: Arms, pc: nat, end: nat)
    decreases a
  {
    match a
    case End => true
    case Else(_) => true
    case Elif(c, s, t) =>
      var q := pc + SizeE(c) + 3 + SizeS(s) + 3;
      (FirstArmsEnd(t, q).Nowhere? || FirstArmsEnd(t, q) == Somewhere(end)) && ArmsLand(t, q, end)
  }

  predicate AllLand(a: Arms, ch: Chunk, nc: nat, end: nat) {
    match a
    case End => true
    case Else(_) => true
    case Elif(c, s, t) => Lands(ch, nc + IfsS(s), end) && AllLand(t, ch, nc + IfsS(s), end)
  }

  /** Every `elif` arm of a compiled `if` leaves at the chain's end if and only if no later arm
      contains an `if` that ends before it. */
  lemma {:induction false} ChainLandsExactly(a: Arms, names: seq<Name>, fns: Fns, ch: Chunk, pc: nat, nc: nat, end: nat)
    requires LaidArms(a, names, fns, ch, pc, nc) && nc + IfsArms(a) < |ch.cases| <= 256
             && ch.cases[nc + IfsArms(a)] == end
    ensures AllLand(a, ch, nc, end) <==> ArmsLand(a, pc, end)
    decreases a
  {
    hide LaidE, SizeE, LaidS, IfsS;
    if a.Elif? {
      var q := pc + SizeE(a.c) + 3 + SizeS(a.s) + 3;
      ElifLandsExactly(a.rest, names, fns, ch, q, nc + IfsS(a.s), end);
      ChainLandsExactly(a.rest, names, fns, ch, q, nc + IfsS(a.s), end);
    }
  }

  /** `if (c) {} elif (d) {} else { if (e) {} pout(v); }` */
  function Chain(c: Expr, d: Expr, e: Expr, v: Expr): Stmt {
    If(c, Block(Done), Elif(d, Block(Done), Else(Otherwise(e, v))))
  }

  function Otherwise(e: Expr, v: Expr): Stmt {
    Block(Then(Do(If(e, Block(Done), End)), Then(Do(Pout(Cons(v, Nil))), Done)))
  }

  /** Where the OP_JMPL after the `elif` arm of such a chain lies. */
  function ChainExit(c: Expr, d: Expr, pc: nat): nat {
    pc + SizeE(c) + 6 + SizeE(d) + 3
  }

  /** An example: the `elif` arm of a `Chain` does not leave at the chain's end. It goes on with
      the `pout` of the `else` block. */
  lemma ElifMisses(c: Expr, d: Expr, e: Expr, v: Expr, names: seq<Name>, fns: Fns, ch: Chunk, pc: nat, nc: nat)
    requires LaidS(Chain(c, d, e, v), names, fns, ch, pc, nc)
    ensures At3(ch, ChainExit(c, d, pc), OP_JMPL, nc) && nc < |ch.cases|
    ensures ch.cases[nc] == ChainExit(c, d, pc) + 3 + SizeE(e) + 6 < pc + SizeS(Chain(c, d, e, v))
    ensures LaidPout(Cons(v, Nil), names, fns, ch, ch.cases[nc])
  {
    hide LaidE, SizeE, LaidPout, Otherwise;
    var arms := Elif(d, Block(Done), Else(Otherwise(e, v)));
    NothingThere();
    OtherwiseSizes(e, v);
    assert IfsArms(Else(Otherwise(e, v))) == 1 && IfsArms(arms) == 1 && IfsS(Chain(c, d, e, v)) == 2;
    assert LaidArms(arms, names, fns, ch, pc + SizeE(c) + 6, nc);
    assert LaidArms(Else(Otherwise(e, v)), names, fns, ch, ChainExit(c, d, pc) + 3, nc);
    OtherwiseLaid(e, v, names, fns, ch, ChainExit(c, d, pc) + 3, nc);
    assert SizeArms(arms) == SizeE(d) + 6 + SizeS(Otherwise(e, v));
  }

  lemma SmallIf(e: Expr)
    ensures IfsS(If(e, Block(Done), End)) == 1 && SizeS(If(e, Block(Done), End)) == SizeE(e) + 6
  {
    hide SizeE;
    NothingThere();
  }

  lemma OtherwiseSizes(e: Expr, v: Expr)
    ensures IfsS(Otherwise(e, v)) == 1 && SizeS(Otherwise(e, v)) > SizeE(e) + 6
  {
    var last := Then(Do(Pout(Cons(v, Nil))), Done);
    var inner := If(e, Block(Done), End);
    SmallIf(e);
    LastSize(v);
    hide SizeE;
    assert SizeD(Then(Do(inner), last)) == SizeS(inner) + SizeD(last);
  }

  lemma OtherwiseLaid(e: Expr, v: Expr, names: seq<Name>, fns: Fns, ch: Chunk, pc: nat, nc: nat)
    requires LaidS(Otherwise(e, v), names, fns, ch, pc, nc) && nc < |ch.cases|
    ensures ch.cases[nc] == pc + SizeE(e) + 6 && LaidPout(Cons(v, Nil), names, fns, ch, ch.cases[nc])
  {
    hide LaidE, SizeE, LaidPout;
    var inner := If(e, Block(Done), End);
    var last := Then(Do(Pout(Cons(v, Nil))), Done);
    SmallIf(e);
    assert LaidD(Then(Do(inner), last), names, fns, ch, pc, nc);
    FirstCase(inner, names, fns, ch, pc, nc);
    assert FirstEnd(inner, pc) == Somewhere(pc + SizeS(inner));
    assert LaidD(last, names, fns, ch, pc + SizeS(inner), nc + 1);
    assert LaidS(Pout(Cons(v, Nil)), names, fns, ch, pc + SizeS(inner), nc + 1);
  }

  /** So a machine that has run the `elif` arm, where the chain should be over, prints `v`. */
  lemma ElifPrints(s: Setting, c: Expr, d: Expr, e: Expr, v: Expr, names: seq<Name>, vals: Vals, pc: nat, nc: nat,
                   fuel: nat, m: Machine)
    requires Ready(s.w, m, vals) && Linked(s, m.objs) && SoundE(v) && nc < 256
    requires LaidS(Chain(c, d, e, v), names, s.fns, CodeOf(s.w, m), pc, nc) && m.ip == ChainExit(c, d, pc)
    requires EvalE(s.p, v, names, vals, m.out, fuel).Val?
    ensures var r := EvalE(s.p, v, names, vals, m.out, fuel);
            exists n :: Spent(StepN(s.w, m, n)) || StepN(s.w, m, n).out == r.out + [r.v]
  {
    hide LaidS, LaidE, SizeE, LaidPout, SizePout, Linked, StepN, EvalE, ExecPout, Ready, Chain, ChainExit, Reached,
         SoundE;
    var ch := CodeOf(s.w, m);
    ElifMisses(c, d, e, v, names, s.fns, ch, pc, nc);
    StartS(s.w, m, vals);
    First(s.w, m);
    StepJmpL(s.w, m, 0, 0, 0, vals, m.out, nc, ch.cases[nc]);
    var m1 := StepN(s.w, m, 1);
    ReachedReady(s.w, m, m1, ch.cases[nc] - m.ip, 0, vals, vals, m.out);
    var n := SimPout(s, Cons(v, Nil), names, vals, fuel, m1);
    StepNAdd(s.w, m, 1, n);
    var r := EvalE(s.p, v, names, vals, m.out, fuel);
    PrintOne(s.p, v, names, vals, m.out, fuel);
    if !Spent(StepN(s.w, m1, n)) {
      ReachedOut(s.w, m1, StepN(s.w, m1, n), SizePout(Cons(v, Nil)), 0, r.vals, r.out + [r.v]);
    }
  }

  lemma ReachedOut(w: World, m: Machine, m': Machine, bytes: nat, up: nat, vals: Vals, out: Output)
    requires |m.frames| > 0 && Reached(w, m, m', bytes, up, vals, out)
    ensures m'.out == out
  {
  }

  lemma PrintOne(p: Program, v: Expr, names: seq<Name>, vals: Vals, out: Output, fuel: nat)
    requires EvalE(p, v, names, vals, out, fuel).Val?
    ensures var r := EvalE(p, v, names, vals, out, fuel);
            ExecPout(p, Cons(v, Nil), names, vals, out, fuel) == Norm(r.vals, r.out + [r.v])
  {
    hide EvalE;
    var r := EvalE(p, v, names, vals, out, fuel);
    assert ExecPout(p, Nil, names, r.vals, r.out + [r.v], fuel) == Norm(r.vals, r.out + [r.v]);
  }

  lemma LastSize(v: Expr)
    ensures SizeD(Then(Do(Pout(Cons(v, Nil))), Done)) >= 1 && IfsD(Then(Do(Pout(Cons(v, Nil))), Done)) == 0
  {
    assert IfsS(Pout(Cons(v, Nil))) == 0 && IfsD(Done) == 0;
    assert SizePout(Cons(v, Nil)) >= 1;
    assert SizeS(Pout(Cons(v, Nil))) >= 1;
  }

  lemma NothingThere()
    ensures IfsS(Block(Done)) == 0 && SizeS(Block(Done)) == 0 && IfsArms(End) == 0 && SizeArms(End) == 0
  {
    assert IfsD(Done) == 0 && SizeD(Done) == 0 && Declared(Done) == [];
  }
}
