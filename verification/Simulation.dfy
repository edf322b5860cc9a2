/** Running the code of whole functions: the compiler's output does what the source means. */
module Simulation {
  import opened Values
  import opened Syntax
  import opened Bytecode
  import opened Layout
  import opened Machine
  import opened Semantics
  import opened ExprSimulation

  // ----------------------------------------------- what the code must meet

  /** The OP_JMPL with operand `k` goes to `end`. */
  predicate Lands(ch: Chunk, k: nat, end: nat) {
    k < 256 && k < |ch.cases| && ch.cases[k] == end
  }

  /** OP_POPN takes its count from the constant its operand indexes; a block survives it when
      that constant is a number that pops no more than the block declared. */
  predicate PopsFit(n: nat, ch: Chunk) {
    n > 1 ==> n - 1 < |ch.consts| && ch.consts[n - 1].Num? && 0 <= Trunc(ch.consts[n - 1].num) <= n
  }

  predicate SoundOpt(e: OptExpr) {
    match e case NoExpr => true case SomeExpr(x) => SoundE(x)
  }

  /** The limits under which the machine executes a statement as laid out at `pc`. */
  predicate SoundS(s: Stmt, ch: Chunk, pc: nat, nc: nat)
    decreases s
  {
    match s
    case Eval(e) => SoundE(e)
    case Pout(es) => SoundArgs(es)
    case Return(e) => SoundE(e)
    case Back => true
    case While(c, b) =>
      SoundE(c) && SoundS(b, ch, pc + SizeE(c) + 3, nc) && SizeE(c) + 3 + SizeS(b) + 3 < 256
    case If(c, t, arms) =>
      var e := pc + SizeE(c) + 3 + SizeS(t) + 3;
      && SoundE(c)
      && SoundS(t, ch, pc + SizeE(c) + 3, nc)
      && SizeS(t) + 3 < 256
      && SizeArms(arms) < 256
      && SoundArms(arms, ch, e, nc + IfsS(t), e + SizeArms(arms))
    case Block(ds) => SoundD(ds, ch, pc, nc) && PopsFit(|Declared(ds)|, ch)
    case For(i, c, n, b) =>
      && (i.SomeVar? ==> SoundE(i.e))
      && SoundOpt(c)
      && SoundOpt(n)
      && SoundS(b, ch, pc + SizeInit(i) + SizeCond(c) + SizeInc(n), nc)
      && SizeCond(c) + SizeInc(n) + SizeS(b) + 3 < 256
  }

  predicate SoundArms(a: Arms, ch: Chunk, pc: nat, nc: nat, end: nat)
    decreases a
  {
    match a
    case End => true
    case Else(s) => SoundS(s, ch, pc, nc)
    case Elif(c, s, t) =>
      && SoundE(c)
      && SoundS(s, ch, pc + SizeE(c) + 3, nc)
      && SizeS(s) + 3 < 256
      && Lands(ch, nc + IfsS(s), end)
      && SoundArms(t, ch, pc + SizeE(c) + 3 + SizeS(s) + 3, nc + IfsS(s), end)
  }

  predicate SoundD(ds: Decls, ch: Chunk, pc: nat, nc: nat)
    decreases ds
  {
    match ds
    case Done => true
    case Then(Var(_, e), t) => SoundE(e) && SoundD(t, ch, pc + SizeE(e) + 2, nc)
    case Then(Do(s), t) => SoundS(s, ch, pc, nc) && SoundD(t, ch, pc + SizeS(s), nc + IfsS(s))
  }

  predicate FnLaid(d: FunDef, fns: Fns, f: Function) {
    f.arity == |d.params| && FnCode(d, fns, f.ch)
  }

  datatype Setting = Setting(w: World, p: Program, fns: Fns)

  /** The machine holds the compiled functions of the program under the object indices the
      compiler used. */
  predicate Linked(s: Setting, objs: seq<Element>) {
    && |s.p.defs| <= |s.w.funcs|
    && (forall i :: 0 <= i < |s.p.defs| ==> Compiled(s.p.defs[i], s.fns, s.w.funcs[i]))
    && (forall f :: f in s.fns ==> f in s.p.named && s.fns[f] < |objs| && objs[s.fns[f]] == Closure(s.p.named[f]))
  }

  predicate Compiled(d: FunDef, fns: Fns, f: Function) {
    FnLaid(d, fns, f) && SoundD(d.body, f.ch, 2 * |d.params|, 0)
  }

  lemma LinkedFn(s: Setting, objs: seq<Element>, i: nat)
    requires Linked(s, objs) && i < |s.p.defs|
    ensures i < |s.w.funcs| && Compiled(s.p.defs[i], s.fns, s.w.funcs[i])
  {
  }

  lemma LinkedName(s: Setting, objs: seq<Element>, f: Name)
    requires Linked(s, objs) && f in s.fns
    ensures f in s.p.named && s.fns[f] < |objs| && objs[s.fns[f]] == Closure(s.p.named[f])
  {
  }

  // ------------------------------------------------ the relation for statements

  /** As `Moved`, but about the cells above the variables it says only that there are at least
      `up` more of them in use. */
  predicate Reached(w: World, m: Machine, m': Machine, bytes: nat, up: nat, vals: Vals, out: Output)
    requires |m.frames| > 0
  {
    && m'.status == Running
    && m'.frames == m.frames
    && m'.objs == m.objs
    && m'.ip == m.ip + bytes
    && m'.out == out
    && Base(m) <= |m.stack|
    && Base(m) + |vals| <= |m'.stack| <= w.limit
    && |m.stack| + up <= |m'.stack|
    && m'.stack[..Base(m)] == m.stack[..Base(m)]
    && m'.stack[Base(m)..Base(m) + |vals|] == vals
  }

  /** The frame is gone, and `v` stands where its first cell was. */
  predicate Returned(m: Machine, m': Machine, v: Element, out: Output)
    requires |m.frames| > 0
  {
    && m'.out == out
    && (if |m.frames| == 1 then m'.status == Finished
        else
          && m'.status == Running
          && m'.frames == m.frames[..|m.frames| - 1]
          && m'.objs == m.objs
          && m'.ip == Top(m).ipReturn
          && Base(m) <= |m.stack|
          && m'.stack == m.stack[..Base(m)] + [v])
  }

  /** The frame is gone, and some value stands where its first cell was. */
  ghost predicate ReturnedAny(m: Machine, m': Machine, out: Output)
    requires |m.frames| > 0
  {
    exists v :: Returned(m, m', v, out)
  }

  /** `count` is the number of variables afterwards. */
  ghost predicate AfterS(w: World, m: Machine, m': Machine, r: SR, bytes: nat, up: nat, count: nat, n: nat, fuel: nat)
    requires |m.frames| > 0
  {
    || Spent(m')
    || (match r
        case Norm(vals, out) => |vals| == count && Reached(w, m, m', bytes, up, vals, out)
        case Ret(v, out) => Returned(m, m', v, out)
        case Void(out) => ReturnedAny(m, m', out)
        case SStop(e) => Ended(m', e, n, fuel))
  }

  lemma ReachedReady(w: World, m: Machine, m': Machine, bytes: nat, up: nat, vals: Vals, vals': Vals, out: Output)
    requires Ready(w, m, vals)
    requires Reached(w, m, m', bytes, up, vals', out)
    ensures Ready(w, m', vals')
    ensures m'.frames == m.frames && m'.objs == m.objs && m'.ip == m.ip + bytes && m'.out == out
  {
  }

  lemma ReachedFacts(w: World, m: Machine, m': Machine, bytes: nat, up: nat, vals: Vals, out: Output)
    requires |m.frames| > 0
    requires Reached(w, m, m', bytes, up, vals, out)
    ensures m'.frames == m.frames && m'.objs == m.objs && m'.ip == m.ip + bytes && m'.out == out
  {
  }

  lemma FrameFacts(w: World, m: Machine, vals: Vals)
    requires Ready(w, m, vals)
    ensures |m.frames| > 1 ==> Top(m).returnIndex == Base(m)
  {
  }

  lemma StartS(w: World, m: Machine, vals: Vals)
    requires Ready(w, m, vals)
    ensures Reached(w, m, m, 0, 0, vals, m.out)
  {
  }

  lemma ReachedTrans(w: World, m: Machine, m1: Machine, m2: Machine, b1: nat, b2: nat, u1: nat, u2: nat, v1: Vals,
                     v2: Vals,
                     o1: Output, o2: Output)
    requires |m.frames| > 0
    requires Reached(w, m, m1, b1, u1, v1, o1)
    requires Reached(w, m1, m2, b2, u2, v2, o2)
    ensures Reached(w, m, m2, b1 + b2, u1 + u2, v2, o2)
  {
  }

  lemma MovedReached(w: World, m: Machine, m': Machine, bytes: nat, vals: Vals, extra: seq<Element>, out: Output)
    requires |m.frames| > 0
    requires Moved(w, m, m', bytes, vals, extra, out)
    ensures Reached(w, m, m', bytes, |extra|, vals, out)
  {
  }

  /** What follows a reached point: its result, seen from the start. */
  lemma ChainS(w: World, m: Machine, n1: nat, n2: nat, r: SR, b1: nat, b2: nat, u1: nat, u2: nat, up: nat, v1: Vals,
               o1: Output,
               count: nat, fuel: nat, fuel2: nat)
    requires |m.frames| > 0 && up <= u1 + u2
    requires Reached(w, m, StepN(w, m, n1), b1, u1, v1, o1)
    requires AfterS(w, StepN(w, m, n1), StepN(w, StepN(w, m, n1), n2), r, b2, u2, count, n2, fuel2)
    requires fuel <= n1 + fuel2
    ensures AfterS(w, m, StepN(w, m, n1 + n2), r, b1 + b2, up, count, n1 + n2, fuel)
  {
    StepNAdd(w, m, n1, n2);
    hide StepN;
    var m1, m2 := StepN(w, m, n1), StepN(w, m, n1 + n2);
    if r.Norm? && !Spent(m2) {
      ReachedTrans(w, m, m1, m2, b1, b2, u1, u2, v1, r.vals, o1, r.out);
    }
    if r.Void? && !Spent(m2) {
      var v :| Returned(m1, m2, v, r.out);
      assert Returned(m, m2, v, r.out);
    }
  }

  /** An expression whose value is left where it is. */
  lemma Leftover(w: World, m: Machine, m': Machine, r: ER, bytes: nat, vals: Vals, n: nat, fuel: nat)
    requires |m.frames| > 0 && AfterE(w, m, m', r, bytes, vals, n, fuel)
    ensures AfterS(w, m, m', Effect(r), bytes, 1, |vals|, n, fuel)
  {
    if r.Val? && !Spent(m') {
      MovedReached(w, m, m', bytes, r.vals, [r.v], r.out);
    }
    hide Moved, Reached;
  }

  // ------------------------------------------------------ single instructions

  lemma StepJmpF(w: World, m: Machine, n: nat, bytes: nat, vals: Vals, v: Element, out: Output, d: nat)
    requires |m.frames| > 0
    requires Moved(w, m, StepN(w, m, n), bytes, vals, [v], out) && v.Bool?
    requires At3(CodeOf(w, m), m.ip + bytes, OP_JMPF, d) && d < 256
    ensures Reached(w, m, StepN(w, m, n + 1), if v.truth then bytes + 3 else bytes + 3 + d, 0, vals, out)
  {
    StepNext(w, m, n);
    hide StepN;
    DecodingsAgree(CodeOf(w, m), m.ip + bytes + 1);
    assert Popped(StepN(w, m, n).stack, 1) == Overlay(m.stack, Base(m), vals);
  }

  lemma StepJmp(w: World, m: Machine, n: nat, bytes: nat, up: nat, vals: Vals, out: Output, d: nat)
    requires |m.frames| > 0
    requires Reached(w, m, StepN(w, m, n), bytes, up, vals, out)
    requires At3(CodeOf(w, m), m.ip + bytes, OP_JMP, d) && d < 256
    ensures Reached(w, m, StepN(w, m, n + 1), bytes + 3 + d, up, vals, out)
  {
    StepNext(w, m, n);
    hide StepN;
    DecodingsAgree(CodeOf(w, m), m.ip + bytes + 1);
  }

  lemma StepLoop(w: World, m: Machine, n: nat, bytes: nat, up: nat, vals: Vals, out: Output, d: nat)
    requires |m.frames| > 0
    requires Reached(w, m, StepN(w, m, n), bytes, up, vals, out)
    requires At3(CodeOf(w, m), m.ip + bytes, OP_LOOP, d) && d < 256 && d <= bytes + 3
    ensures Reached(w, m, StepN(w, m, n + 1), bytes + 3 - d, up, vals, out)
  {
    StepNext(w, m, n);
    hide StepN;
    DecodingsAgree(CodeOf(w, m), m.ip + bytes + 1);
  }

  lemma StepJmpL(w: World, m: Machine, n: nat, bytes: nat, up: nat, vals: Vals, out: Output, k: nat, end: nat)
    requires |m.frames| > 0
    requires Reached(w, m, StepN(w, m, n), bytes, up, vals, out)
    requires At3(CodeOf(w, m), m.ip + bytes, OP_JMPL, k) && Lands(CodeOf(w, m), k, end) && end >= m.ip
    ensures Reached(w, m, StepN(w, m, n + 1), end - m.ip, up, vals, out)
  {
    StepNext(w, m, n);
    hide StepN;
    DecodingsAgree(CodeOf(w, m), m.ip + bytes + 1);
  }

  /** How many cells the end of a scope with `k` variables pops. */
  function Dropped(k: nat, ch: Chunk): nat
    requires PopsFit(k, ch)
  {
    if k <= 1 then k else Trunc(ch.consts[k - 1].num)
  }

  lemma EndsScope(w: World, m: Machine, k: nat)
    requires m.status == Running && |m.frames| > 0 && k > 0
    requires LaidPops(k, CodeOf(w, m), m.ip) && PopsFit(k, CodeOf(w, m))
    ensures Step(w, m) == Use(m.(ip := m.ip + SizePops(k)), Popped(m.stack, Dropped(k, CodeOf(w, m))))
  {
    hide Trunc, Use, Popped;
    var ch := CodeOf(w, m);
    if k > 1 {
      assert Step(w, m) == Step2(w, m, OP_POPN, k - 1, ch);
    }
  }

  /** `end_scope` after a scope with `k` variables. */
  lemma StepPops(w: World, m: Machine, n: nat, bytes: nat, up: nat, vals: Vals, out: Output, k: nat)
    requires |m.frames| > 0 && 0 < k <= |vals| && k <= up
    requires Reached(w, m, StepN(w, m, n), bytes, up, vals, out)
    requires LaidPops(k, CodeOf(w, m), m.ip + bytes) && PopsFit(k, CodeOf(w, m))
    ensures Reached(w, m, StepN(w, m, n + 1), bytes + SizePops(k), up - k, vals[..|vals| - k], out)
  {
    hide StepN, Step, Trunc, LaidPops, Use, Popped;
    StepNext(w, m, n);
    var m1 := StepN(w, m, n);
    var drop := Dropped(k, CodeOf(w, m));
    EndsScope(w, m1, k);
    DropTail(w, m, m1, bytes, up, vals, out, k, drop, SizePops(k));
  }

  lemma Prefix(s: seq<Element>, b: nat, n: nat, k: nat)
    requires b + n <= |s| && k <= n
    ensures s[b..b + k] == s[b..b + n][..k]
  {
  }

  lemma DropTail(w: World, m: Machine, m1: Machine, bytes: nat, up: nat, vals: Vals, out: Output, k: nat, drop: nat,
                 size: nat)
    requires |m.frames| > 0 && drop <= k <= |vals| && k <= up
    requires Reached(w, m, m1, bytes, up, vals, out)
    ensures Reached(w, m, Use(m1.(ip := m1.ip + size), Popped(m1.stack, drop)), bytes + size, up - k,
            vals[..|vals| - k], out)
  {
    var b := Base(m);
    Prefix(m1.stack, b, |vals|, |vals| - k);
  }

  lemma StepPopValue(w: World, m: Machine, n: nat, bytes: nat, up: nat, vals: Vals, out: Output)
    requires |m.frames| > 0 && Base(m) + |vals| <= |m.stack| && up > 0
    requires Reached(w, m, StepN(w, m, n), bytes, up, vals, out)
    requires At1(CodeOf(w, m), m.ip + bytes, OP_POP)
    ensures Reached(w, m, StepN(w, m, n + 1), bytes + 1, up - 1, vals, out)
  {
    StepNext(w, m, n);
    hide StepN;
    var st, b := StepN(w, m, n).stack, Base(m);
    assert Popped(st, 1) == st[..|st| - 1];
    assert st[..|st| - 1][b..b + |vals|] == st[b..b + |vals|];
    assert st[..|st| - 1][..b] == st[..b];
  }

  lemma StepPrint(w: World, m: Machine, n: nat, bytes: nat, vals: Vals, v: Element, out: Output)
    requires |m.frames| > 0
    requires Moved(w, m, StepN(w, m, n), bytes, vals, [v], out)
    requires At1(CodeOf(w, m), m.ip + bytes, OP_PRINT)
    ensures Reached(w, m, StepN(w, m, n + 1), bytes + 1, 0, vals, out + [v])
  {
    StepNext(w, m, n);
    hide StepN;
    assert Popped(StepN(w, m, n).stack, 1) == Overlay(m.stack, Base(m), vals);
  }

  lemma StepReturnValue(w: World, m: Machine, n: nat, bytes: nat, vals: Vals, v: Element, out: Output)
    requires |m.frames| > 0 && (|m.frames| > 1 ==> Top(m).returnIndex == Base(m))
    requires Moved(w, m, StepN(w, m, n), bytes, vals, [v], out)
    requires At1(CodeOf(w, m), m.ip + bytes, OP_RETURN)
    ensures Returned(m, StepN(w, m, n + 1), v, out)
  {
    StepNext(w, m, n);
    hide StepN;
    assert StepN(w, m, n).stack[..Base(m)] == m.stack[..Base(m)];
  }

  /** OP_RETURN with whatever is on top: `return;`, and the end of a body. */
  lemma StepReturnAny(w: World, m: Machine, n: nat, bytes: nat, up: nat, vals: Vals, out: Output)
    requires |m.frames| > 0 && (|m.frames| > 1 ==> Top(m).returnIndex == Base(m))
    requires Reached(w, m, StepN(w, m, n), bytes, up, vals, out)
    requires At1(CodeOf(w, m), m.ip + bytes, OP_RETURN)
    ensures Spent(StepN(w, m, n + 1)) || ReturnedAny(m, StepN(w, m, n + 1), out)
  {
    StepNext(w, m, n);
    hide StepN;
    var m1 := StepN(w, m, n);
    assert Cells(m1)[..Base(m)] == m1.stack[..Base(m)] == m.stack[..Base(m)];
    assert Spent(Step(w, m1)) || Returned(m, Step(w, m1), Peek(m1, 0), out);
  }

  /** The first store to a new variable, whose slot is the next one. */
  lemma StepDeclare(w: World, m: Machine, n: nat, bytes: nat, vals: Vals, v: Element, out: Output)
    requires |m.frames| > 0
    requires Moved(w, m, StepN(w, m, n), bytes, vals, [v], out)
    requires At2(CodeOf(w, m), m.ip + bytes, OP_SET_LOCAL, |vals|)
    ensures Reached(w, m, StepN(w, m, n + 1), bytes + 2, 1, vals + [v], out)
  {
    StepNext(w, m, n);
    hide StepN;
    var b := Base(m);
    var st := StepN(w, m, n).stack;
    assert st[..b] == m.stack[..b] && st[b..b + |vals|] == vals;
    assert st[b + |vals| := v][b..b + |vals| + 1] == vals + [v];
  }
}
