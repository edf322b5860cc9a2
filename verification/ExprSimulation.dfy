/** Running the code of an expression. */
module ExprSimulation {
  import opened Values
  import opened Syntax
  import opened Bytecode
  import opened Layout
  import opened Machine
  import opened Semantics

  // ----------------------------------------------- what the code must meet

  /** A compound assignment writes the identifier read last, so its right-hand side must
      not mention another one. */
  predicate SoundE(e: Expr) {
    match e
    case Lit(_) | Local(_) | FuncRef(_) | Bump(_, _, _) => true
    case Assign(_, r) => SoundE(r)
    case Compound(_, x, r) => SoundE(r) && Target(x, r) == x
    case Neg(_, r) => SoundE(r)
    case Paren(r) => SoundE(r)
    case Bin(_, l, r) => SoundE(l) && SoundE(r)
    case Call(f, args) => SoundE(f) && SoundArgs(args)
  }

  predicate SoundArgs(es: Exprs) {
    match es case Nil => true case Cons(e, t) => SoundE(e) && SoundArgs(t)
  }

  // ---------------------------------------------------- the simulation relation

  function Base(m: Machine): nat
    requires |m.frames| > 0
  {
    Top(m).slots
  }

  /** The machine runs in a frame whose first cells are the values of the variables.
      Whatever lies above them is unspecified. */
  predicate Ready(w: World, m: Machine, vals: Vals)
    ensures Ready(w, m, vals) ==> |m.frames| > 0 && w.limit <= 256
  {
    && m.status == Running
    && |m.frames| > 0
    && Base(m) + |vals| <= |m.stack| <= w.limit <= 256
    && m.stack[Base(m)..Base(m) + |vals|] == vals
    && (|m.frames| > 1 ==> Top(m).returnIndex == Base(m))
  }

  /** `s` with the cells from `b` replaced by `vals`. */
  function Overlay(s: seq<Element>, b: nat, vals: Vals): seq<Element>
    requires b + |vals| <= |s|
  {
    s[..b] + vals + s[b + |vals|..]
  }

  /** `m'` is `m` some bytes further, with other variable values and `extra` pushed. */
  predicate Moved(w: World, m: Machine, m': Machine, bytes: nat, vals: Vals, extra: seq<Element>, out: Output)
    requires |m.frames| > 0
  {
    && m'.status == Running
    && m'.frames == m.frames
    && m'.objs == m.objs
    && m'.ip == m.ip + bytes
    && m'.out == out
    && Base(m) + |vals| <= |m.stack|
    && m'.stack == Overlay(m.stack, Base(m), vals) + extra
    && |m'.stack| <= w.limit
  }

  /** Outcomes that end the run, and running out of fuel, which takes at least `fuel` steps. */
  predicate Ended(m': Machine, r: ER, n: nat, fuel: nat) {
    match r
    case Val(_, _, _) => false
    case Exit(out) => m'.status == Exited && m'.out == out
    case Fail(out) => m'.status == Failed && m'.out == out
    case Stray => true
    case Timeout => m'.status == Running && n >= fuel
  }

  predicate AfterE(w: World, m: Machine, m': Machine, r: ER, bytes: nat, vals: Vals, n: nat, fuel: nat)
    requires |m.frames| > 0
  {
    || Spent(m')
    || (if r.Val? then |r.vals| == |vals| && Moved(w, m, m', bytes, r.vals, [r.v], r.out) else Ended(m', r, n, fuel))
  }

  lemma MovedReady(w: World, m: Machine, m': Machine, bytes: nat, vals: Vals, vals': Vals, extra: seq<Element>,
                   out: Output)
    requires Ready(w, m, vals)
    requires Moved(w, m, m', bytes, vals', extra, out)
    ensures Ready(w, m', vals')
    ensures m'.frames == m.frames && m'.objs == m.objs && m'.ip == m.ip + bytes && m'.out == out
  {
    assert Overlay(m.stack, Base(m), vals')[Base(m)..Base(m) + |vals'|] == vals';
  }

  lemma Stay(w: World, m: Machine, vals: Vals)
    requires Ready(w, m, vals)
    ensures Moved(w, m, m, 0, vals, [], m.out)
  {
    assert m.stack == Overlay(m.stack, Base(m), vals) + [];
  }

  lemma MovedTrans(w: World, m: Machine, m1: Machine, m2: Machine, b1: nat, b2: nat, v1: Vals, v2: Vals,
                   x1: seq<Element>, x2: seq<Element>, o1: Output, o2: Output)
    requires |m.frames| > 0 && |v1| == |v2|
    requires Moved(w, m, m1, b1, v1, x1, o1)
    requires Moved(w, m1, m2, b2, v2, x2, o2)
    ensures Moved(w, m, m2, b1 + b2, v2, x1 + x2, o2)
  {
    var b := Base(m);
    var p := Overlay(m.stack, b, v1);
    assert (p + x1)[..b] == m.stack[..b];
    assert (p + x1)[b + |v2|..] == m.stack[b + |v2|..] + x1;
    assert Overlay(p + x1, b, v2) == Overlay(m.stack, b, v2) + x1;
    assert Overlay(m.stack, b, v2) + x1 + x2 == Overlay(m.stack, b, v2) + (x1 + x2);
  }

  // ------------------------------------------------------ single instructions

  lemma StepNext(w: World, m: Machine, n: nat)
    ensures StepN(w, m, n + 1) == Step(w, StepN(w, m, n))
  {
    StepNAdd(w, m, n, 1);
    assert StepN(w, StepN(w, m, n), 1) == StepN(w, Step(w, StepN(w, m, n)), 0);
  }

  lemma First(w: World, m: Machine)
    ensures StepN(w, m, 0) == m && StepN(w, m, 1) == Step(w, m)
  {
    assert StepN(w, m, 1) == StepN(w, Step(w, m), 0);
  }

  /** A push of `v` by the `bytes`-byte instruction at `m.ip`. */
  lemma Pushes(w: World, m: Machine, m': Machine, vals: Vals, v: Element, bytes: nat, n: nat, fuel: nat)
    requires Ready(w, m, vals)
    requires m' == Push(w, m.(ip := m.ip + bytes), m.stack, v)
    ensures AfterE(w, m, m', Val(v, vals, m.out), bytes, vals, n, fuel)
  {
    assert m.stack == Overlay(m.stack, Base(m), vals);
  }

  lemma StepConstant(w: World, m: Machine, vals: Vals, v: Element, fuel: nat)
    requires Ready(w, m, vals)
    requires LaidE(Lit(v), [], map[], CodeOf(w, m), m.ip)
    ensures AfterE(w, m, StepN(w, m, 1), Val(v, vals, m.out), 2, vals, 1, fuel)
  {
    First(w, m);
    Pushes(w, m, Step(w, m), vals, v, 2, 1, fuel);
  }

  lemma StepGetObj(w: World, m: Machine, vals: Vals, o: nat, fuel: nat)
    requires Ready(w, m, vals)
    requires At2(CodeOf(w, m), m.ip, OP_GET_OBJ, o) && o < |m.objs|
    ensures AfterE(w, m, StepN(w, m, 1), Val(m.objs[o], vals, m.out), 2, vals, 1, fuel)
  {
    First(w, m);
    Pushes(w, m, Step(w, m), vals, m.objs[o], 2, 1, fuel);
  }

  lemma StepGetLocal(w: World, m: Machine, vals: Vals, i: nat, fuel: nat)
    requires Ready(w, m, vals)
    requires At2(CodeOf(w, m), m.ip, OP_GET_LOCAL, i) && i < |vals|
    ensures AfterE(w, m, StepN(w, m, 1), Val(vals[i], vals, m.out), 2, vals, 1, fuel)
  {
    First(w, m);
    assert m.stack[Base(m)..Base(m) + |vals|][i] == m.stack[Base(m) + i];
    Pushes(w, m, Step(w, m), vals, vals[i], 2, 1, fuel);
  }

  /** OP_SET_LOCAL after a result that took `n` steps. */
  lemma StepSetLocal(w: World, m: Machine, n: nat, bytes: nat, vals: Vals, v: Element, out: Output, i: nat)
    requires |m.frames| > 0
    requires Moved(w, m, StepN(w, m, n), bytes, vals, [v], out)
    requires At2(CodeOf(w, m), m.ip + bytes, OP_SET_LOCAL, i) && i < |vals|
    ensures Moved(w, m, StepN(w, m, n + 1), bytes + 2, vals[i := v], [v], out)
  {
    StepNext(w, m, n);
    hide StepN;
    assert StepN(w, m, n).stack[Base(m) + i := v] == Overlay(m.stack, Base(m), vals[i := v]) + [v];
  }

  lemma StepUnaryOp(w: World, m: Machine, n: nat, bytes: nat, vals: Vals, a: Element, out: Output, op: Byte, fuel: nat)
    requires |m.frames| > 0
    requires Moved(w, m, StepN(w, m, n), bytes, vals, [a], out)
    requires At1(CodeOf(w, m), m.ip + bytes, op) && (op == OP_NEG || op == OP_INC || op == OP_DEC)
    ensures
      var r := if op == OP_NEG then NegValue(a) else BumpValue(a, op == OP_INC);
      AfterE(w, m, StepN(w, m, n + 1), Lift(r, vals, out), bytes + 1, vals, n + 1, fuel)
  {
    StepNext(w, m, n);
    hide StepN;
    assert Popped(StepN(w, m, n).stack, 1) == Overlay(m.stack, Base(m), vals);
  }

  lemma StepBinaryOp(w: World, m: Machine, n: nat, bytes: nat, vals: Vals, a: Element, b: Element, out: Output,
                     op: BinOp, fuel: nat)
    requires |m.frames| > 0
    requires Moved(w, m, StepN(w, m, n), bytes, vals, [a, b], out)
    requires At1(CodeOf(w, m), m.ip + bytes, OpByte(op))
    ensures AfterE(w, m, StepN(w, m, n + 1), Lift(BinValue(op, a, b), vals, out), bytes + 1, vals, n + 1, fuel)
  {
    StepNext(w, m, n);
    hide StepN;
    OperandOrder(op, a, b);
    assert Popped(StepN(w, m, n).stack, 2) == Overlay(m.stack, Base(m), vals);
  }

  /** A result reached after `n1` and then `n2` steps, seen from the start. */
  lemma Chain(w: World, m: Machine, n1: nat, n2: nat, r: ER, b1: nat, b2: nat, v1: Vals, x1: seq<Element>, o1: Output,
              fuel: nat)
    requires |m.frames| > 0
    requires Moved(w, m, StepN(w, m, n1), b1, v1, x1, o1)
    requires AfterE(w, StepN(w, m, n1), StepN(w, StepN(w, m, n1), n2), r, b2, v1, n2, fuel)
    ensures
      var m2 := StepN(w, m, n1 + n2);
      || Spent(m2)
      || (if r.Val? then |r.vals| == |v1| && Moved(w, m, m2, b1 + b2, r.vals, x1 + [r.v], r.out)
          else Ended(m2, r, n1 + n2, fuel))
  {
    StepNAdd(w, m, n1, n2);
    hide StepN;
    var m1, m2 := StepN(w, m, n1), StepN(w, m, n1 + n2);
    if r.Val? && !Spent(m2) {
      MovedTrans(w, m, m1, m2, b1, b2, v1, r.vals, x1, [r.v], o1, r.out);
    }
  }
}
