/** The simulation itself, by induction on the semantics. Each lemma returns the number of
    machine steps taken. */
module Correctness {
  import opened Values
  import opened Syntax
  import opened Bytecode
  import opened Layout
  import opened Machine
  import opened Semantics
  import opened ExprSimulation
  import opened Simulation
  import opened Calls

  // ------------------------------------------------------------ expressions

  lemma {:induction false} SimE(s: Setting, e: Expr, names: seq<Name>, vals: Vals, fuel: nat, m: Machine)
    returns (n: nat)
    requires Ready(s.w, m, vals) && Linked(s, m.objs)
    requires LaidE(e, names, s.fns, CodeOf(s.w, m), m.ip) && SoundE(e)
    ensures AfterE(s.w, m, StepN(s.w, m, n), EvalE(s.p, e, names, vals, m.out, fuel), SizeE(e), vals, n, fuel)
    decreases fuel, e, 3
  {
    hide *;
    match e
    case Assign(_, _) => n := SimAssign(s, e, names, vals, fuel, m);
    case Compound(_, _, _) => n := SimCompound(s, e, names, vals, fuel, m);
    case Neg(_, _) => n := SimNeg(s, e, names, vals, fuel, m);
    case Paren(_) => n := SimParen(s, e, names, vals, fuel, m);
    case Bump(_, _, _) => n := SimBump(s, e, names, vals, fuel, m);
    case Bin(_, _, _) => n := SimOperator(s, e, names, vals, fuel, m);
    case Call(_, _) => n := SimCall(s, e, names, vals, fuel, m);
    case _ => n := 1; SimLeaf(s, e, names, vals, fuel, m);
  }

  lemma {:induction false} SimParen(s: Setting, e: Expr, names: seq<Name>, vals: Vals, fuel: nat, m: Machine)
    returns (n: nat)
    requires e.Paren?
    requires Ready(s.w, m, vals) && Linked(s, m.objs)
    requires LaidE(e, names, s.fns, CodeOf(s.w, m), m.ip) && SoundE(e)
    ensures AfterE(s.w, m, StepN(s.w, m, n), EvalE(s.p, e, names, vals, m.out, fuel), SizeE(e), vals, n, fuel)
    decreases fuel, e, 0
  {
    hide StepN, Newest, Ready, Linked, AfterE;
    n := SimE(s, e.e, names, vals, fuel, m);
  }

  lemma SimLeaf(s: Setting, e: Expr, names: seq<Name>, vals: Vals, fuel: nat, m: Machine)
    requires e.Lit? || e.Local? || e.FuncRef?
    requires Ready(s.w, m, vals) && Linked(s, m.objs)
    requires LaidE(e, names, s.fns, CodeOf(s.w, m), m.ip)
    ensures AfterE(s.w, m, StepN(s.w, m, 1), EvalE(s.p, e, names, vals, m.out, fuel), SizeE(e), vals, 1, fuel)
  {
    hide StepN, Moved, Overlay, Newest, Ready, Linked;
    match e
    case Lit(v) => StepConstant(s.w, m, vals, v, fuel);
    case FuncRef(f) =>
      LinkedName(s, m.objs, f);
      StepGetObj(s.w, m, vals, s.fns[f], fuel);
    case Local(x) =>
      if Has(names, vals, x) {
        StepGetLocal(s.w, m, vals, Newest(names, x), fuel);
      }
  }

  lemma {:induction false} SimOperator(s: Setting, e: Expr, names: seq<Name>, vals: Vals, fuel: nat, m: Machine)
    returns (n: nat)
    requires e.Bin?
    requires Ready(s.w, m, vals) && Linked(s, m.objs)
    requires LaidE(e, names, s.fns, CodeOf(s.w, m), m.ip) && SoundE(e)
    ensures AfterE(s.w, m, StepN(s.w, m, n), EvalE(s.p, e, names, vals, m.out, fuel), SizeE(e), vals, n, fuel)
    decreases fuel, e, 1
  {
    hide StepN, Moved, Overlay, Newest, Ready, BinValue, Linked, AfterE, Lift;
    var a := EvalE(s.p, e.l, names, vals, m.out, fuel);
    var b := if a.Val? then EvalE(s.p, e.r, names, a.vals, a.out, fuel) else a;
    n := SimBin(s, e, names, vals, fuel, m, a, b);
  }

  /** OP_SET_LOCAL after a result. */
  lemma SimStore(s: Setting, names: seq<Name>, vals: Vals, x: Name, r: ER, fuel: nat, m: Machine, bytes: nat, n: nat)
    requires |m.frames| > 0 && r.Val?
    requires AfterE(s.w, m, StepN(s.w, m, n), r, bytes, vals, n, fuel)
    requires At2(CodeOf(s.w, m), m.ip + bytes, OP_SET_LOCAL, Newest(names, x))
    ensures AfterE(s.w, m, StepN(s.w, m, n + 1), Store(names, x, r), bytes + 2, vals, n + 1, fuel)
  {
    if Spent(StepN(s.w, m, n)) {
      StepNAdd(s.w, m, n, 1);
      Halted(s.w, StepN(s.w, m, n), 1);
    } else if Has(names, r.vals, x) {
      StepSetLocal(s.w, m, n, bytes, r.vals, r.v, r.out, Newest(names, x));
    }
  }

  lemma {:induction false} SimAssign(s: Setting, e: Expr, names: seq<Name>, vals: Vals, fuel: nat, m: Machine)
    returns (n: nat)
    requires e.Assign?
    requires Ready(s.w, m, vals) && Linked(s, m.objs)
    requires LaidE(e, names, s.fns, CodeOf(s.w, m), m.ip) && SoundE(e)
    ensures AfterE(s.w, m, StepN(s.w, m, n), EvalE(s.p, e, names, vals, m.out, fuel), SizeE(e), vals, n, fuel)
    decreases fuel, e, 0
  {
    hide StepN, Moved, Overlay, Newest, Linked, Ready;
    var r := EvalE(s.p, e.e, names, vals, m.out, fuel);
    n := SimE(s, e.e, names, vals, fuel, m);
    if r.Val? {
      SimStore(s, names, vals, e.x, r, fuel, m, SizeE(e.e), n);
      n := n + 1;
    }
  }

  lemma {:induction false} SimNeg(s: Setting, e: Expr, names: seq<Name>, vals: Vals, fuel: nat, m: Machine)
    returns (n: nat)
    requires e.Neg?
    requires Ready(s.w, m, vals) && Linked(s, m.objs)
    requires LaidE(e, names, s.fns, CodeOf(s.w, m), m.ip) && SoundE(e)
    ensures AfterE(s.w, m, StepN(s.w, m, n), EvalE(s.p, e, names, vals, m.out, fuel), SizeE(e), vals, n, fuel)
    decreases fuel, e, 0
  {
    hide StepN, Moved, Overlay, Newest, Linked, Ready, BinValue, NegValue, BumpValue;
    var r := EvalE(s.p, e.e, names, vals, m.out, fuel);
    n := SimE(s, e.e, names, vals, fuel, m);
    if r.Val? && !Spent(StepN(s.w, m, n)) {
      StepUnaryOp(s.w, m, n, SizeE(e.e), r.vals, r.v, r.out, OP_NEG, fuel);
      n := n + 1;
    }
  }

  lemma {:induction false} SimBump(s: Setting, e: Expr, names: seq<Name>, vals: Vals, fuel: nat, m: Machine)
    returns (n: nat)
    requires e.Bump?
    requires Ready(s.w, m, vals) && Linked(s, m.objs)
    requires LaidE(e, names, s.fns, CodeOf(s.w, m), m.ip) && SoundE(e)
    ensures AfterE(s.w, m, StepN(s.w, m, n), EvalE(s.p, e, names, vals, m.out, fuel), SizeE(e), vals, n, fuel)
    decreases fuel, e, 0
  {
    hide StepN, Moved, Overlay, Newest, Linked, Ready, BinValue, NegValue, BumpValue;
    n := 1;
    if Has(names, vals, e.x) {
      var v := Lookup(names, vals, e.x);
      StepGetLocal(s.w, m, vals, Newest(names, e.x), fuel);
      if !Spent(StepN(s.w, m, 1)) {
        var r := Lift(BumpValue(v, e.inc), vals, m.out);
        n := 2;
        StepUnaryOp(s.w, m, 1, 2, vals, v, m.out, BumpByte(e.inc), fuel);
        if r.Val? {
          SimStore(s, names, vals, e.x, r, fuel, m, 3, 2);
          n := 3;
        }
      }
    }
  }

  /** `a` and `b` are the results of the operands. */
  lemma {:induction false} SimBin(s: Setting, e: Expr, names: seq<Name>, vals: Vals, fuel: nat, m: Machine, a: ER,
                                  b: ER) returns (n: nat)
    requires e.Bin?
    requires Ready(s.w, m, vals) && Linked(s, m.objs)
    requires LaidE(e.l, names, s.fns, CodeOf(s.w, m), m.ip) && SoundE(e.l)
    requires LaidE(e.r, names, s.fns, CodeOf(s.w, m), m.ip + SizeE(e.l)) && SoundE(e.r)
    requires At1(CodeOf(s.w, m), m.ip + SizeE(e.l) + SizeE(e.r), OpByte(e.op))
    requires a == EvalE(s.p, e.l, names, vals, m.out, fuel)
    requires a.Val? ==> b == EvalE(s.p, e.r, names, a.vals, a.out, fuel)
    ensures
      var r := if !a.Val? then a else if !b.Val? then b else Lift(BinValue(e.op, a.v, b.v), b.vals, b.out);
      AfterE(s.w, m, StepN(s.w, m, n), r, SizeE(e.l) + SizeE(e.r) + 1, vals, n, fuel)
    decreases fuel, e, 0
  {
    hide StepN, Moved, Overlay, Newest, Linked, Ready, EvalE, LaidE, SoundE, SizeE, BinValue;
    n := SimE(s, e.l, names, vals, fuel, m);
    var m1 := StepN(s.w, m, n);
    if a.Val? && !Spent(m1) {
      MovedReady(s.w, m, m1, SizeE(e.l), vals, a.vals, [a.v], a.out);
      var n2 := SimE(s, e.r, names, a.vals, fuel, m1);
      Chain(s.w, m, n, n2, b, SizeE(e.l), SizeE(e.r), a.vals, [a.v], a.out, fuel);
      n := n + n2;
      if b.Val? && !Spent(StepN(s.w, m, n)) {
        assert [a.v] + [b.v] == [a.v, b.v];
        StepBinaryOp(s.w, m, n, SizeE(e.l) + SizeE(e.r), b.vals, a.v, b.v, b.out, e.op, fuel);
        n := n + 1;
      }
    }
  }

  /** `x op= r` with the result stored in `z`. */
  function CompoundInto(p: Program, e: Expr, z: Name, names: seq<Name>, vals: Vals, out: Output, fuel: nat): ER
    requires e.Compound?
  {
    if !Has(names, vals, e.x) then Stray
    else
      var a := EvalE(p, e.e, names, vals, out, fuel);
      if a.Val? then Store(names, z, Lift(BinValue(e.op, Lookup(names, vals, e.x), a.v), a.vals, a.out)) else a
  }

  lemma {:induction false} SimCompound(s: Setting, e: Expr, names: seq<Name>, vals: Vals, fuel: nat, m: Machine)
    returns (n: nat)
    requires e.Compound?
    requires Ready(s.w, m, vals) && Linked(s, m.objs)
    requires LaidE(e, names, s.fns, CodeOf(s.w, m), m.ip) && SoundE(e)
    ensures AfterE(s.w, m, StepN(s.w, m, n), EvalE(s.p, e, names, vals, m.out, fuel), SizeE(e), vals, n, fuel)
    decreases fuel, e, 1
  {
    n := SimCompoundInto(s, e, names, vals, fuel, m);
    hide *;
  }

  /** What the code of a compound assignment does, whatever its right-hand side mentions: the
      result goes to the identifier that was read last. */
  lemma {:induction false} SimCompoundInto(s: Setting, e: Expr, names: seq<Name>, vals: Vals, fuel: nat, m: Machine)
    returns (n: nat)
    requires e.Compound?
    requires Ready(s.w, m, vals) && Linked(s, m.objs)
    requires LaidE(e, names, s.fns, CodeOf(s.w, m), m.ip) && SoundE(e.e)
    ensures AfterE(s.w, m, StepN(s.w, m, n), CompoundInto(s.p, e, Target(e.x, e.e), names, vals, m.out, fuel), SizeE(e),
            vals, n, fuel)
    decreases fuel, e, 0
  {
    hide StepN, Moved, Overlay, Newest, Linked, Ready, BinValue, NegValue, BumpValue;
    n := 1;
    if Has(names, vals, e.x) {
      var v := Lookup(names, vals, e.x);
      StepGetLocal(s.w, m, vals, Newest(names, e.x), fuel);
      var m1 := StepN(s.w, m, 1);
      if !Spent(m1) {
        MovedReady(s.w, m, m1, 2, vals, vals, [v], m.out);
        var b := EvalE(s.p, e.e, names, vals, m.out, fuel);
        var n2 := SimE(s, e.e, names, vals, fuel, m1);
        Chain(s.w, m, 1, n2, b, 2, SizeE(e.e), vals, [v], m.out, fuel);
        n := 1 + n2;
        if b.Val? && !Spent(StepN(s.w, m, n)) {
          n := SimCompoundStore(s, e, names, vals, fuel, m, n, v, b);
        }
      }
    }
  }

  /** Both operands of a compound assignment are on the stack: the operator and the store. */
  lemma SimCompoundStore(s: Setting, e: Expr, names: seq<Name>, vals: Vals, fuel: nat, m: Machine, k: nat, v: Element,
                         b: ER) returns (n: nat)
    requires e.Compound? && Ready(s.w, m, vals) && LaidE(e, names, s.fns, CodeOf(s.w, m), m.ip)
    requires b.Val? && |b.vals| == |vals|
    requires Moved(s.w, m, StepN(s.w, m, k), 2 + SizeE(e.e), b.vals, [v] + [b.v], b.out)
    ensures AfterE(s.w, m, StepN(s.w, m, n),
            Store(names, Target(e.x, e.e), Lift(BinValue(e.op, v, b.v), b.vals, b.out)),
            SizeE(e), vals, n, fuel)
  {
    hide StepN, Moved, Overlay, Newest, Linked, Ready, BinValue, NegValue, BumpValue;
    var r := Lift(BinValue(e.op, v, b.v), b.vals, b.out);
    assert [v] + [b.v] == [v, b.v];
    StepBinaryOp(s.w, m, k, 2 + SizeE(e.e), b.vals, v, b.v, b.out, e.op, fuel);
    n := k + 1;
    if r.Val? {
      SimStore(s, names, vals, Target(e.x, e.e), r, fuel, m, 2 + SizeE(e.e) + 1, n);
      n := n + 1;
    }
  }

  // ------------------------------------------------------------------ calls

  /** Arguments: their values end up above what was there, in order. */
  lemma {:induction false} SimArgs(s: Setting, es: Exprs, names: seq<Name>, vals: Vals, fuel: nat, m: Machine)
    returns (n: nat)
    requires Ready(s.w, m, vals) && Linked(s, m.objs)
    requires LaidArgs(es, names, s.fns, CodeOf(s.w, m), m.ip) && SoundArgs(es)
    ensures
      var m' := StepN(s.w, m, n);
      var r := EvalArgs(s.p, es, names, vals, m.out, fuel);
      || Spent(m')
      || (if r.Vs? then |r.vals| == |vals| && |r.vs| == Count(es)
        && Moved(s.w, m, m', SizeArgs(es), r.vals, r.vs, r.out)
          else Ended(m', r.r, n, fuel))
    decreases fuel, es, 0
  {
    hide StepN, Moved, Overlay, Newest, Linked, Ready, EvalE, LaidE, SoundE, SizeE;
    n := 0;
    First(s.w, m);
    match es
    case Nil => Stay(s.w, m, vals);
    case Cons(e, t) =>
      var a := EvalE(s.p, e, names, vals, m.out, fuel);
      n := SimE(s, e, names, vals, fuel, m);
      var m1 := StepN(s.w, m, n);
      if a.Val? && !Spent(m1) {
        MovedReady(s.w, m, m1, SizeE(e), vals, a.vals, [a.v], a.out);
        var b := EvalArgs(s.p, t, names, a.vals, a.out, fuel);
        var n2 := SimArgs(s, t, names, a.vals, fuel, m1);
        StepNAdd(s.w, m, n, n2);
        n := n + n2;
        var m2 := StepN(s.w, m, n);
        if b.Vs? && !Spent(m2) {
          MovedTrans(s.w, m, m1, m2, SizeE(e), SizeArgs(t), a.vals, b.vals, [a.v], b.vs, a.out, b.out);
        }
      }
  }

  /** The callee and the arguments: their values end up above what was there, in order. */
  lemma {:induction false} SimOperands(s: Setting, e: Expr, names: seq<Name>, vals: Vals, fuel: nat, m: Machine)
    returns (n: nat)
    requires e.Call?
    requires Ready(s.w, m, vals) && Linked(s, m.objs)
    requires LaidE(e, names, s.fns, CodeOf(s.w, m), m.ip) && SoundE(e)
    ensures
      var m' := StepN(s.w, m, n);
      var r := Operands(s.p, e, names, vals, m.out, fuel);
      || Spent(m')
      || (if r.Vs? then
            && |r.vals| == |vals| && |r.vs| == 1 + Count(e.args)
            && Moved(s.w, m, m', SizeE(e.fn) + SizeArgs(e.args), r.vals, r.vs, r.out)
          else Ended(m', r.r, n, fuel))
    decreases fuel, e, 0
  {
    hide StepN, Moved, Overlay, Newest, Linked, Ready, EvalE, EvalArgs, LaidArgs, SoundArgs, SizeArgs;
    var a := EvalE(s.p, e.fn, names, vals, m.out, fuel);
    n := SimE(s, e.fn, names, vals, fuel, m);
    var m1 := StepN(s.w, m, n);
    if a.Val? && !Spent(m1) {
      MovedReady(s.w, m, m1, SizeE(e.fn), vals, a.vals, [a.v], a.out);
      var b := EvalArgs(s.p, e.args, names, a.vals, a.out, fuel);
      var n2 := SimArgs(s, e.args, names, a.vals, fuel, m1);
      StepNAdd(s.w, m, n, n2);
      n := n + n2;
      var m2 := StepN(s.w, m, n);
      if b.Vs? && !Spent(m2) {
        MovedTrans(s.w, m, m1, m2, SizeE(e.fn), SizeArgs(e.args), a.vals, b.vals, [a.v], b.vs, a.out, b.out);
      }
    }
  }

  /** A call expression, up to the return of the callee; `r` is what the callee's body does. */
  lemma {:induction false} SimCalling(s: Setting, e: Expr, names: seq<Name>, vals: Vals, fuel: nat, m: Machine, b: LR,
                                      r: SR) returns (n: nat)
    requires e.Call?
    requires Ready(s.w, m, vals) && Linked(s, m.objs)
    requires LaidE(e, names, s.fns, CodeOf(s.w, m), m.ip) && SoundE(e)
    requires b == Operands(s.p, e, names, vals, m.out, fuel)
    requires r == if b.LStop? then SStop(b.r) else if fuel == 0 then SStop(Timeout)
             else RunBody(s.p, b.vs[0], b.vs[1..], b.out, fuel - 1)
    ensures var m' := StepN(s.w, m, n);
            Spent(m') || CalledBack(s.w, m, m', SizeE(e), if b.Vs? then b.vals else [], r, n, fuel)
    ensures b.Vs? && !Spent(StepN(s.w, m, n)) ==> |b.vals| == |vals|
    decreases fuel, e, 1
  {
    hide StepN, Moved, Overlay, Newest, Linked, Ready, Operands, LaidArgs, SoundArgs, SizeArgs, RunBody;
    n := SimOperands(s, e, names, vals, fuel, m);
    var m1 := StepN(s.w, m, n);
    if b.Vs? && !Spent(m1) {
      if fuel > 0 {
        assert b.vs == [b.vs[0]] + b.vs[1..];
        var n2 := SimInvoke(s, b.vs[0], b.vs[1..], b.vals, b.out, fuel - 1, m, m1, SizeE(e.fn) + SizeArgs(e.args));
        StepNAdd(s.w, m, n, n2);
        n := n + n2;
      } else {
        MovedRuns(s.w, m, m1, SizeE(e.fn) + SizeArgs(e.args), b.vals, b.vs, b.out);
      }
    }
  }

  lemma MovedRuns(w: World, m: Machine, m': Machine, bytes: nat, vals: Vals, extra: seq<Element>, out: Output)
    requires |m.frames| > 0 && Moved(w, m, m', bytes, vals, extra, out)
    ensures m'.status == Running
  {
  }

  /** A callee has ended as `r` says. If it returned, one value has replaced callee and
      arguments, and the caller goes on as it was. */
  ghost predicate CalledBack(w: World, m: Machine, m': Machine, bytes: nat, vals: Vals, r: SR, n: nat, fuel: nat)
    requires |m.frames| > 0
  {
    match r
    case Ret(v, out) => Moved(w, m, m', bytes, vals, [v], out)
    case Norm(_, out) => exists v :: Moved(w, m, m', bytes, vals, [v], out)
    case Void(out) => exists v :: Moved(w, m, m', bytes, vals, [v], out)
    case SStop(e) => Ended(m', e, n, fuel)
  }

  lemma {:induction false} SimCall(s: Setting, e: Expr, names: seq<Name>, vals: Vals, fuel: nat, m: Machine)
    returns (n: nat)
    requires e.Call?
    requires Ready(s.w, m, vals) && Linked(s, m.objs)
    requires LaidE(e, names, s.fns, CodeOf(s.w, m), m.ip) && SoundE(e)
    ensures AfterE(s.w, m, StepN(s.w, m, n), EvalE(s.p, e, names, vals, m.out, fuel), SizeE(e), vals, n, fuel)
    decreases fuel, e, 2
  {
    hide StepN, Moved, Overlay, Newest, Linked, Ready, Operands, LaidE, SoundE, SizeE, RunBody;
    var b := Operands(s.p, e, names, vals, m.out, fuel);
    var r := if b.LStop? then SStop(b.r) else if fuel == 0 then SStop(Timeout)
      else RunBody(s.p, b.vs[0], b.vs[1..], b.out, fuel - 1);
    n := SimCalling(s, e, names, vals, fuel, m, b, r);
  }

  /** An expression whose value is not needed, procedure calls included. */
  lemma {:induction false} SimPerform(s: Setting, e: Expr, names: seq<Name>, vals: Vals, fuel: nat, m: Machine)
    returns (n: nat)
    requires Ready(s.w, m, vals) && Linked(s, m.objs)
    requires LaidE(e, names, s.fns, CodeOf(s.w, m), m.ip) && SoundE(e)
    ensures AfterS(s.w, m, StepN(s.w, m, n), Perform(s.p, e, names, vals, m.out, fuel), SizeE(e), 1, |vals|, n, fuel)
    decreases fuel, e, 4
  {
    hide StepN, Moved, Reached, Overlay, Newest, Linked, Ready, Operands, LaidE, SoundE, SizeE, RunBody, EvalE;
    if e.Paren? {
      ParenParts(e, names, s.fns, CodeOf(s.w, m), m.ip);
      n := SimPerform(s, e.e, names, vals, fuel, m);
    } else if !e.Call? {
      n := SimE(s, e, names, vals, fuel, m);
      Leftover(s.w, m, StepN(s.w, m, n), EvalE(s.p, e, names, vals, m.out, fuel), SizeE(e), vals, n, fuel);
    } else {
      var b := Operands(s.p, e, names, vals, m.out, fuel);
      var r := if b.LStop? then SStop(b.r) else if fuel == 0 then SStop(Timeout)
        else RunBody(s.p, b.vs[0], b.vs[1..], b.out, fuel - 1);
      n := SimCalling(s, e, names, vals, fuel, m, b, r);
      if b.Vs? && !r.SStop? && !Spent(StepN(s.w, m, n)) {
        BackReached(s.w, m, StepN(s.w, m, n), SizeE(e), b.vals, r, n, fuel);
      }
    }
  }

  lemma ParenParts(e: Expr, names: seq<Name>, fns: Fns, ch: Chunk, pc: nat)
    requires e.Paren? && LaidE(e, names, fns, ch, pc) && SoundE(e)
    ensures LaidE(e.e, names, fns, ch, pc) && SoundE(e.e) && SizeE(e) == SizeE(e.e)
  {
  }

  lemma BackReached(w: World, m: Machine, m': Machine, bytes: nat, vals: Vals, r: SR, n: nat, fuel: nat)
    requires |m.frames| > 0 && !r.SStop? && CalledBack(w, m, m', bytes, vals, r, n, fuel)
    ensures Reached(w, m, m', bytes, 1, vals, r.out)
  {
    var v :| Moved(w, m, m', bytes, vals, [v], r.out);
    MovedReached(w, m, m', bytes, vals, [v], r.out);
  }

  /** From OP_CALL to the return of the callee. */
  lemma {:induction false} SimInvoke(s: Setting, f: Element, vs: seq<Element>, vals: Vals, out: Output, fuel: nat,
                                     m: Machine, m1: Machine, bytes: nat) returns (n: nat)
    requires |m.frames| > 0 && s.w.limit <= 256 && Linked(s, m.objs)
    requires Moved(s.w, m, m1, bytes, vals, [f] + vs, out)
    requires At2(CodeOf(s.w, m), m.ip + bytes, OP_CALL, |vs|)
    ensures var m' := StepN(s.w, m1, n);
            Spent(m') || CalledBack(s.w, m, m', bytes + 2, vals, RunBody(s.p, f, vs, out, fuel), n, fuel + 1)
    decreases fuel
  {
    hide Step, StepN, Linked, ExecD, LaidD, SoundD, SizeD, Declared;
    var below := Overlay(m.stack, Base(m), vals);
    assert m1.stack == below + [f] + vs;
    n := 1;
    First(s.w, m1);
    if !f.Closure? {
      StepCallFails(s.w, m1, f, vs, below);
    } else if f.fn < |s.p.defs| {
      LinkedFn(s, m.objs, f.fn);
      if |s.p.defs[f.fn].params| != |vs| {
        StepCallFails(s.w, m1, f, vs, below);
      } else {
        n := SimBody(s, f.fn, vs, below, fuel, m1);
        Resume(s.w, m, m1, StepN(s.w, m1, n), [f] + vs, vals, out, RunBody(s.p, f, vs, out, fuel), bytes, n, fuel + 1);
      }
    }
  }

  /** The caller goes on: its frame, objects and cells below the callee are as they were, and
      `v` has replaced callee and arguments. */
  predicate Resumed(m: Machine, m': Machine, below: seq<Element>, v: Element, out: Output) {
    && m'.status == Running && m'.frames == m.frames && m'.objs == m.objs && m'.ip == m.ip + 2
    && m'.out == out && m'.stack == below + [v]
  }

  /** As `CalledBack`, from OP_CALL. */
  ghost predicate BodyEnds(m: Machine, m': Machine, below: seq<Element>, r: SR, n: nat, fuel: nat) {
    match r
    case Ret(v, out) => Resumed(m, m', below, v, out)
    case Norm(_, out) => exists v :: Resumed(m, m', below, v, out)
    case Void(out) => exists v :: Resumed(m, m', below, v, out)
    case SStop(e) => Ended(m', e, n, fuel)
  }

  /** The callee's run, from OP_CALL to its return: `return e;`, `return;`, or the OP_RETURN
      after its body. */
  lemma {:induction false} SimBody(s: Setting, f: nat, vs: seq<Element>, below: seq<Element>, fuel: nat, m: Machine)
    returns (n: nat)
    requires m.status == Running && |m.frames| > 0 && Linked(s, m.objs)
    requires m.stack == below + [Closure(f)] + vs && |m.stack| <= s.w.limit <= 256
    requires At2(CodeOf(s.w, m), m.ip, OP_CALL, |vs|)
    requires f < |s.p.defs| && |s.p.defs[f].params| == |vs|
    ensures var m' := StepN(s.w, m, n);
            Spent(m') || BodyEnds(m, m', below, ExecD(s.p, s.p.defs[f].body, s.p.defs[f].params, vs, m.out, fuel), n,
              fuel + 1)
    decreases fuel, s.p.defs[f].body, 2
  {
    hide Step, StepN, Linked, ExecD, LaidD, SoundD, SizeD, Declared, Reached, BodyEnds, Returned;
    var d := s.p.defs[f];
    LinkedFn(s, m.objs, f);
    n := 1;
    First(s.w, m);
    StepCallEnters(s.w, m, f, vs, below);
    var m2 := Step(s.w, m);
    if m2.status != FramesFull {
      ParamsLoad(s.w, m2, vs, |vs|);
      var m3 := StepN(s.w, m2, |vs|);
      assert m3.stack[..|below|] == below;
      assert m3.stack[|below|..|below| + |vs|] == vs;
      var r := ExecD(s.p, d.body, d.params, vs, m.out, fuel);
      var n2 := SimD(s, d.body, d.params, vs, fuel, m3, 0);
      if r.Norm? && !Spent(StepN(s.w, m3, n2)) {
        StepReturnAny(s.w, m3, n2, SizeD(d.body), LeavesD(d.body) + |Declared(d.body)|, r.vals, r.out);
        n2 := n2 + 1;
      }
      StepNAdd(s.w, m2, |vs|, n2);
      StepNAdd(s.w, m, 1, |vs| + n2);
      n := 1 + |vs| + n2;
      Leaving(m, m2, m3, StepN(s.w, m, n), f, below, r, n, n2, fuel);
    }
  }

  /** A callee's return, seen from its caller. */
  lemma Leaving(m: Machine, m2: Machine, m3: Machine, m': Machine, f: nat, below: seq<Element>, r: SR, n: nat, n2: nat,
                fuel: nat)
    requires |m.frames| > 0 && n2 < n
    requires m2.frames == m.frames + [Frame(f, m.ip + 2, |below|, |below| % 256)] && m3.frames == m2.frames
    requires m3.objs == m.objs && |below| <= |m3.stack| && m3.stack[..|below|] == below
    requires
      || Spent(m')
      || (match r
          case Ret(v, out) => Returned(m3, m', v, out)
          case Norm(_, out) => ReturnedAny(m3, m', out)
          case Void(out) => ReturnedAny(m3, m', out)
          case SStop(e) => Ended(m', e, n2, fuel))
    ensures Spent(m') || BodyEnds(m, m', below, r, n, fuel + 1)
  {
    forall v, out | Returned(m3, m', v, out) ensures Resumed(m, m', below, v, out) {
      assert m3.frames[..|m3.frames| - 1] == m.frames;
    }
  }

  lemma Resume(w: World, m: Machine, m1: Machine, m2: Machine, cells: seq<Element>, vals: Vals, out: Output, r: SR,
               bytes: nat, n: nat, fuel: nat)
    requires |m.frames| > 0 && cells != [] && Moved(w, m, m1, bytes, vals, cells, out)
    requires Spent(m2) || BodyEnds(m1, m2, Overlay(m.stack, Base(m), vals), r, n, fuel)
    ensures Spent(m2) || CalledBack(w, m, m2, bytes + 2, vals, r, n, fuel)
  {
    forall v, o | Resumed(m1, m2, Overlay(m.stack, Base(m), vals), v, o) ensures Moved(w, m, m2, bytes + 2, vals, [v],
      o) {
    }
  }

  // ------------------------------------------------------------- statements

  lemma {:induction false} SimS(s: Setting, t: Stmt, names: seq<Name>, vals: Vals, fuel: nat, m: Machine, nc: nat)
    returns (n: nat)
    requires Ready(s.w, m, vals) && Linked(s, m.objs) && |names| == |vals|
    requires LaidS(t, names, s.fns, CodeOf(s.w, m), m.ip, nc) && SoundS(t, CodeOf(s.w, m), m.ip, nc)
    ensures AfterS(s.w, m, StepN(s.w, m, n), Exec(s.p, t, names, vals, m.out, fuel), SizeS(t), Leaves(t), |vals|, n,
            fuel)
    decreases fuel, t, 6
  {
    hide *;
    match t
    case Eval(_) => n := SimEval(s, t, names, vals, fuel, m, nc);
    case Pout(_) => n := SimPrint(s, t, names, vals, fuel, m, nc);
    case Return(_) => n := SimReturn(s, t, names, vals, fuel, m, nc);
    case Back => n := SimBack(s, t, names, vals, fuel, m, nc);
    case If(_, _, _) => n := SimIf(s, t, names, vals, fuel, m, nc);
    case While(_, _) => n := SimWhile(s, t, names, vals, fuel, m, nc);
    case For(_, _, _, _) => n := SimFor(s, t, names, vals, fuel, m, nc);
    case Block(_) => n := SimBlock(s, t, names, vals, fuel, m, nc);
  }

  lemma {:induction false} SimEval(s: Setting, t: Stmt, names: seq<Name>, vals: Vals, fuel: nat, m: Machine, nc: nat)
    returns (n: nat)
    requires t.Eval?
    requires Ready(s.w, m, vals) && Linked(s, m.objs) && |names| == |vals|
    requires LaidS(t, names, s.fns, CodeOf(s.w, m), m.ip, nc) && SoundS(t, CodeOf(s.w, m), m.ip, nc)
    ensures AfterS(s.w, m, StepN(s.w, m, n), Exec(s.p, t, names, vals, m.out, fuel), SizeS(t), Leaves(t), |vals|, n,
            fuel)
    decreases fuel, t, 3
  {
    hide StepN, AfterS, Linked, Ready, Perform, LaidE, SoundE, SizeE;
    n := SimPerform(s, t.e, names, vals, fuel, m);
  }

  lemma {:induction false} SimPrint(s: Setting, t: Stmt, names: seq<Name>, vals: Vals, fuel: nat, m: Machine, nc: nat)
    returns (n: nat)
    requires t.Pout?
    requires Ready(s.w, m, vals) && Linked(s, m.objs) && |names| == |vals|
    requires LaidS(t, names, s.fns, CodeOf(s.w, m), m.ip, nc) && SoundS(t, CodeOf(s.w, m), m.ip, nc)
    ensures AfterS(s.w, m, StepN(s.w, m, n), Exec(s.p, t, names, vals, m.out, fuel), SizeS(t), Leaves(t), |vals|, n,
            fuel)
    decreases fuel, t, 3
  {
    hide StepN, AfterS, Linked, Ready, ExecPout, LaidPout, SoundArgs, SizePout;
    n := SimPout(s, t.es, names, vals, fuel, m);
  }

  lemma {:induction false} SimReturn(s: Setting, t: Stmt, names: seq<Name>, vals: Vals, fuel: nat, m: Machine, nc: nat)
    returns (n: nat)
    requires t.Return?
    requires Ready(s.w, m, vals) && Linked(s, m.objs) && |names| == |vals|
    requires LaidS(t, names, s.fns, CodeOf(s.w, m), m.ip, nc) && SoundS(t, CodeOf(s.w, m), m.ip, nc)
    ensures AfterS(s.w, m, StepN(s.w, m, n), Exec(s.p, t, names, vals, m.out, fuel), SizeS(t), Leaves(t), |vals|, n,
            fuel)
    decreases fuel, t, 3
  {
    hide StepN, Moved, Reached, Overlay, Newest, Linked, Ready, EvalE, LaidE, SoundE, SizeE;
    var a := EvalE(s.p, t.e, names, vals, m.out, fuel);
    n := SimE(s, t.e, names, vals, fuel, m);
    if a.Val? && !Spent(StepN(s.w, m, n)) {
      FrameFacts(s.w, m, vals);
      StepReturnValue(s.w, m, n, SizeE(t.e), a.vals, a.v, a.out);
      n := n + 1;
    }
  }

  /** `return;` */
  lemma SimBack(s: Setting, t: Stmt, names: seq<Name>, vals: Vals, fuel: nat, m: Machine, nc: nat) returns (n: nat)
    requires t.Back?
    requires Ready(s.w, m, vals) && LaidS(t, names, s.fns, CodeOf(s.w, m), m.ip, nc)
    ensures AfterS(s.w, m, StepN(s.w, m, n), Exec(s.p, t, names, vals, m.out, fuel), SizeS(t), Leaves(t), |vals|, n,
            fuel)
  {
    hide StepN, Reached, Ready;
    First(s.w, m);
    StartS(s.w, m, vals);
    FrameFacts(s.w, m, vals);
    StepReturnAny(s.w, m, 0, 0, 0, vals, m.out);
    n := 1;
  }

  lemma {:induction false} SimBlock(s: Setting, t: Stmt, names: seq<Name>, vals: Vals, fuel: nat, m: Machine, nc: nat)
    returns (n: nat)
    requires t.Block?
    requires Ready(s.w, m, vals) && Linked(s, m.objs) && |names| == |vals|
    requires LaidS(t, names, s.fns, CodeOf(s.w, m), m.ip, nc) && SoundS(t, CodeOf(s.w, m), m.ip, nc)
    ensures AfterS(s.w, m, StepN(s.w, m, n), Exec(s.p, t, names, vals, m.out, fuel), SizeS(t), Leaves(t), |vals|, n,
            fuel)
    decreases fuel, t, 3
  {
    hide StepN, AfterS, Linked, Ready, ExecD, LaidD, SoundD, SizeD, Declared, Leave, LaidPops, PopsFit, SizePops;
    n := SimD(s, t.ds, names, vals, fuel, m, nc);
    n := SimLeave(s.w, m, n, SizeD(t.ds), LeavesD(t.ds), vals, |Declared(t.ds)|,
      ExecD(s.p, t.ds, names, vals, m.out, fuel), fuel);
  }

  /** The end of a scope. */
  lemma SimLeave(w: World, m: Machine, n0: nat, bytes: nat, up: nat, vals: Vals, k: nat, r: SR, fuel: nat)
    returns (n: nat)
    requires |m.frames| > 0
    requires AfterS(w, m, StepN(w, m, n0), r, bytes, up + k, |vals| + k, n0, fuel)
    requires LaidPops(k, CodeOf(w, m), m.ip + bytes) && PopsFit(k, CodeOf(w, m))
    ensures n >= n0
    ensures AfterS(w, m, StepN(w, m, n), Leave(|vals|, r), bytes + SizePops(k), up, |vals|, n, fuel)
  {
    hide StepN, LaidPops, PopsFit;
    n := n0;
    if r.Norm? && !Spent(StepN(w, m, n)) {
      if k > 0 {
        StepPops(w, m, n, bytes, up + k, r.vals, r.out, k);
        n := n + 1;
      } else {
        assert r.vals[..|vals|] == r.vals;
      }
    }
  }

  lemma {:induction false} SimPout(s: Setting, es: Exprs, names: seq<Name>, vals: Vals, fuel: nat, m: Machine)
    returns (n: nat)
    requires Ready(s.w, m, vals) && Linked(s, m.objs)
    requires LaidPout(es, names, s.fns, CodeOf(s.w, m), m.ip) && SoundArgs(es)
    ensures AfterS(s.w, m, StepN(s.w, m, n), ExecPout(s.p, es, names, vals, m.out, fuel), SizePout(es), 0, |vals|, n,
            fuel)
    decreases fuel, es, 0
  {
    hide StepN, Moved, Reached, Overlay, Newest, Linked, Ready, EvalE, LaidE, SoundE, SizeE;
    n := 0;
    First(s.w, m);
    match es
    case Nil => StartS(s.w, m, vals);
    case Cons(e, t) =>
      var a := EvalE(s.p, e, names, vals, m.out, fuel);
      n := SimE(s, e, names, vals, fuel, m);
      if a.Val? && !Spent(StepN(s.w, m, n)) {
        StepPrint(s.w, m, n, SizeE(e), a.vals, a.v, a.out);
        n := n + 1;
        var m1 := StepN(s.w, m, n);
        ReachedReady(s.w, m, m1, SizeE(e) + 1, 0, vals, a.vals, a.out + [a.v]);
        var n2 := SimPout(s, t, names, a.vals, fuel, m1);
        ChainS(s.w, m, n, n2, ExecPout(s.p, t, names, a.vals, a.out + [a.v], fuel), SizeE(e) + 1, SizePout(t), 0, 0, 0,
          a.vals, a.out + [a.v], |vals|, fuel, fuel);
        n := n + n2;
      }
  }

  /** A condition and its OP_JMPF. */
  lemma {:induction false} SimTest(s: Setting, c: Expr, names: seq<Name>, vals: Vals, fuel: nat, m: Machine, d: nat,
                                   a: ER) returns (n: nat)
    requires Ready(s.w, m, vals) && Linked(s, m.objs)
    requires LaidE(c, names, s.fns, CodeOf(s.w, m), m.ip) && SoundE(c)
    requires At3(CodeOf(s.w, m), m.ip + SizeE(c), OP_JMPF, d) && d < 256
    requires a == EvalE(s.p, c, names, vals, m.out, fuel)
    ensures
      var m' := StepN(s.w, m, n);
      || Spent(m')
      || (if !a.Val? then Ended(m', a, n, fuel)
          else if !a.v.Bool? then true
          else |a.vals| == |vals| && n > 0 && Reached(s.w, m, m', SizeE(c) + 3 + (if a.v.truth then 0 else d), 0,
            a.vals, a.out))
    decreases fuel, c, 4
  {
    hide StepN, Moved, Reached, Overlay, Newest, Linked, Ready, EvalE, LaidE, SoundE, SizeE;
    n := SimE(s, c, names, vals, fuel, m);
    if a.Val? && !Spent(StepN(s.w, m, n)) && a.v.Bool? {
      StepJmpF(s.w, m, n, SizeE(c), a.vals, a.v, a.out, d);
      n := n + 1;
    }
  }

  lemma {:induction false} SimIf(s: Setting, t: Stmt, names: seq<Name>, vals: Vals, fuel: nat, m: Machine, nc: nat)
    returns (n: nat)
    requires t.If?
    requires Ready(s.w, m, vals) && Linked(s, m.objs) && |names| == |vals|
    requires LaidS(t, names, s.fns, CodeOf(s.w, m), m.ip, nc) && SoundS(t, CodeOf(s.w, m), m.ip, nc)
    ensures AfterS(s.w, m, StepN(s.w, m, n), Exec(s.p, t, names, vals, m.out, fuel), SizeS(t), Leaves(t), |vals|, n,
            fuel)
    decreases fuel, t, 1
  {
    hide StepN, Moved, Reached, Overlay, Newest, Linked, Ready, EvalE, LaidE, SoundE, SizeE, LaidArms, SoundArms,
         ExecArms, SizeArms;
    var a := EvalE(s.p, t.c, names, vals, m.out, fuel);
    n := SimTest(s, t.c, names, vals, fuel, m, SizeS(t.then_) + 3, a);
    var m1 := StepN(s.w, m, n);
    if a.Val? && a.v.Bool? && !Spent(m1) {
      if a.v.truth {
        ReachedReady(s.w, m, m1, SizeE(t.c) + 3, 0, vals, a.vals, a.out);
        n := SimThen(s, t, names, a.vals, fuel, m, nc, n, a.out);
      } else {
        var b := SizeE(t.c) + 3 + SizeS(t.then_) + 3;
        ReachedReady(s.w, m, m1, b, 0, vals, a.vals, a.out);
        var n2 := SimArms(s, t.arms, names, a.vals, fuel, m1, nc + IfsS(t.then_), m1.ip + SizeArms(t.arms));
        ChainS(s.w, m, n, n2, ExecArms(s.p, t.arms, names, a.vals, a.out, fuel), b, SizeArms(t.arms), 0,
          LeavesArms(t.arms), Leaves(t), a.vals, a.out, |vals|, fuel, fuel);
        n := n + n2;
      }
    }
  }

  /** The first arm, and the jump over the others. */
  lemma {:induction false} SimThen(s: Setting, t: Stmt, names: seq<Name>, vals: Vals, fuel: nat, m: Machine, nc: nat,
                                   n1: nat, out: Output) returns (n: nat)
    requires t.If? && |m.frames| > 0 && Linked(s, m.objs) && |names| == |vals|
    requires LaidS(t, names, s.fns, CodeOf(s.w, m), m.ip, nc) && SoundS(t, CodeOf(s.w, m), m.ip, nc)
    requires Reached(s.w, m, StepN(s.w, m, n1), SizeE(t.c) + 3, 0, vals, out) && Ready(s.w, StepN(s.w, m, n1), vals)
    ensures AfterS(s.w, m, StepN(s.w, m, n), Exec(s.p, t.then_, names, vals, out, fuel), SizeS(t), Leaves(t), |vals|, n,
            fuel)
    decreases fuel, t, 0
  {
    hide StepN, Moved, Reached, Overlay, Newest, Linked, Ready, EvalE, LaidE, SoundE, SizeE, LaidArms, SoundArms,
         ExecArms, SizeArms, Exec;
    var m1 := StepN(s.w, m, n1);
    var b := SizeE(t.c) + 3;
    ReachedFacts(s.w, m, m1, b, 0, vals, out);
    var n2 := SimS(s, t.then_, names, vals, fuel, m1, nc);
    var r := Exec(s.p, t.then_, names, vals, out, fuel);
    ChainS(s.w, m, n1, n2, r, b, SizeS(t.then_), 0, Leaves(t.then_), Leaves(t), vals, out, |vals|, fuel, fuel);
    n := n1 + n2;
    if r.Norm? && !Spent(StepN(s.w, m, n)) {
      StepJmp(s.w, m, n, b + SizeS(t.then_), Leaves(t), r.vals, r.out, SizeArms(t.arms));
      n := n + 1;
    }
  }

  lemma {:induction false} SimArms(s: Setting, t: Arms, names: seq<Name>, vals: Vals, fuel: nat, m: Machine, nc: nat,
                                   end: nat) returns (n: nat)
    requires Ready(s.w, m, vals) && Linked(s, m.objs) && |names| == |vals|
    requires LaidArms(t, names, s.fns, CodeOf(s.w, m), m.ip, nc) && SoundArms(t, CodeOf(s.w, m), m.ip, nc, end)
    requires end == m.ip + SizeArms(t)
    ensures AfterS(s.w, m, StepN(s.w, m, n), ExecArms(s.p, t, names, vals, m.out, fuel), SizeArms(t), LeavesArms(t),
            |vals|, n, fuel)
    decreases fuel, t, 1
  {
    hide StepN, Moved, Reached, Overlay, Newest, Linked, Ready, EvalE, LaidE, SoundE, SizeE, LaidS, SoundS, Exec, SizeS,
         IfsS;
    n := 0;
    First(s.w, m);
    match t
    case End => StartS(s.w, m, vals);
    case Else(b) => n := SimS(s, b, names, vals, fuel, m, nc);
    case Elif(c, b, rest) =>
      var a := EvalE(s.p, c, names, vals, m.out, fuel);
      n := SimTest(s, c, names, vals, fuel, m, SizeS(b) + 3, a);
      var m1 := StepN(s.w, m, n);
      if a.Val? && a.v.Bool? && !Spent(m1) {
        if a.v.truth {
          ReachedReady(s.w, m, m1, SizeE(c) + 3, 0, vals, a.vals, a.out);
          n := SimArm(s, t, names, a.vals, fuel, m, nc, n, a.out, end);
        } else {
          var k := SizeE(c) + 3 + SizeS(b) + 3;
          ReachedReady(s.w, m, m1, k, 0, vals, a.vals, a.out);
          var n2 := SimArms(s, rest, names, a.vals, fuel, m1, nc + IfsS(b), end);
          ChainS(s.w, m, n, n2, ExecArms(s.p, rest, names, a.vals, a.out, fuel), k, SizeArms(rest), 0, LeavesArms(rest),
            LeavesArms(t), a.vals, a.out, |vals|, fuel, fuel);
          n := n + n2;
        }
      }
  }

  /** An `elif` arm, and the jump through the table. */
  lemma {:induction false} SimArm(s: Setting, t: Arms, names: seq<Name>, vals: Vals, fuel: nat, m: Machine, nc: nat,
                                  n1: nat, out: Output, end: nat) returns (n: nat)
    requires t.Elif? && |m.frames| > 0 && Linked(s, m.objs) && |names| == |vals|
    requires LaidArms(t, names, s.fns, CodeOf(s.w, m), m.ip, nc) && SoundArms(t, CodeOf(s.w, m), m.ip, nc, end)
    requires end >= m.ip
    requires Reached(s.w, m, StepN(s.w, m, n1), SizeE(t.c) + 3, 0, vals, out) && Ready(s.w, StepN(s.w, m, n1), vals)
    ensures AfterS(s.w, m, StepN(s.w, m, n), Exec(s.p, t.s, names, vals, out, fuel), end - m.ip, LeavesArms(t), |vals|,
            n, fuel)
    decreases fuel, t, 0
  {
    hide StepN, Moved, Reached, Overlay, Newest, Linked, Ready, EvalE, LaidE, SoundE, SizeE, LaidS, SoundS, Exec, SizeS,
         IfsS;
    var m1 := StepN(s.w, m, n1);
    var b := SizeE(t.c) + 3;
    ReachedFacts(s.w, m, m1, b, 0, vals, out);
    var n2 := SimS(s, t.s, names, vals, fuel, m1, nc);
    var r := Exec(s.p, t.s, names, vals, out, fuel);
    ChainS(s.w, m, n1, n2, r, b, SizeS(t.s), 0, Leaves(t.s), LeavesArms(t), vals, out, |vals|, fuel, fuel);
    n := n1 + n2;
    if r.Norm? && !Spent(StepN(s.w, m, n)) {
      StepJmpL(s.w, m, n, b + SizeS(t.s), LeavesArms(t), r.vals, r.out, nc + IfsS(t.s), end);
      n := n + 1;
    }
  }

  lemma {:induction false} SimD(s: Setting, ds: Decls, names: seq<Name>, vals: Vals, fuel: nat, m: Machine, nc: nat)
    returns (n: nat)
    requires Ready(s.w, m, vals) && Linked(s, m.objs) && |names| == |vals|
    requires LaidD(ds, names, s.fns, CodeOf(s.w, m), m.ip, nc) && SoundD(ds, CodeOf(s.w, m), m.ip, nc)
    ensures AfterS(s.w, m, StepN(s.w, m, n), ExecD(s.p, ds, names, vals, m.out, fuel), SizeD(ds),
            LeavesD(ds) + |Declared(ds)|, |vals| + |Declared(ds)|, n, fuel)
    decreases fuel, ds, 1
  {
    hide *;
    match ds
    case Done => n := SimDone(s, ds, names, vals, fuel, m, nc);
    case Then(Var(_, _), _) => n := SimVar(s, ds, names, vals, fuel, m, nc);
    case Then(Do(_), _) => n := SimDo(s, ds, names, vals, fuel, m, nc);
  }

  lemma SimDone(s: Setting, ds: Decls, names: seq<Name>, vals: Vals, fuel: nat, m: Machine, nc: nat) returns (n: nat)
    requires ds.Done?
    requires Ready(s.w, m, vals) && Linked(s, m.objs) && |names| == |vals|
    requires LaidD(ds, names, s.fns, CodeOf(s.w, m), m.ip, nc) && SoundD(ds, CodeOf(s.w, m), m.ip, nc)
    ensures AfterS(s.w, m, StepN(s.w, m, n), ExecD(s.p, ds, names, vals, m.out, fuel), SizeD(ds),
            LeavesD(ds) + |Declared(ds)|, |vals| + |Declared(ds)|, n, fuel)
  {
    hide StepN, Reached, Ready;
    n := 0;
    First(s.w, m);
    StartS(s.w, m, vals);
  }

  lemma {:induction false} SimVar(s: Setting, ds: Decls, names: seq<Name>, vals: Vals, fuel: nat, m: Machine, nc: nat)
    returns (n: nat)
    requires ds.Then? && ds.d.Var?
    requires Ready(s.w, m, vals) && Linked(s, m.objs) && |names| == |vals|
    requires LaidD(ds, names, s.fns, CodeOf(s.w, m), m.ip, nc) && SoundD(ds, CodeOf(s.w, m), m.ip, nc)
    ensures AfterS(s.w, m, StepN(s.w, m, n), ExecD(s.p, ds, names, vals, m.out, fuel), SizeD(ds),
            LeavesD(ds) + |Declared(ds)|, |vals| + |Declared(ds)|, n, fuel)
    decreases fuel, ds, 0
  {
    hide StepN, Moved, Reached, Overlay, Newest, Linked, Ready, EvalE, LaidE, SoundE, SizeE, LaidS, SoundS, Exec, SizeS,
         IfsS, Leaves;
    var x, e, t := ds.d.x, ds.d.e, ds.rest;
    var a := EvalE(s.p, e, names + [x], vals, m.out, fuel);
    n := SimE(s, e, names + [x], vals, fuel, m);
    if a.Val? && !Spent(StepN(s.w, m, n)) {
      StepDeclare(s.w, m, n, SizeE(e), a.vals, a.v, a.out);
      n := n + 1;
      var m1 := StepN(s.w, m, n);
      ReachedReady(s.w, m, m1, SizeE(e) + 2, 1, vals, a.vals + [a.v], a.out);
      var n2 := SimD(s, t, names + [x], a.vals + [a.v], fuel, m1, nc);
      ChainS(s.w, m, n, n2, ExecD(s.p, t, names + [x], a.vals + [a.v], a.out, fuel), SizeE(e) + 2, SizeD(t),
             1, LeavesD(t) + |Declared(t)|, LeavesD(ds) + |Declared(ds)|, a.vals + [a.v], a.out,
               |vals| + |Declared(ds)|, fuel, fuel);
      n := n + n2;
    }
  }

  lemma {:induction false} SimDo(s: Setting, ds: Decls, names: seq<Name>, vals: Vals, fuel: nat, m: Machine, nc: nat)
    returns (n: nat)
    requires ds.Then? && ds.d.Do?
    requires Ready(s.w, m, vals) && Linked(s, m.objs) && |names| == |vals|
    requires LaidD(ds, names, s.fns, CodeOf(s.w, m), m.ip, nc) && SoundD(ds, CodeOf(s.w, m), m.ip, nc)
    ensures AfterS(s.w, m, StepN(s.w, m, n), ExecD(s.p, ds, names, vals, m.out, fuel), SizeD(ds),
            LeavesD(ds) + |Declared(ds)|, |vals| + |Declared(ds)|, n, fuel)
    decreases fuel, ds, 0
  {
    hide StepN, Moved, Reached, Overlay, Newest, Linked, Ready, EvalE, LaidE, SoundE, SizeE, LaidS, SoundS, Exec, SizeS,
         IfsS, Leaves;
    var b, t := ds.d.s, ds.rest;
    var r := Exec(s.p, b, names, vals, m.out, fuel);
    n := SimS(s, b, names, vals, fuel, m, nc);
    var m1 := StepN(s.w, m, n);
    if r.Norm? && !Spent(m1) {
      ReachedReady(s.w, m, m1, SizeS(b), Leaves(b), vals, r.vals, r.out);
      var n2 := SimD(s, t, names, r.vals, fuel, m1, nc + IfsS(b));
      ChainS(s.w, m, n, n2, ExecD(s.p, t, names, r.vals, r.out, fuel), SizeS(b), SizeD(t),
             Leaves(b), LeavesD(t) + |Declared(t)|, LeavesD(ds) + |Declared(ds)|, r.vals, r.out,
               |vals| + |Declared(ds)|, fuel, fuel);
      n := n + n2;
    }
  }

  // ------------------------------------------------------------------ loops

  /** The parts of a loop, with `pc` the address of its condition. */
  predicate LaidLoop(t: Stmt, names: seq<Name>, fns: Fns, ch: Chunk, pc: nat, nc: nat)
    requires IsLoop(t)
  {
    var c, i := SizeCond(LoopCond(t)), SizeInc(LoopInc(t));
    && LaidCond(LoopCond(t), names, fns, ch, pc, i + SizeS(t.body) + 3)
    && LaidInc(LoopInc(t), names, fns, ch, pc + c, c)
    && LaidS(t.body, names, fns, ch, pc + c + i, nc)
    && At3(ch, pc + c + i + SizeS(t.body), OP_LOOP, BackFor(LoopCond(t), LoopInc(t), t.body))
    && SoundOpt(LoopCond(t)) && SoundOpt(LoopInc(t))
    && SoundS(t.body, ch, pc + c + i, nc)
    && c + i + SizeS(t.body) + 3 < 256
  }

  function LoopBytes(t: Stmt): nat
    requires IsLoop(t)
  {
    SizeCond(LoopCond(t)) + SizeInc(LoopInc(t)) + SizeS(t.body) + 3
  }

  lemma {:induction false} SimLoop(s: Setting, t: Stmt, names: seq<Name>, vals: Vals, fuel: nat, m: Machine, nc: nat)
    returns (n: nat)
    requires IsLoop(t)
    requires Ready(s.w, m, vals) && Linked(s, m.objs) && |names| == |vals|
    requires LaidLoop(t, names, s.fns, CodeOf(s.w, m), m.ip, nc)
    ensures AfterS(s.w, m, StepN(s.w, m, n), ExecLoop(s.p, t, names, vals, m.out, fuel), LoopBytes(t), 0, |vals|, n,
            fuel)
    decreases fuel, t, 2
  {
    hide StepN, Moved, Reached, Overlay, Newest, Linked, Ready, EvalE, LaidE, SoundE, SizeE, LaidS, SoundS, Exec, SizeS,
         IfsS;
    var c, i := SizeCond(LoopCond(t)), SizeInc(LoopInc(t));
    var a := if LoopCond(t).SomeExpr? then EvalE(s.p, LoopCond(t).e, names, vals, m.out, fuel)
      else Val(Bool(true), vals, m.out);
    n := SimCond(s, t, names, vals, fuel, m, nc, a);
    if a.Val? && a.v.Bool? && a.v.truth && !Spent(StepN(s.w, m, n)) {
      n := SkipInc(s, t, names, a.vals, m, nc, n, a.out);
      var m1 := StepN(s.w, m, n);
      ReachedReady(s.w, m, m1, c + i, 0, vals, a.vals, a.out);
      var r := Exec(s.p, t.body, names, a.vals, a.out, fuel);
      var n2 := SimS(s, t.body, names, a.vals, fuel, m1, nc);
      ChainS(s.w, m, n, n2, r, c + i, SizeS(t.body), 0, Leaves(t.body), 0, a.vals, a.out, |vals|, fuel, fuel);
      n := n + n2;
      if r.Norm? && !Spent(StepN(s.w, m, n)) {
        n := SimNext(s, t, names, vals, fuel, m, nc, n, r.vals, r.out);
      }
    }
  }

  /** The condition of a loop: into the loop, or past it. */
  lemma {:induction false} SimCond(s: Setting, t: Stmt, names: seq<Name>, vals: Vals, fuel: nat, m: Machine, nc: nat,
                                   a: ER) returns (n: nat)
    requires IsLoop(t)
    requires Ready(s.w, m, vals) && Linked(s, m.objs)
    requires LaidLoop(t, names, s.fns, CodeOf(s.w, m), m.ip, nc)
    requires a == if LoopCond(t).SomeExpr? then EvalE(s.p, LoopCond(t).e, names, vals, m.out, fuel)
             else Val(Bool(true), vals, m.out)
    ensures
      var m' := StepN(s.w, m, n);
      || Spent(m')
      || (if !a.Val? then Ended(m', a, n, fuel)
          else if !a.v.Bool? then true
          else |a.vals| == |vals| && Reached(s.w, m, m', if a.v.truth then SizeCond(LoopCond(t))
            else LoopBytes(t), 0, a.vals, a.out))
    decreases fuel, t, 0
  {
    hide StepN, Moved, Reached, Overlay, Newest, Linked, Ready, EvalE, LaidE, SoundE, SizeE, LaidS, SoundS, SizeS;
    n := 0;
    First(s.w, m);
    if LoopCond(t).SomeExpr? {
      n := SimTest(s, LoopCond(t).e, names, vals, fuel, m, SizeInc(LoopInc(t)) + SizeS(t.body) + 3, a);
    } else {
      StartS(s.w, m, vals);
    }
  }

  /** The jump over the increment. */
  lemma SkipInc(s: Setting, t: Stmt, names: seq<Name>, vals: Vals, m: Machine, nc: nat, n0: nat, out: Output)
    returns (n: nat)
    requires IsLoop(t) && |m.frames| > 0
    requires LaidLoop(t, names, s.fns, CodeOf(s.w, m), m.ip, nc)
    requires Reached(s.w, m, StepN(s.w, m, n0), SizeCond(LoopCond(t)), 0, vals, out)
    ensures n >= n0
    ensures Reached(s.w, m, StepN(s.w, m, n), SizeCond(LoopCond(t)) + SizeInc(LoopInc(t)), 0, vals, out)
  {
    hide StepN, Reached, LaidE, SoundE, SizeE, LaidS, SoundS, SizeS;
    n := n0;
    if LoopInc(t).SomeExpr? {
      StepJmp(s.w, m, n, SizeCond(LoopCond(t)), 0, vals, out, SizeE(LoopInc(t).e) + 1 + 3);
      n := n + 1;
    }
  }

  /** From the end of the body: the increment, and the loop again. */
  lemma {:induction false} SimNext(s: Setting, t: Stmt, names: seq<Name>, vals: Vals, fuel: nat, m: Machine, nc: nat,
                                   n0: nat, vals1: Vals, out: Output) returns (n: nat)
    requires IsLoop(t)
    requires Ready(s.w, m, vals) && Linked(s, m.objs) && |names| == |vals| == |vals1|
    requires LaidLoop(t, names, s.fns, CodeOf(s.w, m), m.ip, nc)
    requires Reached(s.w, m, StepN(s.w, m, n0), SizeCond(LoopCond(t)) + SizeInc(LoopInc(t)) + SizeS(t.body), 0, vals1,
             out)
    ensures
      var k := if LoopInc(t).SomeExpr? then Perform(s.p, LoopInc(t).e, names, vals1, out, fuel) else Norm(vals1, out);
      var r := if !k.Norm? then k else if fuel == 0 then SStop(Timeout)
        else ExecLoop(s.p, t, names, k.vals, k.out, fuel - 1);
      AfterS(s.w, m, StepN(s.w, m, n), r, LoopBytes(t), 0, |vals|, n, fuel)
    decreases fuel, t, 1
  {
    hide StepN, Moved, Reached, Overlay, Newest, Linked, Ready, EvalE, ExecLoop, LaidE, SoundE, SizeE, LaidS, SoundS,
         SizeS;
    var k := if LoopInc(t).SomeExpr? then Perform(s.p, LoopInc(t).e, names, vals1, out, fuel) else Norm(vals1, out);
    n := SimAround(s, t, names, vals, fuel, m, nc, n0, vals1, out, k);
    var m1 := StepN(s.w, m, n);
    if k.Norm? && !Spent(m1) {
      ReachedReady(s.w, m, m1, 0, 0, vals, k.vals, k.out);
      if fuel > 0 {
        var n2 := SimLoop(s, t, names, k.vals, fuel - 1, m1, nc);
        ChainS(s.w, m, n, n2, ExecLoop(s.p, t, names, k.vals, k.out, fuel - 1), 0, LoopBytes(t), 0, 0, 0, k.vals, k.out,
          |vals|, fuel, fuel - 1);
        n := n + n2;
      } else {
        RunsOn(s.w, m, m1, k.vals, k.out);
      }
    }
  }

  lemma RunsOn(w: World, m: Machine, m': Machine, vals: Vals, out: Output)
    requires |m.frames| > 0 && Reached(w, m, m', 0, 0, vals, out)
    ensures m'.status == Running
  {
  }

  /** Back to the condition, through the increment if there is one. */
  lemma {:induction false} SimAround(s: Setting, t: Stmt, names: seq<Name>, vals: Vals, fuel: nat, m: Machine, nc: nat,
                                     n0: nat, vals1: Vals, out: Output, k: SR) returns (n: nat)
    requires IsLoop(t)
    requires Ready(s.w, m, vals) && Linked(s, m.objs) && |names| == |vals| == |vals1|
    requires LaidLoop(t, names, s.fns, CodeOf(s.w, m), m.ip, nc)
    requires Reached(s.w, m, StepN(s.w, m, n0), SizeCond(LoopCond(t)) + SizeInc(LoopInc(t)) + SizeS(t.body), 0, vals1,
             out)
    requires k == if LoopInc(t).SomeExpr? then Perform(s.p, LoopInc(t).e, names, vals1, out, fuel) else Norm(vals1, out)
    ensures
      var m' := StepN(s.w, m, n);
      || Spent(m')
      || (if k.Norm? then n > n0 && |k.vals| == |vals| && Reached(s.w, m, m', 0, 0, k.vals, k.out)
          else AfterS(s.w, m, m', k, LoopBytes(t), 0, |vals|, n, fuel))
    decreases fuel, t, 0
  {
    hide StepN, Moved, Reached, Overlay, Newest, Linked, Ready, EvalE, LaidE, SoundE, SizeE, LaidS, SoundS, SizeS;
    var c, i := SizeCond(LoopCond(t)), SizeInc(LoopInc(t));
    StepLoop(s.w, m, n0, c + i + SizeS(t.body), 0, vals1, out, BackFor(LoopCond(t), LoopInc(t), t.body));
    n := n0 + 1;
    if LoopInc(t).SomeExpr? {
      var e := LoopInc(t).e;
      var m1 := StepN(s.w, m, n);
      ReachedReady(s.w, m, m1, c + 3, 0, vals, vals1, out);
      var n2 := SimPerform(s, e, names, vals1, fuel, m1);
      StepNAdd(s.w, m, n, n2);
      if k.Norm? && !Spent(StepN(s.w, m1, n2)) {
        StepPopValue(s.w, m1, n2, SizeE(e), 1, k.vals, k.out);
        var m2 := StepN(s.w, m1, n2 + 1);
        StepNAdd(s.w, m, n, n2 + 1);
        ReachedTrans(s.w, m, m1, m2, c + 3, SizeE(e) + 1, 0, 0, vals1, k.vals, out, k.out);
        StepLoop(s.w, m, n + n2 + 1, c + 3 + SizeE(e) + 1, 0, k.vals, k.out, c + 3 + SizeE(e) + 1 + 3);
        n := n + n2 + 2;
      } else {
        ChainS(s.w, m, n, n2, k, c + 3, SizeE(e), 0, 1, 0, vals1, out, |vals|, fuel, fuel);
        n := n + n2;
      }
    }
  }

  lemma {:induction false} SimWhile(s: Setting, t: Stmt, names: seq<Name>, vals: Vals, fuel: nat, m: Machine, nc: nat)
    returns (n: nat)
    requires t.While?
    requires Ready(s.w, m, vals) && Linked(s, m.objs) && |names| == |vals|
    requires LaidS(t, names, s.fns, CodeOf(s.w, m), m.ip, nc) && SoundS(t, CodeOf(s.w, m), m.ip, nc)
    ensures AfterS(s.w, m, StepN(s.w, m, n), Exec(s.p, t, names, vals, m.out, fuel), SizeS(t), Leaves(t), |vals|, n,
            fuel)
    decreases fuel, t, 5
  {
    hide StepN, Moved, Reached, Overlay, Newest, Linked, Ready, EvalE, ExecLoop, LaidE, SoundE, SizeE;
    n := SimLoop(s, t, names, vals, fuel, m, nc);
  }

  lemma ForParts(t: Stmt, names: seq<Name>, fns: Fns, ch: Chunk, pc: nat, nc: nat)
    requires t.For?
    requires LaidS(t, names, fns, ch, pc, nc) && SoundS(t, ch, pc, nc)
    ensures
      var names' := match t.init case NoVar => names case SomeVar(x, _) => names + [x];
      && LaidLoop(t, names', fns, ch, pc + SizeInit(t.init), nc)
      && (t.init.SomeVar? ==>
            && LaidE(t.init.e, names', fns, ch, pc) && SoundE(t.init.e)
            && At2(ch, pc + SizeE(t.init.e), OP_SET_LOCAL, |names|)
            && LaidPops(1, ch, pc + SizeInit(t.init) + LoopBytes(t)) && PopsFit(1, ch))
    ensures IsLoop(t) && Leaves(t) == 0
    ensures if t.init.NoVar? then SizeInit(t.init) == SizePops(InitCount(t.init)) == 0 else InitCount(t.init) == 1
    ensures SizeS(t) == SizeInit(t.init) + LoopBytes(t) + SizePops(InitCount(t.init))
  {
    hide LaidE, SoundE, SizeE;
  }

  lemma {:induction false} SimFor(s: Setting, t: Stmt, names: seq<Name>, vals: Vals, fuel: nat, m: Machine, nc: nat)
    returns (n: nat)
    requires t.For?
    requires Ready(s.w, m, vals) && Linked(s, m.objs) && |names| == |vals|
    requires LaidS(t, names, s.fns, CodeOf(s.w, m), m.ip, nc) && SoundS(t, CodeOf(s.w, m), m.ip, nc)
    ensures AfterS(s.w, m, StepN(s.w, m, n), Exec(s.p, t, names, vals, m.out, fuel), SizeS(t), Leaves(t), |vals|, n,
            fuel)
    decreases fuel, t, 5
  {
    hide *;
    ForParts(t, names, s.fns, CodeOf(s.w, m), m.ip, nc);
    ForRuns(s.p, t, names, vals, m.out, fuel);
    if t.init.NoVar? {
      n := SimLoop(s, t, names, vals, fuel, m, nc);
    } else {
      var a := EvalE(s.p, t.init.e, names + [t.init.x], vals, m.out, fuel);
      n := SimForVar(s, t, names, vals, fuel, m, nc, a);
    }
  }

  lemma ForRuns(p: Program, t: Stmt, names: seq<Name>, vals: Vals, out: Output, fuel: nat)
    requires t.For?
    ensures t.init.NoVar? ==> Exec(p, t, names, vals, out, fuel) == ExecLoop(p, t, names, vals, out, fuel)
    ensures t.init.SomeVar? ==>
              var a := EvalE(p, t.init.e, names + [t.init.x], vals, out, fuel);
              Exec(p, t, names, vals, out, fuel) ==
                if !a.Val? then SStop(a) else Leave(|vals|,
                  ExecLoop(p, t, names + [t.init.x], a.vals + [a.v], a.out, fuel))
  {
    hide EvalE, ExecLoop;
  }

  /** A `for` with a variable; `a` is the result of its initialiser. */
  lemma {:induction false} SimForVar(s: Setting, t: Stmt, names: seq<Name>, vals: Vals, fuel: nat, m: Machine, nc: nat,
                                     a: ER) returns (n: nat)
    requires t.For? && t.init.SomeVar?
    requires Ready(s.w, m, vals) && Linked(s, m.objs) && |names| == |vals|
    requires LaidLoop(t, names + [t.init.x], s.fns, CodeOf(s.w, m), m.ip + SizeInit(t.init), nc)
    requires LaidE(t.init.e, names + [t.init.x], s.fns, CodeOf(s.w, m), m.ip) && SoundE(t.init.e)
    requires At2(CodeOf(s.w, m), m.ip + SizeE(t.init.e), OP_SET_LOCAL, |names|)
    requires LaidPops(1, CodeOf(s.w, m), m.ip + SizeInit(t.init) + LoopBytes(t)) && PopsFit(1, CodeOf(s.w, m))
    requires a == EvalE(s.p, t.init.e, names + [t.init.x], vals, m.out, fuel)
    ensures
      var r := if !a.Val? then SStop(a) else Leave(|vals|,
        ExecLoop(s.p, t, names + [t.init.x], a.vals + [a.v], a.out, fuel));
      AfterS(s.w, m, StepN(s.w, m, n), r, SizeInit(t.init) + LoopBytes(t) + SizePops(1), 0, |vals|, n, fuel)
    decreases fuel, t, 4
  {
    hide StepN, Moved, Reached, Overlay, Newest, Linked, Ready, EvalE, ExecLoop, LaidE, SoundE, SizeE, LaidLoop,
         LaidPops, PopsFit, LoopBytes, Leave;
    n := SimE(s, t.init.e, names + [t.init.x], vals, fuel, m);
    if a.Val? && !Spent(StepN(s.w, m, n)) {
      StepDeclare(s.w, m, n, SizeE(t.init.e), a.vals, a.v, a.out);
      n := SimForTail(s, t, names + [t.init.x], vals, fuel, m, nc, a.vals + [a.v], a.out, n + 1);
    }
  }

  lemma {:induction false} SimForTail(s: Setting, t: Stmt, names: seq<Name>, vals: Vals, fuel: nat, m: Machine, nc: nat,
                                      vs: Vals, out: Output, n1: nat) returns (n: nat)
    requires t.For? && t.init.SomeVar?
    requires Ready(s.w, m, vals) && Linked(s, m.objs) && |names| == |vs| == |vals| + 1
    requires LaidLoop(t, names, s.fns, CodeOf(s.w, m), m.ip + SizeInit(t.init), nc)
    requires LaidPops(1, CodeOf(s.w, m), m.ip + SizeInit(t.init) + LoopBytes(t)) && PopsFit(1, CodeOf(s.w, m))
    requires Reached(s.w, m, StepN(s.w, m, n1), SizeInit(t.init), 1, vs, out)
    ensures AfterS(s.w, m, StepN(s.w, m, n), Leave(|vals|, ExecLoop(s.p, t, names, vs, out, fuel)),
            SizeInit(t.init) + LoopBytes(t) + SizePops(1), 0, |vals|, n, fuel)
    decreases fuel, t, 3
  {
    hide StepN, Reached, Linked, Ready, ExecLoop, LaidLoop, LaidPops, PopsFit, LoopBytes, Leave, AfterS, SizeInit;
    var m1 := StepN(s.w, m, n1);
    ReachedReady(s.w, m, m1, SizeInit(t.init), 1, vals, vs, out);
    var r := ExecLoop(s.p, t, names, vs, out, fuel);
    var n2 := SimLoop(s, t, names, vs, fuel, m1, nc);
    ChainS(s.w, m, n1, n2, r, SizeInit(t.init), LoopBytes(t), 1, 0, 1, vs, out, |vs|, fuel, fuel);
    n := SimLeave(s.w, m, n1 + n2, SizeInit(t.init) + LoopBytes(t), 0, vals, 1, r, fuel);
  }
}
