/** A `for` is its initialiser followed by a `while`. */
module Loops {
  import opened Values
  import opened Syntax
  import opened Semantics

  // -------------------------------------- the number of variables is kept

  lemma {:induction false} KeptE(p: Program, e: Expr, names: seq<Name>, vals: Vals, out: Output, fuel: nat)
    ensures var r := EvalE(p, e, names, vals, out, fuel); r.Val? ==> |r.vals| == |vals|
    decreases fuel, e, 1
  {
    hide Newest, BinValue, NegValue, BumpValue, Operands, RunBody;
    match e
    case Assign(_, r) => KeptE(p, r, names, vals, out, fuel);
    case Compound(_, _, r) => KeptE(p, r, names, vals, out, fuel);
    case Neg(_, r) => KeptE(p, r, names, vals, out, fuel);
    case Paren(r) => KeptE(p, r, names, vals, out, fuel);
    case Bin(_, l, r) =>
      KeptE(p, l, names, vals, out, fuel);
      var a := EvalE(p, l, names, vals, out, fuel);
      if a.Val? {
        KeptE(p, r, names, a.vals, a.out, fuel);
      }
    case Call(_, _) =>
      var b := Operands(p, e, names, vals, out, fuel);
      KeptOperands(p, e, names, vals, out, fuel);
      if b.Vs? && fuel > 0 {
        KeptBody(p, b.vs[0], b.vs[1..], b.out, fuel - 1);
      }
    case _ =>
  }

  lemma {:induction false} KeptOperands(p: Program, e: Expr, names: seq<Name>, vals: Vals, out: Output, fuel: nat)
    requires e.Call?
    ensures var r := Operands(p, e, names, vals, out, fuel); (r.Vs? ==> |r.vals| == |vals|) && !(r.LStop? && r.r.Val?)
    decreases fuel, e, 0
  {
    hide EvalE, EvalArgs;
    KeptE(p, e.fn, names, vals, out, fuel);
    var a := EvalE(p, e.fn, names, vals, out, fuel);
    if a.Val? {
      KeptArgs(p, e.args, names, a.vals, a.out, fuel);
    }
  }

  lemma {:induction false} KeptBody(p: Program, f: Element, args: seq<Element>, out: Output, fuel: nat)
    ensures var r := RunBody(p, f, args, out, fuel); !(r.SStop? && r.r.Val?)
    decreases fuel
  {
    hide ExecD;
    if f.Closure? && f.fn < |p.defs| && |p.defs[f.fn].params| == |args| {
      KeptD(p, p.defs[f.fn].body, p.defs[f.fn].params, args, out, fuel);
    }
  }

  lemma {:induction false} KeptPerform(p: Program, e: Expr, names: seq<Name>, vals: Vals, out: Output, fuel: nat)
    ensures var r := Perform(p, e, names, vals, out, fuel); (r.Norm? ==> |r.vals| == |vals|) && !(r.SStop? && r.r.Val?)
    decreases fuel, e, 2
  {
    hide EvalE, Operands, RunBody;
    if e.Paren? {
      KeptPerform(p, e.e, names, vals, out, fuel);
    } else if e.Call? {
      var b := Operands(p, e, names, vals, out, fuel);
      KeptOperands(p, e, names, vals, out, fuel);
      if b.Vs? && fuel > 0 {
        KeptBody(p, b.vs[0], b.vs[1..], b.out, fuel - 1);
      }
    } else {
      KeptE(p, e, names, vals, out, fuel);
    }
  }

  /** Where an expression has a value, discarding it changes nothing else. */
  lemma {:induction false} PerformDiscards(p: Program, e: Expr, names: seq<Name>, vals: Vals, out: Output, fuel: nat)
    ensures var r := EvalE(p, e, names, vals, out, fuel);
            && (r != Stray ==> Perform(p, e, names, vals, out, fuel) == Effect(r))
            && (Perform(p, e, names, vals, out, fuel) == SStop(Stray) ==> r == Stray)
  {
    hide Operands, RunBody;
    if e.Paren? {
      PerformDiscards(p, e.e, names, vals, out, fuel);
    } else if e.Call? {
      var b := Operands(p, e, names, vals, out, fuel);
      KeptOperands(p, e, names, vals, out, fuel);
      if b.Vs? && fuel > 0 {
        KeptBody(p, b.vs[0], b.vs[1..], b.out, fuel - 1);
      }
    }
  }

  lemma {:induction false} KeptArgs(p: Program, es: Exprs, names: seq<Name>, vals: Vals, out: Output, fuel: nat)
    ensures var r := EvalArgs(p, es, names, vals, out, fuel); (r.Vs? ==> |r.vals| == |vals|) && !(r.LStop? && r.r.Val?)
    decreases fuel, es, 0
  {
    hide EvalE;
    match es
    case Nil =>
    case Cons(e, t) =>
      var a := EvalE(p, e, names, vals, out, fuel);
      KeptE(p, e, names, vals, out, fuel);
      if a.Val? {
        KeptArgs(p, t, names, a.vals, a.out, fuel);
      }
  }

  lemma {:induction false} KeptPout(p: Program, es: Exprs, names: seq<Name>, vals: Vals, out: Output, fuel: nat)
    ensures var r := ExecPout(p, es, names, vals, out, fuel);
            (r.Norm? ==> |r.vals| == |vals|) && !(r.SStop? && r.r.Val?)
    decreases fuel, es, 0
  {
    hide EvalE;
    match es
    case Nil =>
    case Cons(e, t) =>
      var a := EvalE(p, e, names, vals, out, fuel);
      KeptE(p, e, names, vals, out, fuel);
      if a.Val? {
        KeptPout(p, t, names, a.vals, a.out + [a.v], fuel);
      }
  }

  lemma {:induction false} KeptS(p: Program, s: Stmt, names: seq<Name>, vals: Vals, out: Output, fuel: nat)
    ensures var r := Exec(p, s, names, vals, out, fuel); (r.Norm? ==> |r.vals| == |vals|) && !(r.SStop? && r.r.Val?)
    decreases fuel, s, 1
  {
    hide EvalE, Perform, ExecLoop;
    match s
    case Eval(e) => KeptPerform(p, e, names, vals, out, fuel);
    case Pout(es) => KeptPout(p, es, names, vals, out, fuel);
    case Return(_) =>
    case Back =>
    case If(c, t, arms) =>
      KeptE(p, c, names, vals, out, fuel);
      var a := EvalE(p, c, names, vals, out, fuel);
      if a.Val? {
        KeptS(p, t, names, a.vals, a.out, fuel);
        KeptArms(p, arms, names, a.vals, a.out, fuel);
      }
    case While(_, _) => KeptLoop(p, s, names, vals, out, fuel);
    case For(NoVar, _, _, _) => KeptLoop(p, s, names, vals, out, fuel);
    case For(SomeVar(x, e), _, _, _) =>
      KeptE(p, e, names + [x], vals, out, fuel);
      var a := EvalE(p, e, names + [x], vals, out, fuel);
      if a.Val? {
        KeptLoop(p, s, names + [x], a.vals + [a.v], a.out, fuel);
      }
    case Block(ds) => KeptD(p, ds, names, vals, out, fuel);
  }

  lemma {:induction false} KeptArms(p: Program, arms: Arms, names: seq<Name>, vals: Vals, out: Output, fuel: nat)
    ensures var r := ExecArms(p, arms, names, vals, out, fuel);
            (r.Norm? ==> |r.vals| == |vals|) && !(r.SStop? && r.r.Val?)
    decreases fuel, arms, 0
  {
    hide EvalE, Exec;
    match arms
    case End =>
    case Else(s) => KeptS(p, s, names, vals, out, fuel);
    case Elif(c, s, t) =>
      KeptE(p, c, names, vals, out, fuel);
      var a := EvalE(p, c, names, vals, out, fuel);
      if a.Val? {
        KeptS(p, s, names, a.vals, a.out, fuel);
        KeptArms(p, t, names, a.vals, a.out, fuel);
      }
  }

  lemma {:induction false} KeptLoop(p: Program, s: Stmt, names: seq<Name>, vals: Vals, out: Output, fuel: nat)
    requires IsLoop(s)
    ensures var r := ExecLoop(p, s, names, vals, out, fuel); (r.Norm? ==> |r.vals| == |vals|) && !(r.SStop? && r.r.Val?)
    decreases fuel, s, 0
  {
    hide EvalE, Perform, Exec;
    var c, n := LoopCond(s), LoopInc(s);
    if c.SomeExpr? {
      KeptE(p, c.e, names, vals, out, fuel);
    }
    var a := if c.SomeExpr? then EvalE(p, c.e, names, vals, out, fuel) else Val(Bool(true), vals, out);
    if a.Val? && a.v.Bool? && a.v.truth {
      KeptS(p, s.body, names, a.vals, a.out, fuel);
      var r := Exec(p, s.body, names, a.vals, a.out, fuel);
      if r.Norm? {
        if n.SomeExpr? {
          KeptPerform(p, n.e, names, r.vals, r.out, fuel);
        }
        var k := if n.SomeExpr? then Perform(p, n.e, names, r.vals, r.out, fuel) else r;
        if k.Norm? && fuel > 0 {
          KeptLoop(p, s, names, k.vals, k.out, fuel - 1);
        }
      }
    }
  }

  lemma {:induction false} KeptD(p: Program, ds: Decls, names: seq<Name>, vals: Vals, out: Output, fuel: nat)
    ensures var r := ExecD(p, ds, names, vals, out, fuel);
            (r.Norm? ==> |r.vals| == |vals| + |Declared(ds)|) && !(r.SStop? && r.r.Val?)
    decreases fuel, ds, 0
  {
    hide EvalE, Exec;
    match ds
    case Done =>
    case Then(Var(x, e), t) =>
      KeptE(p, e, names + [x], vals, out, fuel);
      var a := EvalE(p, e, names + [x], vals, out, fuel);
      if a.Val? {
        KeptD(p, t, names + [x], a.vals + [a.v], a.out, fuel);
      }
    case Then(Do(s), t) =>
      KeptS(p, s, names, vals, out, fuel);
      var r := Exec(p, s, names, vals, out, fuel);
      if r.Norm? {
        KeptD(p, t, names, r.vals, r.out, fuel);
      }
  }

  // ------------------------------------------------------------- the two loops

  /** `{ body; inc; }`, or `{ body; }`. */
  function BodyThenInc(s: Stmt): Stmt
    requires s.For?
  {
    Block(Then(Do(s.body), if s.inc.SomeExpr? then Then(Do(Eval(s.inc.e)), Done) else Done))
  }

  /** The `while` a `for` stands for; an absent condition is `true`. */
  function AsWhile(s: Stmt): Stmt
    requires s.For?
  {
    While(if s.cond.SomeExpr? then s.cond.e else Lit(Bool(true)), BodyThenInc(s))
  }

  /** `{ init; while (cond) { body; inc; } }` */
  function Unrolled(s: Stmt): Stmt
    requires s.For?
  {
    Block(if s.init.SomeVar? then Then(Var(s.init.x, s.init.e), Then(Do(AsWhile(s)), Done))
      else Then(Do(AsWhile(s)), Done))
  }

  lemma OneTurn(p: Program, s: Stmt, names: seq<Name>, vals: Vals, out: Output, fuel: nat)
    requires s.For?
    ensures
      var r := Exec(p, s.body, names, vals, out, fuel);
      Exec(p, BodyThenInc(s), names, vals, out, fuel) ==
        if r.Norm? && s.inc.SomeExpr? then Perform(p, s.inc.e, names, r.vals, r.out, fuel) else r
  {
    var r := Exec(p, s.body, names, vals, out, fuel);
    var ds := if s.inc.SomeExpr? then Then(Do(Eval(s.inc.e)), Done) else Done;
    KeptS(p, s.body, names, vals, out, fuel);
    assert Exec(p, BodyThenInc(s), names, vals, out, fuel) ==
           Leave(|vals|, ExecD(p, Then(Do(s.body), ds), names, vals, out, fuel));
    if r.Norm? {
      assert r.vals[..|vals|] == r.vals;
      if s.inc.SomeExpr? {
        KeptPerform(p, s.inc.e, names, r.vals, r.out, fuel);
        var k := Perform(p, s.inc.e, names, r.vals, r.out, fuel);
        assert Exec(p, Eval(s.inc.e), names, r.vals, r.out, fuel) == k;
        assert k.Norm? ==> k.vals[..|vals|] == k.vals && ExecD(p, Done, names, k.vals, k.out, fuel) == k;
        assert ExecD(p, ds, names, r.vals, r.out, fuel) == k;
      }
    }
  }

  lemma {:induction false} SameLoop(p: Program, s: Stmt, names: seq<Name>, vals: Vals, out: Output, fuel: nat)
    requires s.For?
    ensures ExecLoop(p, s, names, vals, out, fuel) == ExecLoop(p, AsWhile(s), names, vals, out, fuel)
    decreases fuel
  {
    var a := if s.cond.SomeExpr? then EvalE(p, s.cond.e, names, vals, out, fuel) else Val(Bool(true), vals, out);
    assert a == EvalE(p, AsWhile(s).c, names, vals, out, fuel);
    if a.Val? && a.v.Bool? && a.v.truth {
      OneTurn(p, s, names, a.vals, a.out, fuel);
      var k := Exec(p, BodyThenInc(s), names, a.vals, a.out, fuel);
      hide Exec, EvalE;
      if k.Norm? && fuel > 0 {
        SameLoop(p, s, names, k.vals, k.out, fuel - 1);
      }
    }
  }

  /** A `for` and its unrolled form have the same result for every number of iterations: the
      same variables, output, value returned or error. */
  lemma ForIsWhile(p: Program, s: Stmt, names: seq<Name>, vals: Vals, out: Output, fuel: nat)
    requires s.For?
    ensures Exec(p, s, names, vals, out, fuel) == Exec(p, Unrolled(s), names, vals, out, fuel)
  {
    var w := AsWhile(s);
    var ws := Then(Do(w), Done);
    if s.init.SomeVar? {
      var a := EvalE(p, s.init.e, names + [s.init.x], vals, out, fuel);
      if a.Val? {
        SameLoop(p, s, names + [s.init.x], a.vals + [a.v], a.out, fuel);
        OnlyOne(p, w, names + [s.init.x], a.vals + [a.v], a.out, fuel);
      }
      hide EvalE, ExecLoop, AsWhile;
      assert ExecD(p, Then(Var(s.init.x, s.init.e), ws), names, vals, out, fuel) ==
             if a.Val? then ExecD(p, ws, names + [s.init.x], a.vals + [a.v], a.out, fuel) else SStop(a);
    } else {
      SameLoop(p, s, names, vals, out, fuel);
      OnlyOne(p, w, names, vals, out, fuel);
      KeptLoop(p, w, names, vals, out, fuel);
      var r := ExecLoop(p, w, names, vals, out, fuel);
      assert r.Norm? ==> r.vals[..|vals|] == r.vals;
      hide EvalE, ExecLoop, AsWhile;
    }
  }

  lemma OnlyOne(p: Program, w: Stmt, names: seq<Name>, vals: Vals, out: Output, fuel: nat)
    requires w.While?
    ensures ExecD(p, Then(Do(w), Done), names, vals, out, fuel) == ExecLoop(p, w, names, vals, out, fuel)
  {
    hide ExecLoop;
  }
}
