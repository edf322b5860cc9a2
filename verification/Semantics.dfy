/** A big-step semantics of the source language, by recursion with fuel.

    It knows nothing of stacks, slots or jumps. `names` are the variables in scope, oldest
    first, and `vals` their values; a variable whose initialiser is still being evaluated is
    in `names` but not yet in `vals`. Fuel is spent by calls and loop iterations only. */
module Semantics {
  import opened Values
  import opened Syntax

  datatype Program = Program(defs: seq<FunDef>, named: map<Name, nat>)

  type Vals = seq<Element>
  type Output = seq<Element>

  /** Results of expressions. `Exit` is a type error (exit(1)), `Fail` a bad call (runtime_error), `Stray` behaviour
      the language does not define. */
  datatype ER =
    | Val(v: Element, vals: Vals, out: Output)
    | Exit(out: Output) | Fail(out: Output) | Stray | Timeout

  datatype LR =
    | Vs(vs: seq<Element>, vals: Vals, out: Output)
    | LStop(r: ER)

  /** Results of statements: the end, `return e;`, `return;`, or an end of the run. */
  datatype SR =
    | Norm(vals: Vals, out: Output)
    | Ret(v: Element, out: Output)
    | Void(out: Output)
    | SStop(r: ER)

  predicate Has(names: seq<Name>, vals: Vals, x: Name) {
    0 <= Newest(names, x) < |vals|
  }

  function Lookup(names: seq<Name>, vals: Vals, x: Name): Element
    requires Has(names, vals, x)
  {
    vals[Newest(names, x)]
  }

  function Update(names: seq<Name>, vals: Vals, x: Name, v: Element): Vals
    requires Has(names, vals, x)
  {
    vals[Newest(names, x) := v]
  }

  function Lift(r: Outcome, vals: Vals, out: Output): ER {
    match r
    case Fine(v) => Val(v, vals, out)
    case TypeError => Exit(out)
    case Wild => Stray
  }

  /** `x = v`, whose value is `v`. */
  function Store(names: seq<Name>, x: Name, r: ER): ER {
    if r.Val? then
      if Has(names, r.vals, x) then Val(r.v, Update(names, r.vals, x, r.v), r.out) else Stray
    else r
  }

  /** A call whose value is needed. Neither `return;` nor the end of the body gives a value that
      the language defines. */
  function Called(r: SR, vals: Vals): ER {
    match r
    case Ret(v, out) => Val(v, vals, out)
    case Norm(_, _) => Stray
    case Void(_) => Stray
    case SStop(e) => e
  }

  /** A call whose value is discarded. */
  function Proceeds(r: SR, vals: Vals): SR {
    match r
    case Ret(_, out) => Norm(vals, out)
    case Norm(_, out) => Norm(vals, out)
    case Void(out) => Norm(vals, out)
    case SStop(e) => SStop(e)
  }

  function EvalE(p: Program, e: Expr, names: seq<Name>, vals: Vals, out: Output, fuel: nat): ER
    decreases fuel, e, 1
  {
    match e
    case Lit(v) => Val(v, vals, out)
    case Local(x) => if Has(names, vals, x) then Val(Lookup(names, vals, x), vals, out) else Stray
    case FuncRef(f) => if f in p.named then Val(Closure(p.named[f]), vals, out) else Stray
    case Assign(x, r) => Store(names, x, EvalE(p, r, names, vals, out, fuel))
    case Compound(op, x, r) =>
      if !Has(names, vals, x) then Stray
      else
        var a := EvalE(p, r, names, vals, out, fuel);
        if a.Val? then Store(names, x, Lift(BinValue(op, Lookup(names, vals, x), a.v), a.vals, a.out)) else a
    case Paren(r) => EvalE(p, r, names, vals, out, fuel)
    case Neg(_, r) =>
      var a := EvalE(p, r, names, vals, out, fuel);
      if a.Val? then Lift(NegValue(a.v), a.vals, a.out) else a
    case Bump(x, inc, _) =>
      if !Has(names, vals, x) then Stray
      else Store(names, x, Lift(BumpValue(Lookup(names, vals, x), inc), vals, out))
    case Bin(op, l, r) =>
      var a := EvalE(p, l, names, vals, out, fuel);
      if !a.Val? then a
      else
        var b := EvalE(p, r, names, a.vals, a.out, fuel);
        if b.Val? then Lift(BinValue(op, a.v, b.v), b.vals, b.out) else b
    case Call(_, _) =>
      var b := Operands(p, e, names, vals, out, fuel);
      if b.LStop? then b.r
      else if fuel == 0 then Timeout
      else Called(RunBody(p, b.vs[0], b.vs[1..], b.out, fuel - 1), b.vals)
  }

  /** The callee and the arguments of a call. */
  function Operands(p: Program, e: Expr, names: seq<Name>, vals: Vals, out: Output, fuel: nat): (r: LR)
    requires e.Call?
    ensures r.Vs? ==> |r.vs| > 0
    decreases fuel, e, 0
  {
    var a := EvalE(p, e.fn, names, vals, out, fuel);
    if !a.Val? then LStop(a)
    else
      var b := EvalArgs(p, e.args, names, a.vals, a.out, fuel);
      if b.LStop? then b else Vs([a.v] + b.vs, b.vals, b.out)
  }

  /** Arguments are evaluated from left to right. */
  function EvalArgs(p: Program, es: Exprs, names: seq<Name>, vals: Vals, out: Output, fuel: nat): LR
    decreases fuel, es, 0
  {
    match es
    case Nil => Vs([], vals, out)
    case Cons(e, t) =>
      var a := EvalE(p, e, names, vals, out, fuel);
      if !a.Val? then LStop(a)
      else
        var b := EvalArgs(p, t, names, a.vals, a.out, fuel);
        if b.LStop? then b else Vs([a.v] + b.vs, b.vals, b.out)
  }

  /** A call runs the body with the arguments as its only variables; the caller's variables are
      untouched. */
  function RunBody(p: Program, f: Element, args: seq<Element>, out: Output, fuel: nat): SR
    decreases fuel
  {
    if !f.Closure? then SStop(Fail(out))
    else if f.fn >= |p.defs| then SStop(Stray)
    else if |p.defs[f.fn].params| != |args| then SStop(Fail(out))
    else ExecD(p, p.defs[f.fn].body, p.defs[f.fn].params, args, out, fuel)
  }

  /** An expression whose value is discarded. */
  function Perform(p: Program, e: Expr, names: seq<Name>, vals: Vals, out: Output, fuel: nat): SR
    decreases fuel, e, 2
  {
    if e.Paren? then Perform(p, e.e, names, vals, out, fuel)
    else if !e.Call? then Effect(EvalE(p, e, names, vals, out, fuel))
    else
      var b := Operands(p, e, names, vals, out, fuel);
      if b.LStop? then SStop(b.r)
      else if fuel == 0 then SStop(Timeout)
      else Proceeds(RunBody(p, b.vs[0], b.vs[1..], b.out, fuel - 1), b.vals)
  }

  function Exec(p: Program, s: Stmt, names: seq<Name>, vals: Vals, out: Output, fuel: nat): SR
    decreases fuel, s, 1
  {
    match s
    case Eval(e) => Perform(p, e, names, vals, out, fuel)
    case Pout(es) => ExecPout(p, es, names, vals, out, fuel)
    case If(c, t, arms) =>
      var a := EvalE(p, c, names, vals, out, fuel);
      if !a.Val? then SStop(a)
      else if !a.v.Bool? then SStop(Stray)
      else if a.v.truth then Exec(p, t, names, a.vals, a.out, fuel)
      else ExecArms(p, arms, names, a.vals, a.out, fuel)
    case While(_, _) => ExecLoop(p, s, names, vals, out, fuel)
    case For(NoVar, _, _, _) => ExecLoop(p, s, names, vals, out, fuel)
    case For(SomeVar(x, e), _, _, _) =>
      var a := EvalE(p, e, names + [x], vals, out, fuel);
      if !a.Val? then SStop(a)
      else Leave(|vals|, ExecLoop(p, s, names + [x], a.vals + [a.v], a.out, fuel))
    case Block(ds) => Leave(|vals|, ExecD(p, ds, names, vals, out, fuel))
    case Return(e) =>
      var a := EvalE(p, e, names, vals, out, fuel);
      if a.Val? then Ret(a.v, a.out) else SStop(a)
    case Back => Void(out)
  }

  function Effect(a: ER): SR {
    if a.Val? then Norm(a.vals, a.out) else SStop(a)
  }

  /** The end of a scope that was entered with `n` variables. */
  function Leave(n: nat, r: SR): SR {
    if r.Norm? && n <= |r.vals| then Norm(r.vals[..n], r.out) else r
  }

  function ExecPout(p: Program, es: Exprs, names: seq<Name>, vals: Vals, out: Output, fuel: nat): SR
    decreases fuel, es, 0
  {
    match es
    case Nil => Norm(vals, out)
    case Cons(e, t) =>
      var a := EvalE(p, e, names, vals, out, fuel);
      if a.Val? then ExecPout(p, t, names, a.vals, a.out + [a.v], fuel) else SStop(a)
  }

  function ExecArms(p: Program, arms: Arms, names: seq<Name>, vals: Vals, out: Output, fuel: nat): SR
    decreases fuel, arms, 0
  {
    match arms
    case End => Norm(vals, out)
    case Else(s) => Exec(p, s, names, vals, out, fuel)
    case Elif(c, s, t) =>
      var a := EvalE(p, c, names, vals, out, fuel);
      if !a.Val? then SStop(a)
      else if !a.v.Bool? then SStop(Stray)
      else if a.v.truth then Exec(p, s, names, a.vals, a.out, fuel)
      else ExecArms(p, t, names, a.vals, a.out, fuel)
  }

  /** `while (c) { body; inc; }`, where an absent condition is true. */
  function ExecLoop(p: Program, s: Stmt, names: seq<Name>, vals: Vals, out: Output, fuel: nat): SR
    requires IsLoop(s)
    decreases fuel, s, 0
  {
    var c, n := LoopCond(s), LoopInc(s);
    var a := if c.SomeExpr? then EvalE(p, c.e, names, vals, out, fuel) else Val(Bool(true), vals, out);
    if !a.Val? then SStop(a)
    else if !a.v.Bool? then SStop(Stray)
    else if !a.v.truth then Norm(a.vals, a.out)
    else
      var r := Exec(p, s.body, names, a.vals, a.out, fuel);
      if !r.Norm? then r
      else
        var k := if n.SomeExpr? then Perform(p, n.e, names, r.vals, r.out, fuel) else r;
        if !k.Norm? then k
        else if fuel == 0 then SStop(Timeout)
        else ExecLoop(p, s, names, k.vals, k.out, fuel - 1)
  }

  function ExecD(p: Program, ds: Decls, names: seq<Name>, vals: Vals, out: Output, fuel: nat): SR
    decreases fuel, ds, 0
  {
    match ds
    case Done => Norm(vals, out)
    case Then(Var(x, e), t) =>
      var a := EvalE(p, e, names + [x], vals, out, fuel);
      if a.Val? then ExecD(p, t, names + [x], a.vals + [a.v], a.out, fuel) else SStop(a)
    case Then(Do(s), t) =>
      var r := Exec(p, s, names, vals, out, fuel);
      if r.Norm? then ExecD(p, t, names, r.vals, r.out, fuel) else r
  }
}
