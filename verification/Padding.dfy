/** Unnamed variables change nothing: a program that never mentions `blank` means the same when
    more variables of that name lie behind its first one. */
module Padding {
  import opened Values
  import opened Syntax
  import opened Semantics
  import Loops

  // ------------------------------------------------- programs without a name

  predicate AvoidsE(e: Expr, x: Name) {
    match e
    case Lit(_) | FuncRef(_) => true
    case Local(y) => y != x
    case Assign(y, r) => y != x && AvoidsE(r, x)
    case Compound(_, y, r) => y != x && AvoidsE(r, x)
    case Bump(y, _, _) => y != x
    case Neg(_, r) => AvoidsE(r, x)
    case Paren(r) => AvoidsE(r, x)
    case Bin(_, l, r) => AvoidsE(l, x) && AvoidsE(r, x)
    case Call(f, args) => AvoidsE(f, x) && AvoidsArgs(args, x)
  }

  predicate AvoidsArgs(es: Exprs, x: Name) {
    match es case Nil => true case Cons(e, t) => AvoidsE(e, x) && AvoidsArgs(t, x)
  }

  predicate AvoidsOpt(e: OptExpr, x: Name) {
    match e case NoExpr => true case SomeExpr(r) => AvoidsE(r, x)
  }

  predicate Avoids(s: Stmt, x: Name) {
    match s
    case Eval(e) => AvoidsE(e, x)
    case Pout(es) => AvoidsArgs(es, x)
    case If(c, t, arms) => AvoidsE(c, x) && Avoids(t, x) && AvoidsArms(arms, x)
    case While(c, b) => AvoidsE(c, x) && Avoids(b, x)
    case For(i, c, n, b) =>
      && (i.SomeVar? ==> i.x != x && AvoidsE(i.e, x))
      && AvoidsOpt(c, x) && AvoidsOpt(n, x) && Avoids(b, x)
    case Block(ds) => AvoidsD(ds, x)
    case Return(e) => AvoidsE(e, x)
    case Back => true
  }

  predicate AvoidsArms(a: Arms, x: Name) {
    match a
    case End => true
    case Else(s) => Avoids(s, x)
    case Elif(c, s, t) => AvoidsE(c, x) && Avoids(s, x) && AvoidsArms(t, x)
  }

  predicate AvoidsD(ds: Decls, x: Name) {
    match ds
    case Done => true
    case Then(Var(y, e), t) => y != x && AvoidsE(e, x) && AvoidsD(t, x)
    case Then(Do(s), t) => Avoids(s, x) && AvoidsD(t, x)
  }

  // ---------------------------------------------------------------- padding

  /** `g` put behind the first element. */
  function Behind<T>(s: seq<T>, g: seq<T>): (r: seq<T>)
    requires |s| > 0
    ensures |r| == |s| + |g|
  {
    s[..1] + g + s[1..]
  }

  function Copies(x: Name, n: nat): (s: seq<Name>)
    ensures |s| == n && forall i :: 0 <= i < n ==> s[i] == x
  {
    seq(n, _ => x)
  }

  /** Names whose first is `b`, and values for them; the newest may not have its value yet. */
  predicate Headed(names: seq<Name>, vals: Vals, b: Name) {
    |names| > 0 && names[0] == b && |vals| > 0
  }

  function PadE(r: ER, g: Vals): ER {
    if r.Val? && |r.vals| > 0 then r.(vals := Behind(r.vals, g)) else r
  }

  function PadL(r: LR, g: Vals): LR {
    if r.Vs? && |r.vals| > 0 then r.(vals := Behind(r.vals, g)) else r
  }

  function PadS(r: SR, g: Vals): SR {
    if r.Norm? && |r.vals| > 0 then r.(vals := Behind(r.vals, g)) else r
  }

  lemma {:induction false} NewestBehind(names: seq<Name>, b: Name, n: nat, x: Name)
    requires |names| > 0 && names[0] == b && x != b
    ensures Newest(Behind(names, Copies(b, n)), x) == if Newest(names, x) < 0 then -1 else Newest(names, x) + n
    decreases |names| + n
  {
    var padded := Behind(names, Copies(b, n));
    if |names| > 1 {
      var q := names[..|names| - 1];
      assert padded[..|padded| - 1] == Behind(q, Copies(b, n));
      assert padded[|padded| - 1] == names[|names| - 1];
      NewestBehind(q, b, n, x);
    } else if n > 0 {
      assert padded[..|padded| - 1] == Behind(names, Copies(b, n - 1));
      NewestBehind(names, b, n - 1, x);
    } else {
      assert padded == names;
    }
  }

  lemma BehindSnoc<T>(s: seq<T>, g: seq<T>, x: T)
    requires |s| > 0
    ensures Behind(s + [x], g) == Behind(s, g) + [x]
  {
  }

  lemma SamePlace(names: seq<Name>, vals: Vals, b: Name, g: Vals, x: Name)
    requires Headed(names, vals, b) && x != b
    ensures var names', vals' := Behind(names, Copies(b, |g|)), Behind(vals, g);
            && (Has(names', vals', x) <==> Has(names, vals, x))
            && (Has(names, vals, x) ==> Lookup(names', vals', x) == Lookup(names, vals, x))
            && (Has(names, vals, x) ==> forall v :: Update(names', vals', x, v) == Behind(Update(names, vals, x, v), g))
  {
    NewestBehind(names, b, |g|, x);
    hide Newest;
    if Has(names, vals, x) {
      var i := Newest(names, x);
      assert i > 0;
      var names', vals' := Behind(names, Copies(b, |g|)), Behind(vals, g);
      forall v ensures Update(names', vals', x, v) == Behind(Update(names, vals, x, v), g) {
        assert Behind(vals, g)[i + |g| := v] == Behind(vals[i := v], g);
      }
    }
  }

  lemma StoreBehind(names: seq<Name>, x: Name, r: ER, b: Name, g: Vals)
    requires |names| > 0 && names[0] == b && x != b && (r.Val? ==> |r.vals| > 0)
    ensures Store(Behind(names, Copies(b, |g|)), x, PadE(r, g)) == PadE(Store(names, x, r), g)
  {
    hide Behind, Copies;
    if r.Val? {
      SamePlace(names, r.vals, b, g, x);
    }
  }

  // ---------------------------------------------------------- the semantics

  lemma {:induction false} PaddedE(p: Program, e: Expr, names: seq<Name>, vals: Vals, out: Output, fuel: nat, b: Name,
                                   g: Vals)
    requires Headed(names, vals, b) && AvoidsE(e, b)
    ensures var r := EvalE(p, e, names, vals, out, fuel);
            && (r.Val? ==> |r.vals| > 0)
            && EvalE(p, e, Behind(names, Copies(b, |g|)), Behind(vals, g), out, fuel) == PadE(r, g)
    decreases fuel, e, 1
  {
    hide Behind, Copies, Newest, BinValue, NegValue, BumpValue, Store, Operands, RunBody, Has, Lookup, Update;
    match e
    case Lit(_) =>
    case FuncRef(_) =>
    case Local(x) => SamePlace(names, vals, b, g, x);
    case Assign(x, r) =>
      PaddedE(p, r, names, vals, out, fuel, b, g);
      StoreBehind(names, x, EvalE(p, r, names, vals, out, fuel), b, g);
      StoreKeeps(names, x, EvalE(p, r, names, vals, out, fuel));
    case Neg(_, r) => PaddedE(p, r, names, vals, out, fuel, b, g);
    case Paren(r) => PaddedE(p, r, names, vals, out, fuel, b, g);
    case Compound(_, _, _) => PaddedCompound(p, e, names, vals, out, fuel, b, g);
    case Bump(x, inc, _) =>
      SamePlace(names, vals, b, g, x);
      if Has(names, vals, x) {
        var r := Lift(BumpValue(Lookup(names, vals, x), inc), vals, out);
        StoreBehind(names, x, r, b, g);
        StoreKeeps(names, x, r);
      }
    case Bin(_, l, r) =>
      PaddedE(p, l, names, vals, out, fuel, b, g);
      var a := EvalE(p, l, names, vals, out, fuel);
      if a.Val? {
        PaddedE(p, r, names, a.vals, a.out, fuel, b, g);
      }
    case Call(_, _) =>
      PaddedOperands(p, e, names, vals, out, fuel, b, g);
      Loops.KeptOperands(p, e, names, vals, out, fuel);
      var a := Operands(p, e, names, vals, out, fuel);
      if a.Vs? && fuel > 0 {
        Loops.KeptBody(p, a.vs[0], a.vs[1..], a.out, fuel - 1);
      }
  }

  lemma StoreKeeps(names: seq<Name>, x: Name, r: ER)
    requires r.Val? ==> |r.vals| > 0
    ensures var s := Store(names, x, r); s.Val? ==> |s.vals| > 0
  {
  }

  lemma {:induction false} PaddedCompound(p: Program, e: Expr, names: seq<Name>, vals: Vals, out: Output, fuel: nat,
                                          b: Name, g: Vals)
    requires e.Compound? && Headed(names, vals, b) && AvoidsE(e, b)
    ensures var r := EvalE(p, e, names, vals, out, fuel);
            && (r.Val? ==> |r.vals| > 0)
            && EvalE(p, e, Behind(names, Copies(b, |g|)), Behind(vals, g), out, fuel) == PadE(r, g)
    decreases fuel, e, 0
  {
    hide Behind, Copies, Newest, BinValue, Store, Has, Lookup, Update;
    SamePlace(names, vals, b, g, e.x);
    PaddedE(p, e.e, names, vals, out, fuel, b, g);
    var a := EvalE(p, e.e, names, vals, out, fuel);
    if Has(names, vals, e.x) && a.Val? {
      var r := Lift(BinValue(e.op, Lookup(names, vals, e.x), a.v), a.vals, a.out);
      StoreBehind(names, e.x, r, b, g);
      StoreKeeps(names, e.x, r);
    }
  }

  lemma {:induction false} PaddedArgs(p: Program, es: Exprs, names: seq<Name>, vals: Vals, out: Output, fuel: nat,
                                      b: Name, g: Vals)
    requires Headed(names, vals, b) && AvoidsArgs(es, b)
    ensures var r := EvalArgs(p, es, names, vals, out, fuel);
            && (r.Vs? ==> |r.vals| > 0)
            && EvalArgs(p, es, Behind(names, Copies(b, |g|)), Behind(vals, g), out, fuel) == PadL(r, g)
    decreases fuel, es, 0
  {
    hide Behind, Copies, EvalE;
    match es
    case Nil =>
    case Cons(e, t) =>
      PaddedE(p, e, names, vals, out, fuel, b, g);
      var a := EvalE(p, e, names, vals, out, fuel);
      if a.Val? {
        PaddedArgs(p, t, names, a.vals, a.out, fuel, b, g);
      }
  }

  lemma {:induction false} PaddedOperands(p: Program, e: Expr, names: seq<Name>, vals: Vals, out: Output, fuel: nat,
                                          b: Name, g: Vals)
    requires e.Call? && Headed(names, vals, b) && AvoidsE(e, b)
    ensures var r := Operands(p, e, names, vals, out, fuel);
            && (r.Vs? ==> |r.vals| > 0)
            && Operands(p, e, Behind(names, Copies(b, |g|)), Behind(vals, g), out, fuel) == PadL(r, g)
    decreases fuel, e, 0
  {
    hide Behind, Copies, EvalE, EvalArgs;
    PaddedE(p, e.fn, names, vals, out, fuel, b, g);
    var a := EvalE(p, e.fn, names, vals, out, fuel);
    if a.Val? {
      PaddedArgs(p, e.args, names, a.vals, a.out, fuel, b, g);
    }
  }

  lemma {:induction false} PaddedPerform(p: Program, e: Expr, names: seq<Name>, vals: Vals, out: Output, fuel: nat,
                                         b: Name, g: Vals)
    requires Headed(names, vals, b) && AvoidsE(e, b)
    ensures var r := Perform(p, e, names, vals, out, fuel);
            && (r.Norm? ==> |r.vals| > 0)
            && Perform(p, e, Behind(names, Copies(b, |g|)), Behind(vals, g), out, fuel) == PadS(r, g)
    decreases fuel, e, 2
  {
    hide Behind, Copies, EvalE, Operands, RunBody;
    if e.Paren? {
      PaddedPerform(p, e.e, names, vals, out, fuel, b, g);
    } else if e.Call? {
      PaddedOperands(p, e, names, vals, out, fuel, b, g);
    } else {
      PaddedE(p, e, names, vals, out, fuel, b, g);
    }
  }

  lemma {:induction false} PaddedPout(p: Program, es: Exprs, names: seq<Name>, vals: Vals, out: Output, fuel: nat,
                                      b: Name, g: Vals)
    requires Headed(names, vals, b) && AvoidsArgs(es, b)
    ensures var r := ExecPout(p, es, names, vals, out, fuel);
            && (r.Norm? ==> |r.vals| > 0)
            && ExecPout(p, es, Behind(names, Copies(b, |g|)), Behind(vals, g), out, fuel) == PadS(r, g)
    decreases fuel, es, 0
  {
    hide Behind, Copies, EvalE;
    match es
    case Nil =>
    case Cons(e, t) =>
      PaddedE(p, e, names, vals, out, fuel, b, g);
      var a := EvalE(p, e, names, vals, out, fuel);
      if a.Val? {
        PaddedPout(p, t, names, a.vals, a.out + [a.v], fuel, b, g);
      }
  }

  /** A statement that never mentions `b`, with `g` more variables of that name. */
  lemma {:induction false} PaddedS(p: Program, s: Stmt, names: seq<Name>, vals: Vals, out: Output, fuel: nat, b: Name,
                                   g: Vals)
    requires Headed(names, vals, b) && Avoids(s, b)
    ensures var r := Exec(p, s, names, vals, out, fuel);
            && (r.Norm? ==> |r.vals| > 0)
            && Exec(p, s, Behind(names, Copies(b, |g|)), Behind(vals, g), out, fuel) == PadS(r, g)
    decreases fuel, s, 2
  {
    hide Behind, Copies, EvalE, Perform, ExecPout, ExecArms, ExecLoop, ExecD, Leave;
    match s
    case Eval(e) => PaddedPerform(p, e, names, vals, out, fuel, b, g);
    case Pout(es) => PaddedPout(p, es, names, vals, out, fuel, b, g);
    case Return(e) => PaddedE(p, e, names, vals, out, fuel, b, g);
    case Back =>
    case If(_, _, _) => PaddedIf(p, s, names, vals, out, fuel, b, g);
    case While(_, _) => PaddedLoop(p, s, names, vals, out, fuel, b, g);
    case Block(ds) =>
      PaddedD(p, ds, names, vals, out, fuel, b, g);
      LeaveBehind(|vals|, ExecD(p, ds, names, vals, out, fuel), g);
    case For(_, _, _, _) => PaddedFor(p, s, names, vals, out, fuel, b, g);
  }

  lemma LeaveBehind(n: nat, r: SR, g: Vals)
    requires n > 0 && (r.Norm? ==> |r.vals| > 0)
    ensures Leave(n + |g|, PadS(r, g)) == PadS(Leave(n, r), g)
    ensures Leave(n, r).Norm? ==> |Leave(n, r).vals| > 0
  {
    if r.Norm? && n <= |r.vals| {
      assert Behind(r.vals, g)[..n + |g|] == Behind(r.vals[..n], g);
    }
  }

  lemma {:induction false} PaddedIf(p: Program, s: Stmt, names: seq<Name>, vals: Vals, out: Output, fuel: nat, b: Name,
                                    g: Vals)
    requires s.If? && Headed(names, vals, b) && Avoids(s, b)
    ensures var r := Exec(p, s, names, vals, out, fuel);
            && (r.Norm? ==> |r.vals| > 0)
            && Exec(p, s, Behind(names, Copies(b, |g|)), Behind(vals, g), out, fuel) == PadS(r, g)
    decreases fuel, s, 0
  {
    hide Behind, Copies, EvalE, ExecArms;
    PaddedE(p, s.c, names, vals, out, fuel, b, g);
    var a := EvalE(p, s.c, names, vals, out, fuel);
    if a.Val? {
      PaddedS(p, s.then_, names, a.vals, a.out, fuel, b, g);
      PaddedArms(p, s.arms, names, a.vals, a.out, fuel, b, g);
    }
  }

  lemma {:induction false} PaddedFor(p: Program, s: Stmt, names: seq<Name>, vals: Vals, out: Output, fuel: nat, b: Name,
                                     g: Vals)
    requires s.For? && Headed(names, vals, b) && Avoids(s, b)
    ensures var r := Exec(p, s, names, vals, out, fuel);
            && (r.Norm? ==> |r.vals| > 0)
            && Exec(p, s, Behind(names, Copies(b, |g|)), Behind(vals, g), out, fuel) == PadS(r, g)
    decreases fuel, s, 1
  {
    hide Behind, Copies, EvalE, ExecLoop, Leave;
    match s.init
    case NoVar => PaddedLoop(p, s, names, vals, out, fuel, b, g);
    case SomeVar(x, e) =>
      BehindSnoc(names, Copies(b, |g|), x);
      PaddedE(p, e, names + [x], vals, out, fuel, b, g);
      var a := EvalE(p, e, names + [x], vals, out, fuel);
      if a.Val? {
        BehindSnoc(a.vals, g, a.v);
        PaddedLoop(p, s, names + [x], a.vals + [a.v], a.out, fuel, b, g);
        LeaveBehind(|vals|, ExecLoop(p, s, names + [x], a.vals + [a.v], a.out, fuel), g);
      }
  }

  lemma {:induction false} PaddedArms(p: Program, arms: Arms, names: seq<Name>, vals: Vals, out: Output, fuel: nat,
                                      b: Name, g: Vals)
    requires Headed(names, vals, b) && AvoidsArms(arms, b)
    ensures var r := ExecArms(p, arms, names, vals, out, fuel);
            && (r.Norm? ==> |r.vals| > 0)
            && ExecArms(p, arms, Behind(names, Copies(b, |g|)), Behind(vals, g), out, fuel) == PadS(r, g)
    decreases fuel, arms, 0
  {
    hide Behind, Copies, EvalE, Exec;
    match arms
    case End =>
    case Else(s) => PaddedS(p, s, names, vals, out, fuel, b, g);
    case Elif(c, s, t) =>
      PaddedE(p, c, names, vals, out, fuel, b, g);
      var a := EvalE(p, c, names, vals, out, fuel);
      if a.Val? {
        PaddedS(p, s, names, a.vals, a.out, fuel, b, g);
        PaddedArms(p, t, names, a.vals, a.out, fuel, b, g);
      }
  }

  lemma {:induction false} PaddedLoop(p: Program, s: Stmt, names: seq<Name>, vals: Vals, out: Output, fuel: nat,
                                      b: Name, g: Vals)
    requires IsLoop(s) && Headed(names, vals, b) && AvoidsOpt(LoopCond(s), b) && AvoidsOpt(LoopInc(s), b)
             && Avoids(s.body, b)
    ensures var r := ExecLoop(p, s, names, vals, out, fuel);
            && (r.Norm? ==> |r.vals| > 0)
            && ExecLoop(p, s, Behind(names, Copies(b, |g|)), Behind(vals, g), out, fuel) == PadS(r, g)
    decreases fuel, s, 0
  {
    hide Behind, Copies, EvalE, Perform, Exec, Avoids, AvoidsE;
    var c, n := LoopCond(s), LoopInc(s);
    if c.SomeExpr? {
      PaddedE(p, c.e, names, vals, out, fuel, b, g);
    }
    var a := if c.SomeExpr? then EvalE(p, c.e, names, vals, out, fuel) else Val(Bool(true), vals, out);
    if a.Val? && a.v.Bool? && a.v.truth {
      PaddedS(p, s.body, names, a.vals, a.out, fuel, b, g);
      var r := Exec(p, s.body, names, a.vals, a.out, fuel);
      if r.Norm? {
        if n.SomeExpr? {
          PaddedPerform(p, n.e, names, r.vals, r.out, fuel, b, g);
        }
        var k := if n.SomeExpr? then Perform(p, n.e, names, r.vals, r.out, fuel) else r;
        if k.Norm? && fuel > 0 {
          PaddedLoop(p, s, names, k.vals, k.out, fuel - 1, b, g);
        }
      }
    }
  }

  lemma {:induction false} PaddedD(p: Program, ds: Decls, names: seq<Name>, vals: Vals, out: Output, fuel: nat, b: Name,
                                   g: Vals)
    requires Headed(names, vals, b) && AvoidsD(ds, b)
    ensures var r := ExecD(p, ds, names, vals, out, fuel);
            && (r.Norm? ==> |r.vals| > 0)
            && ExecD(p, ds, Behind(names, Copies(b, |g|)), Behind(vals, g), out, fuel) == PadS(r, g)
    decreases fuel, ds, 0
  {
    hide Behind, Copies, EvalE, Exec;
    match ds
    case Done =>
    case Then(Var(x, e), t) =>
      BehindSnoc(names, Copies(b, |g|), x);
      PaddedE(p, e, names + [x], vals, out, fuel, b, g);
      var a := EvalE(p, e, names + [x], vals, out, fuel);
      if a.Val? {
        BehindSnoc(a.vals, g, a.v);
        PaddedD(p, t, names + [x], a.vals + [a.v], a.out, fuel, b, g);
      }
    case Then(Do(s), t) =>
      PaddedS(p, s, names, vals, out, fuel, b, g);
      var r := Exec(p, s, names, vals, out, fuel);
      if r.Norm? {
        PaddedD(p, t, names, r.vals, r.out, fuel, b, g);
      }
  }
}
