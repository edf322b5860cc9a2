/** How each construct lies in a finished chunk: its size, and what its bytes are. */
module Layout {
  import opened Values
  import opened Syntax
  import opened Bytecode

  // ---------------------------------------------------------------- names

  datatype OptName = NoName | SomeName(x: Name)

  /** The variable that `id()` recorded last while `e` was compiled, if there was one. */
  function LastOf(e: Expr): OptName {
    match e
    case Lit(_) | FuncRef(_) => NoName
    case Local(y) => SomeName(y)
    case Assign(y, r) => Later(SomeName(y), LastOf(r))
    case Compound(_, y, r) => Later(SomeName(y), LastOf(r))
    case Neg(_, r) => LastOf(r)
    case Paren(r) => LastOf(r)
    case Bump(y, _, _) => SomeName(y)
    case Bin(_, l, r) => Later(LastOf(l), LastOf(r))
    case Call(f, args) => Later(LastOf(f), LastOfArgs(args))
  }

  function LastOfArgs(es: Exprs): OptName {
    match es case Nil => NoName case Cons(e, t) => Later(LastOf(e), LastOfArgs(t))
  }

  function Later(a: OptName, b: OptName): OptName {
    if b.NoName? then a else b
  }

  /** The variable that `x op= r` really writes. */
  function Target(x: Name, r: Expr): Name {
    Later(SomeName(x), LastOf(r)).x
  }

  // ---------------------------------------------------------------- sizes

  function SizeE(e: Expr): nat {
    match e
    case Lit(_) | Local(_) | FuncRef(_) => 2
    case Assign(_, r) => SizeE(r) + 2
    case Compound(_, _, r) => 2 + SizeE(r) + 3
    case Neg(_, r) => SizeE(r) + 1
    case Paren(r) => SizeE(r)
    case Bump(_, _, _) => 5
    case Bin(_, l, r) => SizeE(l) + SizeE(r) + 1
    case Call(f, args) => SizeE(f) + SizeArgs(args) + 2
  }

  function SizeArgs(es: Exprs): nat {
    match es
    case Nil => 0
    case Cons(e, t) => SizeE(e) + SizeArgs(t)
  }

  function SizePout(es: Exprs): nat {
    match es
    case Nil => 0
    case Cons(e, t) => SizeE(e) + 1 + SizePout(t)
  }

  function SizePops(n: nat): nat {
    if n == 0 then 0 else if n == 1 then 1 else 2
  }

  function SizeCond(c: OptExpr): nat {
    match c case NoExpr => 0 case SomeExpr(e) => SizeE(e) + 3
  }

  function SizeInc(c: OptExpr): nat {
    match c case NoExpr => 0 case SomeExpr(e) => 3 + SizeE(e) + 1 + 3
  }

  function SizeInit(i: OptVar): nat {
    match i case NoVar => 0 case SomeVar(_, e) => SizeE(e) + 2
  }

  function InitCount(i: OptVar): nat {
    match i case NoVar => 0 case SomeVar(_, _) => 1
  }

  function SizeS(s: Stmt): nat {
    match s
    case Eval(e) => SizeE(e)
    case Pout(es) => SizePout(es)
    case If(c, t, arms) => SizeE(c) + 3 + SizeS(t) + 3 + SizeArms(arms)
    case While(c, b) => SizeE(c) + 3 + SizeS(b) + 3
    case For(i, c, n, b) => SizeInit(i) + SizeCond(c) + SizeInc(n) + SizeS(b) + 3 + SizePops(InitCount(i))
    case Block(ds) => SizeD(ds) + SizePops(|Declared(ds)|)
    case Return(e) => SizeE(e) + 1
    case Back => 1
  }

  function SizeArms(a: Arms): nat {
    match a
    case End => 0
    case Else(s) => SizeS(s)
    case Elif(c, s, t) => SizeE(c) + 3 + SizeS(s) + 3 + SizeArms(t)
  }

  function SizeD(ds: Decls): nat {
    match ds
    case Done => 0
    case Then(Var(_, e), t) => SizeE(e) + 2 + SizeD(t)
    case Then(Do(s), t) => SizeS(s) + SizeD(t)
  }

  /** Entries a statement adds to the `cases` table: one per `if`, when it ends. */
  function IfsS(s: Stmt): nat {
    match s
    case Eval(_) | Pout(_) | Return(_) | Back => 0
    case If(_, t, arms) => IfsS(t) + IfsArms(arms) + 1
    case While(_, b) => IfsS(b)
    case For(_, _, _, b) => IfsS(b)
    case Block(ds) => IfsD(ds)
  }

  function IfsArms(a: Arms): nat {
    match a case End => 0 case Else(s) => IfsS(s) case Elif(_, s, t) => IfsS(s) + IfsArms(t)
  }

  function IfsD(ds: Decls): nat {
    match ds
    case Done => 0
    case Then(Var(_, _), t) => IfsD(t)
    case Then(Do(s), t) => IfsS(s) + IfsD(t)
  }

  function Least(a: nat, b: nat): nat {
    if a <= b then a else b
  }

  /** Cells that a statement leaves on the stack whatever path it takes: an expression
      statement keeps its value. */
  function Leaves(s: Stmt): nat {
    match s
    case Eval(_) => 1
    case If(_, t, arms) => Least(Leaves(t), LeavesArms(arms))
    case Block(ds) => LeavesD(ds)
    case _ => 0
  }

  function LeavesArms(a: Arms): nat {
    match a
    case End => 0
    case Else(s) => Leaves(s)
    case Elif(_, s, t) => Least(Leaves(s), LeavesArms(t))
  }

  function LeavesD(ds: Decls): nat {
    match ds
    case Done => 0
    case Then(Var(_, _), t) => LeavesD(t)
    case Then(Do(s), t) => Leaves(s) + LeavesD(t)
  }

  // --------------------------------------------------------------- layout

  predicate At1(ch: Chunk, pc: nat, op: Byte) {
    pc < |ch.code| && ch.code[pc] == op
  }

  predicate At2(ch: Chunk, pc: nat, op: Byte, a: int) {
    pc + 1 < |ch.code| && ch.code[pc] == op && ch.code[pc + 1] == a
  }

  /** A three-byte instruction whose 16-bit operand is `d`. */
  predicate At3(ch: Chunk, pc: nat, op: Byte, d: int) {
    pc + 2 < |ch.code| && ch.code[pc] == op && Operand(ch, pc + 1) == d
  }

  type Fns = map<Name, nat>

  predicate LaidE(e: Expr, names: seq<Name>, fns: Fns, ch: Chunk, pc: nat)
    decreases e
  {
    match e
    case Lit(v) =>
      At1(ch, pc, OP_CONSTANT) && pc + 1 < |ch.code| && ch.code[pc + 1] < |ch.consts| && ch.consts[ch.code[pc + 1]] == v
    case Local(x) => At2(ch, pc, OP_GET_LOCAL, Newest(names, x))
    case FuncRef(f) => f in fns && At2(ch, pc, OP_GET_OBJ, fns[f])
    case Assign(x, r) =>
      LaidE(r, names, fns, ch, pc) && At2(ch, pc + SizeE(r), OP_SET_LOCAL, Newest(names, x))
    case Compound(op, x, r) =>
      && At2(ch, pc, OP_GET_LOCAL, Newest(names, x))
      && LaidE(r, names, fns, ch, pc + 2)
      && At1(ch, pc + 2 + SizeE(r), OpByte(op))
      && At2(ch, pc + 2 + SizeE(r) + 1, OP_SET_LOCAL, Newest(names, Target(x, r)))
    case Neg(_, r) => LaidE(r, names, fns, ch, pc) && At1(ch, pc + SizeE(r), OP_NEG)
    case Paren(r) => LaidE(r, names, fns, ch, pc)
    case Bump(x, inc, _) =>
      && At2(ch, pc, OP_GET_LOCAL, Newest(names, x))
      && At1(ch, pc + 2, BumpByte(inc))
      && At2(ch, pc + 3, OP_SET_LOCAL, Newest(names, x))
    case Bin(op, l, r) =>
      && LaidE(l, names, fns, ch, pc)
      && LaidE(r, names, fns, ch, pc + SizeE(l))
      && At1(ch, pc + SizeE(l) + SizeE(r), OpByte(op))
    case Call(f, args) =>
      && LaidE(f, names, fns, ch, pc)
      && LaidArgs(args, names, fns, ch, pc + SizeE(f))
      && At2(ch, pc + SizeE(f) + SizeArgs(args), OP_CALL, Count(args))
  }

  predicate LaidArgs(es: Exprs, names: seq<Name>, fns: Fns, ch: Chunk, pc: nat)
    decreases es
  {
    match es
    case Nil => true
    case Cons(e, t) => LaidE(e, names, fns, ch, pc) && LaidArgs(t, names, fns, ch, pc + SizeE(e))
  }

  predicate LaidPout(es: Exprs, names: seq<Name>, fns: Fns, ch: Chunk, pc: nat)
    decreases es
  {
    match es
    case Nil => true
    case Cons(e, t) =>
      && LaidE(e, names, fns, ch, pc)
      && At1(ch, pc + SizeE(e), OP_PRINT)
      && LaidPout(t, names, fns, ch, pc + SizeE(e) + 1)
  }

  /** What `end_scope` emits for a scope with `n` locals. */
  predicate LaidPops(n: nat, ch: Chunk, pc: nat) {
    && (n == 1 ==> At1(ch, pc, OP_POP))
    && (n > 1 ==> At2(ch, pc, OP_POPN, n - 1))
  }

  /** The statement lies at `pc`; the first `cases` entry it adds has index `nc`. */
  predicate LaidS(s: Stmt, names: seq<Name>, fns: Fns, ch: Chunk, pc: nat, nc: nat)
    decreases s
  {
    match s
    case Eval(e) => LaidE(e, names, fns, ch, pc)
    case Pout(es) => LaidPout(es, names, fns, ch, pc)
    case Return(e) => LaidE(e, names, fns, ch, pc) && At1(ch, pc + SizeE(e), OP_RETURN)
    case Back => At1(ch, pc, OP_RETURN)
    case While(c, b) =>
      var j := pc + SizeE(c);
      && LaidE(c, names, fns, ch, pc)
      && At3(ch, j, OP_JMPF, SizeS(b) + 3)
      && LaidS(b, names, fns, ch, j + 3, nc)
      && At3(ch, j + 3 + SizeS(b), OP_LOOP, SizeE(c) + 3 + SizeS(b) + 3)
    case If(c, t, arms) =>
      var j := pc + SizeE(c);
      var e := j + 3 + SizeS(t);
      && LaidE(c, names, fns, ch, pc)
      && At3(ch, j, OP_JMPF, SizeS(t) + 3)
      && LaidS(t, names, fns, ch, j + 3, nc)
      && At3(ch, e, OP_JMP, SizeArms(arms))
      && LaidArms(arms, names, fns, ch, e + 3, nc + IfsS(t))
      && nc + IfsS(s) <= |ch.cases|
      && ch.cases[nc + IfsS(s) - 1] == pc + SizeS(s)
    case Block(ds) =>
      && LaidD(ds, names, fns, ch, pc, nc)
      && LaidPops(|Declared(ds)|, ch, pc + SizeD(ds))
    case For(i, c, n, b) =>
      var names' := match i case NoVar => names case SomeVar(x, _) => names + [x];
      var p := pc + SizeInit(i);
      && (i.SomeVar? ==>
            && LaidE(i.e, names', fns, ch, pc)
            && At2(ch, pc + SizeE(i.e), OP_SET_LOCAL, |names|))
      && LaidCond(c, names', fns, ch, p, SizeInc(n) + SizeS(b) + 3)
      && LaidInc(n, names', fns, ch, p + SizeCond(c), SizeCond(c))
      && LaidS(b, names', fns, ch, p + SizeCond(c) + SizeInc(n), nc)
      && At3(ch, p + SizeCond(c) + SizeInc(n) + SizeS(b), OP_LOOP, BackFor(c, n, b))
      && LaidPops(InitCount(i), ch, p + SizeCond(c) + SizeInc(n) + SizeS(b) + 3)
  }

  /** The distance of a `for` body's back jump: to the increment, else to the condition. */
  function BackFor(c: OptExpr, n: OptExpr, b: Stmt): nat {
    SizeS(b) + 3 + (match n case NoExpr => SizeCond(c) case SomeExpr(e) => SizeE(e) + 1 + 3)
  }

  /** A loop condition followed by the jump out, `d` bytes ahead. */
  predicate LaidCond(c: OptExpr, names: seq<Name>, fns: Fns, ch: Chunk, pc: nat, d: nat) {
    match c
    case NoExpr => true
    case SomeExpr(e) => LaidE(e, names, fns, ch, pc) && At3(ch, pc + SizeE(e), OP_JMPF, d)
  }

  /** The increment of a `for`: skipped on the way in, then jumping `back` bytes before itself. */
  predicate LaidInc(n: OptExpr, names: seq<Name>, fns: Fns, ch: Chunk, pc: nat, back: nat) {
    match n
    case NoExpr => true
    case SomeExpr(e) =>
      && At3(ch, pc, OP_JMP, SizeE(e) + 1 + 3)
      && LaidE(e, names, fns, ch, pc + 3)
      && At1(ch, pc + 3 + SizeE(e), OP_POP)
      && At3(ch, pc + 3 + SizeE(e) + 1, OP_LOOP, back + 3 + SizeE(e) + 1 + 3)
  }

  predicate LaidArms(a: Arms, names: seq<Name>, fns: Fns, ch: Chunk, pc: nat, nc: nat)
    decreases a
  {
    match a
    case End => true
    case Else(s) => LaidS(s, names, fns, ch, pc, nc)
    case Elif(c, s, t) =>
      var j := pc + SizeE(c);
      && LaidE(c, names, fns, ch, pc)
      && At3(ch, j, OP_JMPF, SizeS(s) + 3)
      && LaidS(s, names, fns, ch, j + 3, nc)
      && At3(ch, j + 3 + SizeS(s), OP_JMPL, nc + IfsS(s))
      && LaidArms(t, names, fns, ch, j + 3 + SizeS(s) + 3, nc + IfsS(s))
  }

  predicate LaidD(ds: Decls, names: seq<Name>, fns: Fns, ch: Chunk, pc: nat, nc: nat)
    decreases ds
  {
    match ds
    case Done => true
    case Then(Var(x, e), t) =>
      && LaidE(e, names + [x], fns, ch, pc)
      && At2(ch, pc + SizeE(e), OP_SET_LOCAL, |names|)
      && LaidD(t, names + [x], fns, ch, pc + SizeE(e) + 2, nc)
    case Then(Do(s), t) =>
      && LaidS(s, names, fns, ch, pc, nc)
      && LaidD(t, names, fns, ch, pc + SizeS(s), nc + IfsS(s))
  }

  /** A compiled function: its parameter instructions, its body, its final return. */
  predicate FnCode(d: FunDef, fns: Fns, ch: Chunk) {
    var n := |d.params|;
    && (forall k :: 0 <= k < n ==> At2(ch, 2 * k, OP_SET_LOCAL_PARAM, k))
    && LaidD(d.body, d.params, fns, ch, 2 * n, 0)
    && At1(ch, 2 * n + SizeD(d.body), OP_RETURN)
    && |ch.cases| == IfsD(d.body)
  }
}
