/** The compiler's state as a value, and what compiling an expression adds to it. */
module Emission {
  import opened Values
  import opened Syntax
  import opened Bytecode
  import opened Layout

  /** An entry of the compiler's `local` array. */
  datatype Variable = Variable(name: Name, depth: nat)

  /** The record `array`: how the identifier parsed last is read and written. */
  datatype Current = Current(slot: Byte, store: Byte, load: Byte)

  /** `crashed` is a call through an empty entry of the rule table. */
  datatype Parser = Parser(cur: Token, pre: Token, rest: seq<Token>, flag: bool, crashed: bool)

  datatype State = State(p: Parser, locals: seq<Variable>, scope: nat, latest: Current, ch: Chunk)

  const LOCAL_COUNT: nat := 255

  function Names(locals: seq<Variable>): (ns: seq<Name>)
    ensures |ns| == |locals|
    ensures forall i :: 0 <= i < |ns| ==> ns[i] == locals[i].name
  {
    seq(|locals|, i requires 0 <= i < |locals| => locals[i].name)
  }

  lemma NamesAppend(locals: seq<Variable>, v: Variable)
    ensures Names(locals + [v]) == Names(locals) + [v.name]
  {
  }

  predicate Sees(a: State, ts: seq<Token>) {
    [a.p.cur] + a.p.rest == ts
  }

  predicate Clean(a: State) {
    !a.p.flag && !a.p.crashed
  }

  function Emit(s: State, bs: seq<Byte>): State {
    s.(ch := s.ch.(code := s.ch.code + bs))
  }

  // ------------------------------------------------------ well-formed input

  /** The literals of an expression, in order. */
  function LitsE(e: Expr): seq<Element> {
    match e
    case Lit(v) => [v]
    case Local(_) | FuncRef(_) | Bump(_, _, _) => []
    case Assign(_, r) => LitsE(r)
    case Compound(_, _, r) => LitsE(r)
    case Neg(_, r) => LitsE(r)
    case Paren(r) => LitsE(r)
    case Bin(_, l, r) => LitsE(l) + LitsE(r)
    case Call(f, args) => LitsE(f) + LitsArgs(args)
  }

  function LitsArgs(es: Exprs): seq<Element> {
    match es case Nil => [] case Cons(e, t) => LitsE(e) + LitsArgs(t)
  }

  /** Every identifier is a variable in scope or a function declared before. A function's name
      hides a variable of that name (`id` asks `resolve_call` first). */
  predicate ResolvesE(e: Expr, names: seq<Name>, fns: Fns) {
    match e
    case Lit(v) => v.Num? || v.Bool? || v.Null?
    case Local(x) => IsVariable(x, names, fns)
    case FuncRef(f) => f in fns && fns[f] < 256
    case Assign(x, r) => IsVariable(x, names, fns) && ResolvesE(r, names, fns)
    case Compound(op, x, r) => IsVariable(x, names, fns) && Arithmetic(op) && ResolvesE(r, names, fns)
    case Neg(_, r) => ResolvesE(r, names, fns)
    case Paren(r) => ResolvesE(r, names, fns)
    case Bump(x, _, _) => IsVariable(x, names, fns)
    case Bin(_, l, r) => ResolvesE(l, names, fns) && ResolvesE(r, names, fns)
    case Call(f, args) => ResolvesE(f, names, fns) && ResolvesArgs(args, names, fns) && Count(args) < 256
  }

  predicate ResolvesArgs(es: Exprs, names: seq<Name>, fns: Fns) {
    match es case Nil => true case Cons(e, t) => ResolvesE(e, names, fns) && ResolvesArgs(t, names, fns)
  }

  predicate IsVariable(x: Name, names: seq<Name>, fns: Fns) {
    x in names && x !in fns && |names| <= LOCAL_COUNT
  }

  // ------------------------------------------------------------------ frames

  /** The chunks agree on code in `[lo, hi)`; constants and cases are only added. */
  predicate Agree(ch: Chunk, ch': Chunk, lo: nat, hi: nat) {
    && lo <= hi <= |ch.code| && hi <= |ch'.code|
    && (forall i :: lo <= i < hi ==> ch'.code[i] == ch.code[i])
    && ch.consts <= ch'.consts
    && ch.cases <= ch'.cases
  }

  predicate Grows(ch: Chunk, ch': Chunk) {
    ch.code <= ch'.code && ch.consts <= ch'.consts && ch.cases <= ch'.cases
  }

  lemma {:induction false} FrameE(e: Expr, names: seq<Name>, fns: Fns, ch: Chunk, ch': Chunk, pc: nat)
    requires LaidE(e, names, fns, ch, pc) && Agree(ch, ch', pc, pc + SizeE(e))
    ensures LaidE(e, names, fns, ch', pc)
    decreases e, 1
  {
    hide Newest, Target;
    match e
    case Assign(_, _) => FrameAssign(e, names, fns, ch, ch', pc);
    case Compound(_, _, r) => FrameCompound(e, names, fns, ch, ch', pc);
    case Neg(_, _) => FrameNeg(e, names, fns, ch, ch', pc);
    case Paren(r) => FrameE(r, names, fns, ch, ch', pc);
    case Bin(_, _, _) => FrameBin(e, names, fns, ch, ch', pc);
    case Call(_, _) => FrameCall(e, names, fns, ch, ch', pc);
    case _ =>
  }

  lemma {:induction false} FrameAssign(e: Expr, names: seq<Name>, fns: Fns, ch: Chunk, ch': Chunk, pc: nat)
    requires LaidE(e, names, fns, ch, pc) && Agree(ch, ch', pc, pc + SizeE(e))
    requires e.Assign?
    ensures LaidE(e, names, fns, ch', pc)
    decreases e, 0
  {
    hide Newest;
    FrameE(e.e, names, fns, ch, ch', pc);
  }

  lemma {:induction false} FrameNeg(e: Expr, names: seq<Name>, fns: Fns, ch: Chunk, ch': Chunk, pc: nat)
    requires LaidE(e, names, fns, ch, pc) && Agree(ch, ch', pc, pc + SizeE(e))
    requires e.Neg?
    ensures LaidE(e, names, fns, ch', pc)
    decreases e, 0
  {
    FrameE(e.e, names, fns, ch, ch', pc);
  }

  lemma {:induction false} FrameBin(e: Expr, names: seq<Name>, fns: Fns, ch: Chunk, ch': Chunk, pc: nat)
    requires LaidE(e, names, fns, ch, pc) && Agree(ch, ch', pc, pc + SizeE(e))
    requires e.Bin?
    ensures LaidE(e, names, fns, ch', pc)
    decreases e, 0
  {
    var m := pc + SizeE(e.l);
    assert LaidE(e.l, names, fns, ch, pc) && LaidE(e.r, names, fns, ch, m) && At1(ch, m + SizeE(e.r), OpByte(e.op));
    assert LaidE(e.l, names, fns, ch', pc) && LaidE(e.r, names, fns, ch', m) by {
      hide LaidE, SizeE;
      FrameE(e.l, names, fns, ch, ch', pc);
      FrameE(e.r, names, fns, ch, ch', m);
    }
  }

  lemma {:induction false} FrameCompound(e: Expr, names: seq<Name>, fns: Fns, ch: Chunk, ch': Chunk, pc: nat)
    requires LaidE(e, names, fns, ch, pc) && Agree(ch, ch', pc, pc + SizeE(e))
    requires e.Compound?
    ensures LaidE(e, names, fns, ch', pc)
    decreases e, 0
  {
    hide Newest, Target;
    FrameE(e.e, names, fns, ch, ch', pc + 2);
  }

  lemma {:induction false} FrameCall(e: Expr, names: seq<Name>, fns: Fns, ch: Chunk, ch': Chunk, pc: nat)
    requires LaidE(e, names, fns, ch, pc) && Agree(ch, ch', pc, pc + SizeE(e))
    requires e.Call?
    ensures LaidE(e, names, fns, ch', pc)
    decreases e, 0
  {
    var m := pc + SizeE(e.fn);
    assert LaidE(e.fn, names, fns, ch, pc) && LaidArgs(e.args, names, fns, ch, m)
           && At2(ch, m + SizeArgs(e.args), OP_CALL, Count(e.args));
    assert LaidE(e.fn, names, fns, ch', pc) && LaidArgs(e.args, names, fns, ch', m) by {
      hide LaidE, SizeE, LaidArgs, SizeArgs;
      FrameE(e.fn, names, fns, ch, ch', pc);
      FrameArgs(e.args, names, fns, ch, ch', m);
    }
  }

  lemma {:induction false} FrameArgs(es: Exprs, names: seq<Name>, fns: Fns, ch: Chunk, ch': Chunk, pc: nat)
    requires LaidArgs(es, names, fns, ch, pc) && Agree(ch, ch', pc, pc + SizeArgs(es))
    ensures LaidArgs(es, names, fns, ch', pc)
    decreases es, 0
  {
    hide LaidE, SizeE;
    match es
    case Nil =>
    case Cons(e, t) =>
      FrameE(e, names, fns, ch, ch', pc);
      FrameArgs(t, names, fns, ch, ch', pc + SizeE(e));
  }

  // ------------------------------------------------------- emitted expressions

  predicate SameScope(a: State, b: State) {
    b.locals == a.locals && b.scope == a.scope && b.p.flag == a.p.flag && b.p.crashed == a.p.crashed
  }

  predicate Points(a: State, b: State, o: OptName) {
    match o
    case NoName => b.latest == a.latest
    case SomeName(x) => b.latest.store == OP_SET_LOCAL && b.latest.slot == Newest(Names(a.locals), x)
  }

  /** From `a` to `b` the code of `e`, and nothing else, was appended. */
  predicate EmittedE(fns: Fns, a: State, b: State, e: Expr) {
    && SameScope(a, b)
    && Grows(a.ch, b.ch)
    && |b.ch.code| == |a.ch.code| + SizeE(e)
    && b.ch.consts == a.ch.consts + LitsE(e)
    && b.ch.cases == a.ch.cases
    && LaidE(e, Names(a.locals), fns, b.ch, |a.ch.code|)
    && Points(a, b, LastOf(e))
  }

  predicate EmittedArgs(fns: Fns, a: State, b: State, es: Exprs) {
    && SameScope(a, b)
    && Grows(a.ch, b.ch)
    && |b.ch.code| == |a.ch.code| + SizeArgs(es)
    && b.ch.consts == a.ch.consts + LitsArgs(es)
    && b.ch.cases == a.ch.cases
    && LaidArgs(es, Names(a.locals), fns, b.ch, |a.ch.code|)
    && Points(a, b, LastOfArgs(es))
  }

  lemma EmitUnary(fns: Fns, a: State, b: State, e: Expr, bang: bool)
    requires EmittedE(fns, a, b, e)
    ensures EmittedE(fns, a, Emit(b, [OP_NEG]), Neg(bang, e))
  {
    FrameE(e, Names(a.locals), fns, b.ch, Emit(b, [OP_NEG]).ch, |a.ch.code|);
  }

  lemma EmitBin(fns: Fns, a: State, b: State, c: State, op: BinOp, l: Expr, r: Expr)
    requires EmittedE(fns, a, b, l) && EmittedE(fns, b, c, r)
    ensures EmittedE(fns, a, Emit(c, [OpByte(op)]), Bin(op, l, r))
  {
    hide LaidE, SizeE, LitsE, LastOf;
    var d := Emit(c, [OpByte(op)]);
    FrameE(l, Names(a.locals), fns, b.ch, d.ch, |a.ch.code|);
    FrameE(r, Names(a.locals), fns, c.ch, d.ch, |b.ch.code|);
    LaidBin(op, l, r, Names(a.locals), fns, d.ch, |a.ch.code|);
  }

  lemma LaidBin(op: BinOp, l: Expr, r: Expr, names: seq<Name>, fns: Fns, ch: Chunk, pc: nat)
    requires LaidE(l, names, fns, ch, pc) && LaidE(r, names, fns, ch, pc + SizeE(l))
    requires At1(ch, pc + SizeE(l) + SizeE(r), OpByte(op))
    ensures LaidE(Bin(op, l, r), names, fns, ch, pc)
    ensures SizeE(Bin(op, l, r)) == SizeE(l) + SizeE(r) + 1
    ensures LitsE(Bin(op, l, r)) == LitsE(l) + LitsE(r)
    ensures LastOf(Bin(op, l, r)) == Later(LastOf(l), LastOf(r))
  {
  }

  /** OP_GET_LOCAL or OP_GET_OBJ for an identifier. */
  lemma EmitLocal(fns: Fns, a: State, b: State, x: Name)
    requires IsVariable(x, Names(a.locals), fns)
    requires b == Emit(a, [OP_GET_LOCAL, Newest(Names(a.locals), x)]).(p := b.p, latest := b.latest)
    requires b.p.flag == a.p.flag && b.p.crashed == a.p.crashed && Points(a, b, SomeName(x))
    ensures EmittedE(fns, a, b, Local(x))
  {
  }

  lemma EmitFunc(fns: Fns, a: State, b: State, f: Name)
    requires f in fns && fns[f] < 256
    requires b == Emit(a, [OP_GET_OBJ, fns[f]]).(p := b.p)
    requires b.p.flag == a.p.flag && b.p.crashed == a.p.crashed
    ensures EmittedE(fns, a, b, FuncRef(f))
  {
  }

  lemma EmitLit(fns: Fns, a: State, b: State, v: Element)
    requires |a.ch.consts| < 256
    requires b == Emit(a.(ch := a.ch.(consts := a.ch.consts + [v])), [OP_CONSTANT, |a.ch.consts|]).(p := b.p)
    requires b.p.flag == a.p.flag && b.p.crashed == a.p.crashed
    ensures EmittedE(fns, a, b, Lit(v))
  {
  }

  /** `x = e`: the right-hand side, compiled after the identifier was recorded, and the store. */
  lemma EmitAssign(fns: Fns, a: State, a1: State, b: State, x: Name, e: Expr)
    requires IsVariable(x, Names(a.locals), fns)
    requires a1 == a.(p := a1.p, latest := a1.latest) && Points(a, a1, SomeName(x)) && SameScope(a, a1)
    requires EmittedE(fns, a1, b, e)
    ensures EmittedE(fns, a, Emit(b, [OP_SET_LOCAL, Newest(Names(a.locals), x)]), Assign(x, e))
  {
    FrameE(e, Names(a.locals), fns, b.ch, Emit(b, [OP_SET_LOCAL, Newest(Names(a.locals), x)]).ch, |a.ch.code|);
  }

  lemma EmitBump(fns: Fns, a: State, b: State, x: Name, inc: bool, before: bool)
    requires EmittedE(fns, a, b, Local(x))
    ensures EmittedE(fns, a, Emit(b, [BumpByte(inc), b.latest.store, b.latest.slot]), Bump(x, inc, before))
  {
  }

  lemma EmitCompound(fns: Fns, a: State, b: State, c: State, op: BinOp, x: Name, r: Expr)
    requires EmittedE(fns, a, b, Local(x)) && EmittedE(fns, b, c, r)
    ensures EmittedE(fns, a, Emit(c, [OpByte(op), c.latest.store, c.latest.slot]), Compound(op, x, r))
  {
    hide LaidE, OpByte, Newest, IsVariable;
    var d := Emit(c, [OpByte(op), c.latest.store, c.latest.slot]);
    LocalLaid(x, Names(a.locals), fns, b.ch, |a.ch.code|);
    FrameE(r, Names(a.locals), fns, c.ch, d.ch, |b.ch.code|);
    LaidCompound(op, x, r, Names(a.locals), fns, d.ch, |a.ch.code|);
  }

  lemma LocalLaid(x: Name, names: seq<Name>, fns: Fns, ch: Chunk, pc: nat)
    requires LaidE(Local(x), names, fns, ch, pc)
    ensures At2(ch, pc, OP_GET_LOCAL, Newest(names, x))
  {
  }

  lemma LaidCompound(op: BinOp, x: Name, r: Expr, names: seq<Name>, fns: Fns, ch: Chunk, pc: nat)
    requires At2(ch, pc, OP_GET_LOCAL, Newest(names, x)) && LaidE(r, names, fns, ch, pc + 2)
    requires At1(ch, pc + 2 + SizeE(r), OpByte(op))
             && At2(ch, pc + 2 + SizeE(r) + 1, OP_SET_LOCAL, Newest(names, Target(x, r)))
    ensures LaidE(Compound(op, x, r), names, fns, ch, pc)
  {
    hide Newest, Target, OpByte;
  }

  lemma EmitCall(fns: Fns, a: State, b: State, c: State, f: Expr, args: Exprs)
    requires EmittedE(fns, a, b, f) && EmittedArgs(fns, b, c, args) && Count(args) < 256
    ensures EmittedE(fns, a, Emit(c, [OP_CALL, Count(args)]), Call(f, args))
  {
    hide LaidE, SizeE, LaidArgs, SizeArgs, LitsE, LitsArgs, LastOf, LastOfArgs, Count;
    var d := Emit(c, [OP_CALL, Count(args)]);
    FrameE(f, Names(a.locals), fns, b.ch, d.ch, |a.ch.code|);
    FrameArgs(args, Names(a.locals), fns, c.ch, d.ch, |b.ch.code|);
    LaidCall(f, args, Names(a.locals), fns, d.ch, |a.ch.code|);
  }

  lemma LaidCall(f: Expr, args: Exprs, names: seq<Name>, fns: Fns, ch: Chunk, pc: nat)
    requires LaidE(f, names, fns, ch, pc) && LaidArgs(args, names, fns, ch, pc + SizeE(f))
    requires At2(ch, pc + SizeE(f) + SizeArgs(args), OP_CALL, Count(args))
    ensures LaidE(Call(f, args), names, fns, ch, pc)
    ensures SizeE(Call(f, args)) == SizeE(f) + SizeArgs(args) + 2
    ensures LitsE(Call(f, args)) == LitsE(f) + LitsArgs(args)
    ensures LastOf(Call(f, args)) == Later(LastOf(f), LastOfArgs(args))
  {
    hide LaidArgs, SizeArgs, LitsArgs, LastOfArgs, Later, Newest;
  }

  /** Changes of the tokens alone do not matter. */
  lemma EmittedTokens(fns: Fns, a: State, a1: State, b: State, b1: State, e: Expr)
    requires EmittedE(fns, a, b, e)
    requires a1 == a.(p := a1.p) && SameScope(a, a1)
    requires b1 == b.(p := b1.p) && SameScope(b, b1)
    ensures EmittedE(fns, a1, b1, e)
  {
  }

  // ---------------------------------------------------------- argument lists

  function Snoc(es: Exprs, e: Expr): Exprs {
    match es case Nil => Cons(e, Nil) case Cons(h, t) => Cons(h, Snoc(t, e))
  }

  function Joined(es: Exprs, fs: Exprs): Exprs {
    match es case Nil => fs case Cons(h, t) => Cons(h, Joined(t, fs))
  }

  lemma {:induction false} JoinedSnoc(es: Exprs, e: Expr, t: Exprs)
    ensures Joined(Snoc(es, e), t) == Joined(es, Cons(e, t))
  {
    match es case Nil => case Cons(_, r) => JoinedSnoc(r, e, t);
  }

  lemma {:induction false} JoinedNil(es: Exprs)
    ensures Joined(es, Nil) == es
  {
    match es case Nil => case Cons(_, r) => JoinedNil(r);
  }

  lemma {:induction false} SnocFacts(es: Exprs, e: Expr)
    ensures SizeArgs(Snoc(es, e)) == SizeArgs(es) + SizeE(e)
    ensures LitsArgs(Snoc(es, e)) == LitsArgs(es) + LitsE(e)
    ensures Count(Snoc(es, e)) == Count(es) + 1
    ensures LastOfArgs(Snoc(es, e)) == Later(LastOfArgs(es), LastOf(e))
  {
    match es case Nil => case Cons(_, r) => SnocFacts(r, e);
  }

  lemma {:induction false} LaidSnoc(es: Exprs, e: Expr, names: seq<Name>, fns: Fns, ch: Chunk, pc: nat)
    requires LaidArgs(es, names, fns, ch, pc) && LaidE(e, names, fns, ch, pc + SizeArgs(es))
    ensures LaidArgs(Snoc(es, e), names, fns, ch, pc)
    decreases es
  {
    hide LaidE, SizeE;
    match es case Nil => case Cons(h, r) => LaidSnoc(r, e, names, fns, ch, pc + SizeE(h));
  }

  lemma EmitSnoc(fns: Fns, a: State, b: State, c: State, es: Exprs, e: Expr)
    requires EmittedArgs(fns, a, b, es) && EmittedE(fns, b, c, e)
    ensures EmittedArgs(fns, a, c, Snoc(es, e))
  {
    hide LaidE, LaidArgs, SizeE, SizeArgs, LitsE, LitsArgs, LastOf, LastOfArgs;
    FrameArgs(es, Names(a.locals), fns, b.ch, c.ch, |a.ch.code|);
    LaidSnoc(es, e, Names(a.locals), fns, c.ch, |a.ch.code|);
    SnocFacts(es, e);
  }

  lemma EmitNoArgs(fns: Fns, a: State, b: State)
    requires b == a.(p := b.p) && SameScope(a, b)
    ensures EmittedArgs(fns, a, b, Nil)
  {
  }

  lemma EmittedArgsTokens(fns: Fns, a: State, b: State, b1: State, es: Exprs)
    requires EmittedArgs(fns, a, b, es)
    requires b1 == b.(p := b1.p) && SameScope(b, b1)
    ensures EmittedArgs(fns, a, b1, es)
  {
  }
}
