/** What compiling a statement adds to the compiler's state, patches included. */
module StmtEmission {
  import opened Values
  import opened Syntax
  import opened Bytecode
  import opened Layout
  import opened Emission

  // ------------------------------------------------------ well-formed input

  function LitsOpt(e: OptExpr): seq<Element> {
    match e case NoExpr => [] case SomeExpr(x) => LitsE(x)
  }

  function LitsInit(i: OptVar): seq<Element> {
    match i case NoVar => [] case SomeVar(_, e) => LitsE(e)
  }

  function LitsS(s: Stmt): seq<Element> {
    match s
    case Eval(e) => LitsE(e)
    case Pout(es) => LitsArgs(es)
    case If(c, t, arms) => LitsE(c) + LitsS(t) + LitsArms(arms)
    case While(c, b) => LitsE(c) + LitsS(b)
    case For(i, c, n, b) => LitsInit(i) + LitsOpt(c) + LitsOpt(n) + LitsS(b)
    case Block(ds) => LitsD(ds)
    case Return(e) => LitsE(e)
    case Back => []
  }

  function LitsArms(a: Arms): seq<Element> {
    match a
    case End => []
    case Else(s) => LitsS(s)
    case Elif(c, s, t) => LitsE(c) + LitsS(s) + LitsArms(t)
  }

  function LitsD(ds: Decls): seq<Element> {
    match ds
    case Done => []
    case Then(Var(_, e), t) => LitsE(e) + LitsD(t)
    case Then(Do(s), t) => LitsS(s) + LitsD(t)
  }

  /** `declare_var` meets the name in the current scope. */
  predicate Clashes(locals: seq<Variable>, scope: nat, x: Name) {
    exists i :: 0 <= i < |locals| && locals[i].name == x && InCurrentScope(locals, scope, i)
  }

  /** The scan from the newest variable gets as far as `i`. */
  predicate InCurrentScope(locals: seq<Variable>, scope: nat, i: nat) {
    forall j :: i <= j < |locals| ==> locals[j].depth == 0 || locals[j].depth >= scope
  }

  /** A declaration clashes with a variable of the scope that is open. The slots of depth 0, which
      every compiler begins with, count as well as long as no variable of an outer scope lies above
      them. */
  lemma ClashesExactly(locals: seq<Variable>, scope: nat, x: Name)
    requires scope > 0 && forall i :: 0 <= i < |locals| ==> locals[i].depth <= scope
    requires forall i, j :: 0 <= i < j < |locals| ==> locals[i].depth <= locals[j].depth
    ensures Clashes(locals, scope, x) <==>
            (exists i :: 0 <= i < |locals| && locals[i].name == x && locals[i].depth == scope)
            || ((exists i :: 0 <= i < |locals| && locals[i].name == x && locals[i].depth == 0)
                && forall i :: 0 <= i < |locals| ==> locals[i].depth == 0 || locals[i].depth == scope)
    ensures MayDeclare(locals, scope, x) <==> |locals| < 255 && !Clashes(locals, scope, x)
  {
    if i :| 0 <= i < |locals| && locals[i].name == x && locals[i].depth == scope {
      assert InCurrentScope(locals, scope, i);
    }
    if i :| 0 <= i < |locals| && locals[i].name == x && locals[i].depth == 0 {
      if forall j :: 0 <= j < |locals| ==> locals[j].depth == 0 || locals[j].depth == scope {
        assert InCurrentScope(locals, scope, i);
      }
    }
  }

  /** A following `elif` or `else` would be taken as part of the statement. */
  predicate Open(s: Stmt) {
    match s
    case If(_, _, arms) => OpenArms(arms)
    case While(_, b) => Open(b)
    case For(_, _, _, b) => Open(b)
    case _ => false
  }

  predicate OpenArms(a: Arms) {
    match a case End => true case Else(s) => Open(s) case Elif(_, _, t) => OpenArms(t)
  }

  predicate ResolvesOpt(e: OptExpr, names: seq<Name>, fns: Fns) {
    match e case NoExpr => true case SomeExpr(x) => ResolvesE(x, names, fns)
  }

  predicate MayDeclare(locals: seq<Variable>, scope: nat, x: Name) {
    scope > 0 && |locals| < LOCAL_COUNT && !Clashes(locals, scope, x)
  }

  predicate ResolvesS(s: Stmt, locals: seq<Variable>, scope: nat, fns: Fns, fn: bool)
    decreases s
  {
    match s
    case Eval(e) => ResolvesE(e, Names(locals), fns)
    case Pout(es) => es.Cons? && ResolvesArgs(es, Names(locals), fns)
    case Return(e) => fn && ResolvesE(e, Names(locals), fns)
    case Back => fn
    case While(c, b) => ResolvesE(c, Names(locals), fns) && ResolvesS(b, locals, scope, fns, fn)
    case If(c, t, arms) =>
      && ResolvesE(c, Names(locals), fns)
      && ResolvesS(t, locals, scope, fns, fn)
      && ResolvesArms(arms, locals, scope, fns, fn)
      && (arms.End? || !Open(t))
    case Block(ds) => scope + 1 < 256 && ResolvesD(ds, locals, scope + 1, fns, fn)
    case For(i, c, n, b) =>
      var inner := match i case NoVar => locals case SomeVar(x, _) => locals + [Variable(x, scope + 1)];
      && scope + 1 < 256
      && (i.SomeVar? ==> MayDeclare(locals, scope + 1, i.x) && ResolvesE(i.e, Names(inner), fns))
      && ResolvesOpt(c, Names(inner), fns)
      && ResolvesOpt(n, Names(inner), fns)
      && ResolvesS(b, inner, scope + 1, fns, fn)
  }

  predicate ResolvesArms(a: Arms, locals: seq<Variable>, scope: nat, fns: Fns, fn: bool)
    decreases a
  {
    match a
    case End => true
    case Else(s) => ResolvesS(s, locals, scope, fns, fn)
    case Elif(c, s, t) =>
      && ResolvesE(c, Names(locals), fns)
      && ResolvesS(s, locals, scope, fns, fn)
      && ResolvesArms(t, locals, scope, fns, fn)
      && (t.End? || !Open(s))
  }

  predicate ResolvesD(ds: Decls, locals: seq<Variable>, scope: nat, fns: Fns, fn: bool)
    decreases ds
  {
    match ds
    case Done => true
    case Then(Var(x, e), t) =>
      var inner := locals + [Variable(x, scope)];
      MayDeclare(locals, scope, x) && ResolvesE(e, Names(inner), fns) && ResolvesD(t, inner, scope, fns, fn)
    case Then(Do(s), t) => ResolvesS(s, locals, scope, fns, fn) && ResolvesD(t, locals, scope, fns, fn)
  }

  // ------------------------------------------------------------------ frames

  lemma {:induction false} FramePout(es: Exprs, names: seq<Name>, fns: Fns, ch: Chunk, ch': Chunk, pc: nat)
    requires LaidPout(es, names, fns, ch, pc) && Agree(ch, ch', pc, pc + SizePout(es))
    ensures LaidPout(es, names, fns, ch', pc)
    decreases es
  {
    hide LaidE, SizeE;
    match es
    case Nil =>
    case Cons(e, t) =>
      FrameE(e, names, fns, ch, ch', pc);
      FramePout(t, names, fns, ch, ch', pc + SizeE(e) + 1);
  }

  lemma FrameCond(c: OptExpr, names: seq<Name>, fns: Fns, ch: Chunk, ch': Chunk, pc: nat, d: nat)
    requires LaidCond(c, names, fns, ch, pc, d) && Agree(ch, ch', pc, pc + SizeCond(c))
    ensures LaidCond(c, names, fns, ch', pc, d)
  {
    hide LaidE, SizeE;
    if c.SomeExpr? {
      FrameE(c.e, names, fns, ch, ch', pc);
    }
  }

  lemma FrameInc(c: OptExpr, names: seq<Name>, fns: Fns, ch: Chunk, ch': Chunk, pc: nat, d: nat)
    requires LaidInc(c, names, fns, ch, pc, d) && Agree(ch, ch', pc, pc + SizeInc(c))
    ensures LaidInc(c, names, fns, ch', pc, d)
  {
    hide LaidE, SizeE;
    if c.SomeExpr? {
      FrameE(c.e, names, fns, ch, ch', pc + 3);
    }
  }

  lemma {:induction false} FrameS(s: Stmt, names: seq<Name>, fns: Fns, ch: Chunk, ch': Chunk, pc: nat, nc: nat)
    requires LaidS(s, names, fns, ch, pc, nc) && Agree(ch, ch', pc, pc + SizeS(s))
    ensures LaidS(s, names, fns, ch', pc, nc)
    decreases s, 1
  {
    hide LaidE, SizeE, LaidPout, SizePout;
    match s
    case Eval(e) => FrameE(e, names, fns, ch, ch', pc);
    case Pout(es) => FramePout(es, names, fns, ch, ch', pc);
    case Return(e) => FrameE(e, names, fns, ch, ch', pc);
    case Back =>
    case While(_, _) => FrameWhile(s, names, fns, ch, ch', pc, nc);
    case If(_, _, _) => FrameIf(s, names, fns, ch, ch', pc, nc);
    case Block(ds) => FrameD(ds, names, fns, ch, ch', pc, nc);
    case For(_, _, _, _) => FrameFor(s, names, fns, ch, ch', pc, nc);
  }

  lemma {:induction false} FrameWhile(s: Stmt, names: seq<Name>, fns: Fns, ch: Chunk, ch': Chunk, pc: nat, nc: nat)
    requires s.While? && LaidS(s, names, fns, ch, pc, nc) && Agree(ch, ch', pc, pc + SizeS(s))
    ensures LaidS(s, names, fns, ch', pc, nc)
    decreases s, 0
  {
    hide LaidE, SizeE;
    FrameE(s.c, names, fns, ch, ch', pc);
    FrameS(s.body, names, fns, ch, ch', pc + SizeE(s.c) + 3, nc);
  }

  lemma {:induction false} FrameIf(s: Stmt, names: seq<Name>, fns: Fns, ch: Chunk, ch': Chunk, pc: nat, nc: nat)
    requires s.If? && LaidS(s, names, fns, ch, pc, nc) && Agree(ch, ch', pc, pc + SizeS(s))
    ensures LaidS(s, names, fns, ch', pc, nc)
    decreases s, 0
  {
    hide LaidE, SizeE, LaidArms, SizeArms;
    var j := pc + SizeE(s.c) + 3;
    FrameE(s.c, names, fns, ch, ch', pc);
    FrameS(s.then_, names, fns, ch, ch', j, nc);
    FrameArms(s.arms, names, fns, ch, ch', j + SizeS(s.then_) + 3, nc + IfsS(s.then_));
  }

  lemma {:induction false} FrameFor(s: Stmt, names: seq<Name>, fns: Fns, ch: Chunk, ch': Chunk, pc: nat, nc: nat)
    requires s.For? && LaidS(s, names, fns, ch, pc, nc) && Agree(ch, ch', pc, pc + SizeS(s))
    ensures LaidS(s, names, fns, ch', pc, nc)
    decreases s, 0
  {
    hide LaidE, SizeE, LaidCond, LaidInc, SizeCond, SizeInc;
    var names' := match s.init case NoVar => names case SomeVar(x, _) => names + [x];
    var q := pc + SizeInit(s.init);
    if s.init.SomeVar? {
      FrameE(s.init.e, names', fns, ch, ch', pc);
    }
    FrameCond(s.cond, names', fns, ch, ch', q, SizeInc(s.inc) + SizeS(s.body) + 3);
    FrameInc(s.inc, names', fns, ch, ch', q + SizeCond(s.cond), SizeCond(s.cond));
    FrameS(s.body, names', fns, ch, ch', q + SizeCond(s.cond) + SizeInc(s.inc), nc);
  }

  lemma {:induction false} FrameArms(a: Arms, names: seq<Name>, fns: Fns, ch: Chunk, ch': Chunk, pc: nat, nc: nat)
    requires LaidArms(a, names, fns, ch, pc, nc) && Agree(ch, ch', pc, pc + SizeArms(a))
    ensures LaidArms(a, names, fns, ch', pc, nc)
    decreases a, 0
  {
    hide LaidE, SizeE, LaidS, SizeS;
    match a
    case End =>
    case Else(s) => FrameS(s, names, fns, ch, ch', pc, nc);
    case Elif(c, s, t) =>
      FrameE(c, names, fns, ch, ch', pc);
      FrameS(s, names, fns, ch, ch', pc + SizeE(c) + 3, nc);
      FrameArms(t, names, fns, ch, ch', pc + SizeE(c) + 3 + SizeS(s) + 3, nc + IfsS(s));
  }

  lemma {:induction false} FrameD(ds: Decls, names: seq<Name>, fns: Fns, ch: Chunk, ch': Chunk, pc: nat, nc: nat)
    requires LaidD(ds, names, fns, ch, pc, nc) && Agree(ch, ch', pc, pc + SizeD(ds))
    ensures LaidD(ds, names, fns, ch', pc, nc)
    decreases ds, 0
  {
    hide LaidE, SizeE, LaidS, SizeS;
    match ds
    case Done =>
    case Then(Var(x, e), t) =>
      FrameE(e, names + [x], fns, ch, ch', pc);
      FrameD(t, names + [x], fns, ch, ch', pc + SizeE(e) + 2, nc);
    case Then(Do(s), t) =>
      FrameS(s, names, fns, ch, ch', pc, nc);
      FrameD(t, names, fns, ch, ch', pc + SizeS(s), nc + IfsS(s));
  }

  // ----------------------------------------------------- bytes and patches

  function Short(n: nat): (bs: seq<Byte>)
    ensures |bs| == 2
  {
    [n / 256 % 256, n % 256]
  }

  function Extend(ch: Chunk, bs: seq<Byte>): Chunk {
    ch.(code := ch.code + bs)
  }

  /** `patch_jump`: the two bytes of the operand at `off` become `v`. */
  function Patch(ch: Chunk, off: nat, v: nat): Chunk
    requires off + 1 < |ch.code|
  {
    ch.(code := ch.code[off := Short(v)[0]][off + 1 := Short(v)[1]])
  }

  /** A jump whose target is not known yet. */
  function Pending(op: Byte): (bs: seq<Byte>)
    ensures |bs| == 3
  {
    [op, 255, 255]
  }

  lemma ShortOperand(ch: Chunk, p: nat, n: nat)
    requires p + 1 < |ch.code| && n < 65536
    requires ch.code[p] == Short(n)[0] && ch.code[p + 1] == Short(n)[1]
    ensures Operand(ch, p) == n
  {
    assert n == (n / 256) * 256 + n % 256 && n / 256 < 256;
  }

  // ------------------------------------------------------ emitted statements

  predicate EmittedS(fns: Fns, a: State, b: State, s: Stmt) {
    && SameScope(a, b)
    && Grows(a.ch, b.ch)
    && |b.ch.code| == |a.ch.code| + SizeS(s)
    && b.ch.consts == a.ch.consts + LitsS(s)
    && |b.ch.cases| == |a.ch.cases| + IfsS(s)
    && LaidS(s, Names(a.locals), fns, b.ch, |a.ch.code|, |a.ch.cases|)
  }

  predicate EmittedArms(fns: Fns, a: State, b: State, s: Arms) {
    && SameScope(a, b)
    && Grows(a.ch, b.ch)
    && |b.ch.code| == |a.ch.code| + SizeArms(s)
    && b.ch.consts == a.ch.consts + LitsArms(s)
    && |b.ch.cases| == |a.ch.cases| + IfsArms(s)
    && LaidArms(s, Names(a.locals), fns, b.ch, |a.ch.code|, |a.ch.cases|)
  }

  function Variables(ds: Decls, scope: nat): (vs: seq<Variable>)
    ensures |vs| == |Declared(ds)|
    ensures forall i :: 0 <= i < |vs| ==> vs[i].depth == scope && vs[i].name == Declared(ds)[i]
  {
    match ds
    case Done => []
    case Then(Var(x, _), t) => [Variable(x, scope)] + Variables(t, scope)
    case Then(Do(_), t) => Variables(t, scope)
  }

  predicate SameFlags(a: State, b: State) {
    b.scope == a.scope && b.p.flag == a.p.flag && b.p.crashed == a.p.crashed
  }

  predicate EmittedD(fns: Fns, a: State, b: State, ds: Decls) {
    && SameFlags(a, b) && b.locals == a.locals + Variables(ds, a.scope)
    && Grows(a.ch, b.ch)
    && |b.ch.code| == |a.ch.code| + SizeD(ds)
    && b.ch.consts == a.ch.consts + LitsD(ds)
    && |b.ch.cases| == |a.ch.cases| + IfsD(ds)
    && LaidD(ds, Names(a.locals), fns, b.ch, |a.ch.code|, |a.ch.cases|)
  }

  predicate EmittedPout(fns: Fns, a: State, b: State, es: Exprs) {
    && SameScope(a, b)
    && Grows(a.ch, b.ch)
    && |b.ch.code| == |a.ch.code| + SizePout(es)
    && b.ch.consts == a.ch.consts + LitsArgs(es)
    && b.ch.cases == a.ch.cases
    && LaidPout(es, Names(a.locals), fns, b.ch, |a.ch.code|)
  }

  lemma EmitEval(fns: Fns, a: State, b: State, c: State, e: Expr)
    requires EmittedE(fns, a, b, e) && SameScope(b, c) && c.ch == b.ch
    ensures EmittedS(fns, a, c, Eval(e))
  {
    hide LaidE, SizeE, LitsE;
  }

  lemma EmitReturn(fns: Fns, a: State, b: State, c: State, e: Expr)
    requires EmittedE(fns, a, b, e) && SameScope(b, c) && c.ch == Extend(b.ch, [OP_RETURN])
    ensures EmittedS(fns, a, c, Return(e))
  {
    hide LaidE, SizeE, LitsE;
    FrameE(e, Names(a.locals), fns, b.ch, c.ch, |a.ch.code|);
  }

  lemma EmitBack(fns: Fns, a: State, b: State, c: State)
    requires SameScope(a, b) && b.ch == a.ch && SameScope(b, c) && c.ch == Extend(b.ch, [OP_RETURN])
    ensures EmittedS(fns, a, c, Back)
  {
  }

  /** An OP_JMPF over a statement and `tail` more bytes, patched when they have been emitted. */
  predicate Guarded(fns: Fns, a: State, b: State, b1: State, c: State, e: Expr, s: Stmt) {
    && EmittedE(fns, a, b, e)
    && SameScope(b, b1) && b1.ch == Extend(b.ch, Pending(OP_JMPF))
    && EmittedS(fns, b1, c, s)
  }

  /** The parts of a guarded statement keep their places when bytes are added and jump
      operands before and after the statement are patched. */
  lemma GuardedLaid(fns: Fns, a: State, b: State, b1: State, c: State, e: Expr, s: Stmt, ch: Chunk, d: nat)
    requires Guarded(fns, a, b, b1, c, e, s)
    requires |c.ch.code| <= |ch.code| && c.ch.consts <= ch.consts && c.ch.cases <= ch.cases && d < 65536
    requires forall i :: 0 <= i < |c.ch.code| && i != |b.ch.code| + 1 && i != |b.ch.code| + 2 ==>
             ch.code[i] == c.ch.code[i]
    requires ch.code[|b.ch.code| + 1] == Short(d)[0] && ch.code[|b.ch.code| + 2] == Short(d)[1]
    ensures LaidE(e, Names(a.locals), fns, ch, |a.ch.code|)
    ensures At3(ch, |a.ch.code| + SizeE(e), OP_JMPF, d)
    ensures LaidS(s, Names(a.locals), fns, ch, |a.ch.code| + SizeE(e) + 3, |a.ch.cases|)
    ensures forall i :: 0 <= i < |a.ch.code| ==> ch.code[i] == a.ch.code[i]
  {
    hide LaidE, SizeE, LitsE, LaidS, SizeS, LitsS, IfsS;
    FrameE(e, Names(a.locals), fns, b.ch, ch, |a.ch.code|);
    FrameS(s, Names(a.locals), fns, c.ch, ch, |b1.ch.code|, |a.ch.cases|);
    ShortOperand(ch, |b.ch.code| + 1, d);
  }

  lemma EmitWhile(fns: Fns, a: State, b: State, b1: State, c: State, e: State, s: Stmt)
    requires s.While? && Guarded(fns, a, b, b1, c, s.c, s.body)
    requires |a.ch.code| + SizeS(s) < 65536
    requires SameScope(c, e)
    requires e.ch == Patch(Extend(c.ch, [OP_LOOP] + Short(SizeS(s))), |b.ch.code| + 1, SizeS(s.body) + 3)
    ensures EmittedS(fns, a, e, s)
  {
    hide LaidE, SizeE, LitsE, LaidS, SizeS, LitsS, IfsS, Names;
    SizeWhile(s);
    GuardedLaid(fns, a, b, b1, c, s.c, s.body, e.ch, SizeS(s.body) + 3);
    ShortOperand(e.ch, |c.ch.code| + 1, SizeS(s));
    LaidWhile(s, Names(a.locals), fns, e.ch, |a.ch.code|, |a.ch.cases|);
  }

  lemma SizeWhile(s: Stmt)
    requires s.While?
    ensures SizeS(s) == SizeE(s.c) + 3 + SizeS(s.body) + 3
    ensures LitsS(s) == LitsE(s.c) + LitsS(s.body) && IfsS(s) == IfsS(s.body)
  {
  }

  lemma LaidWhile(s: Stmt, names: seq<Name>, fns: Fns, ch: Chunk, pc: nat, nc: nat)
    requires s.While?
    requires LaidE(s.c, names, fns, ch, pc) && At3(ch, pc + SizeE(s.c), OP_JMPF, SizeS(s.body) + 3)
    requires LaidS(s.body, names, fns, ch, pc + SizeE(s.c) + 3, nc)
    requires At3(ch, pc + SizeE(s.c) + 3 + SizeS(s.body), OP_LOOP, SizeS(s))
    ensures LaidS(s, names, fns, ch, pc, nc)
  {
    hide LaidE, SizeE;
  }

  lemma IfSizes(s: Stmt)
    requires s.If?
    ensures SizeS(s) == SizeE(s.c) + 3 + SizeS(s.then_) + 3 + SizeArms(s.arms)
    ensures LitsS(s) == LitsE(s.c) + LitsS(s.then_) + LitsArms(s.arms)
    ensures IfsS(s) == IfsS(s.then_) + IfsArms(s.arms) + 1
  {
  }

  lemma LaidIf(s: Stmt, names: seq<Name>, fns: Fns, ch: Chunk, pc: nat, nc: nat)
    requires s.If?
    requires LaidE(s.c, names, fns, ch, pc) && At3(ch, pc + SizeE(s.c), OP_JMPF, SizeS(s.then_) + 3)
    requires LaidS(s.then_, names, fns, ch, pc + SizeE(s.c) + 3, nc)
    requires At3(ch, pc + SizeE(s.c) + 3 + SizeS(s.then_), OP_JMP, SizeArms(s.arms))
    requires LaidArms(s.arms, names, fns, ch, pc + SizeE(s.c) + 3 + SizeS(s.then_) + 3, nc + IfsS(s.then_))
    requires nc + IfsS(s) <= |ch.cases| && IfsS(s) > 0 && ch.cases[nc + IfsS(s) - 1] == pc + SizeS(s)
    ensures LaidS(s, names, fns, ch, pc, nc)
  {
    hide LaidE, LaidArms, SizeE, SizeArms, IfsArms;
  }

  /** The bytes of a finished `if`: both patches are in place, the rest is untouched. */
  lemma IfBytes(a: Chunk, b: Chunk, c: Chunk, c2: Chunk, d: Chunk, e: Chunk, cond: nat, first: nat, arms: nat)
    requires a.code <= b.code && |b.code| == |a.code| + cond
    requires Extend(b, Pending(OP_JMPF)).code <= c.code && |c.code| == |b.code| + 3 + first
    requires c2 == Patch(Extend(c, Pending(OP_JMP)), |b.code| + 1, first + 3)
    requires Grows(c2, d) && |d.code| == |c2.code| + arms && arms < 65536
    requires e == Patch(d.(cases := d.cases + [|d.code|]), |c.code| + 1, arms)
    ensures |c2.code| == |c.code| + 3 && |e.code| == |d.code| && c.consts <= e.consts && c.cases <= e.cases
            && a.code <= e.code
    ensures forall i :: 0 <= i < |c.code| && i != |b.code| + 1 && i != |b.code| + 2 ==> e.code[i] == c.code[i]
    ensures e.code[|b.code| + 1] == Short(first + 3)[0] && e.code[|b.code| + 2] == Short(first + 3)[1]
    ensures At3(e, |c.code|, OP_JMP, arms)
    ensures Agree(d, e, |c2.code|, |d.code|)
  {
    ShortOperand(e, |c.code| + 1, arms);
    hide Short;
  }

  lemma EmitIf(fns: Fns, a: State, b: State, b1: State, c: State, c2: State, d: State, e: State, s: Stmt)
    requires s.If? && Guarded(fns, a, b, b1, c, s.c, s.then_)
    requires |a.ch.code| + SizeS(s) < 65536
    requires SameScope(c, c2) && c2.ch == Patch(Extend(c.ch, Pending(OP_JMP)), |b.ch.code| + 1, SizeS(s.then_) + 3)
    requires EmittedArms(fns, c2, d, s.arms)
    requires SameScope(d, e)
    requires e.ch == Patch(d.ch.(cases := d.ch.cases + [|d.ch.code|]), |c.ch.code| + 1, SizeArms(s.arms))
    ensures EmittedS(fns, a, e, s)
  {
    hide LaidE, SizeE, LitsE, LaidArms, SizeArms, LitsArms, IfsArms, LaidS, SizeS, LitsS, IfsS, Names;
    IfSizes(s);
    IfBytes(a.ch, b.ch, c.ch, c2.ch, d.ch, e.ch, SizeE(s.c), SizeS(s.then_), SizeArms(s.arms));
    GuardedLaid(fns, a, b, b1, c, s.c, s.then_, e.ch, SizeS(s.then_) + 3);
    FrameArms(s.arms, Names(a.locals), fns, d.ch, e.ch, |c2.ch.code|, |c2.ch.cases|);
    LaidIf(s, Names(a.locals), fns, e.ch, |a.ch.code|, |a.ch.cases|);
  }

  lemma EmitElif(fns: Fns, a: State, b: State, b1: State, c: State, e: State, g: Expr, s: Stmt)
    requires Guarded(fns, a, b, b1, c, g, s)
    requires |a.ch.code| + SizeE(g) + 3 + SizeS(s) + 3 < 65536 && |c.ch.cases| < 65536
    requires SameScope(c, e)
    requires e.ch == Patch(Extend(c.ch, [OP_JMPL] + Short(|c.ch.cases|)), |b.ch.code| + 1, SizeS(s) + 3)
    ensures EmittedArms(fns, a, e, Elif(g, s, End))
  {
    hide LaidE, SizeE, LitsE, LaidS, SizeS, LitsS, IfsS;
    var t := Elif(g, s, End);
    assert SizeArms(End) == IfsArms(End) == 0 && LitsArms(End) == [];
    assert SizeArms(t) == SizeE(g) + 3 + SizeS(s) + 3;
    assert LitsArms(t) == LitsE(g) + LitsS(s);
    assert IfsArms(t) == IfsS(s);
    GuardedLaid(fns, a, b, b1, c, g, s, e.ch, SizeS(s) + 3);
    ShortOperand(e.ch, |c.ch.code| + 1, |c.ch.cases|);
    assert LaidArms(t, Names(a.locals), fns, e.ch, |a.ch.code|, |a.ch.cases|);
  }

  // ------------------------------------------------------------ chains of arms

  predicate OnlyElifs(a: Arms) {
    match a case End => true case Else(_) => false case Elif(_, _, t) => OnlyElifs(t)
  }

  function JoinArms(a: Arms, b: Arms): Arms {
    match a case Elif(c, s, t) => Elif(c, s, JoinArms(t, b)) case _ => b
  }

  lemma {:induction false} JoinArmsLaid(a: Arms, b: Arms, names: seq<Name>, fns: Fns, ch: Chunk, pc: nat, nc: nat)
    requires OnlyElifs(a) && LaidArms(a, names, fns, ch, pc, nc)
    requires LaidArms(b, names, fns, ch, pc + SizeArms(a), nc + IfsArms(a))
    ensures LaidArms(JoinArms(a, b), names, fns, ch, pc, nc)
    decreases a
  {
    hide LaidE, LaidS, SizeE, SizeS, IfsS, At3;
    match a
    case Elif(c, s, t) => JoinArmsLaid(t, b, names, fns, ch, pc + SizeE(c) + 3 + SizeS(s) + 3, nc + IfsS(s));
    case _ =>
  }

  lemma {:induction false} JoinArmsFacts(a: Arms, b: Arms)
    requires OnlyElifs(a)
    ensures SizeArms(JoinArms(a, b)) == SizeArms(a) + SizeArms(b)
    ensures LitsArms(JoinArms(a, b)) == LitsArms(a) + LitsArms(b)
    ensures IfsArms(JoinArms(a, b)) == IfsArms(a) + IfsArms(b)
    ensures OnlyElifs(b) ==> OnlyElifs(JoinArms(a, b))
  {
    match a case Elif(c, s, t) => JoinArmsFacts(t, b); case _ =>
  }

  lemma {:induction false} JoinArmsAssoc(a: Arms, b: Arms, c: Arms)
    requires OnlyElifs(a) && OnlyElifs(b)
    ensures JoinArms(JoinArms(a, b), c) == JoinArms(a, JoinArms(b, c))
  {
    match a case Elif(_, _, t) => JoinArmsAssoc(t, b, c); case _ =>
  }

  lemma {:induction false} JoinArmsEnd(a: Arms)
    requires OnlyElifs(a)
    ensures JoinArms(a, End) == a
  {
    match a case Elif(_, _, t) => JoinArmsEnd(t); case _ =>
  }

  lemma EmitArms(fns: Fns, a: State, b: State, c: State, s: Arms, t: Arms)
    requires OnlyElifs(s) && EmittedArms(fns, a, b, s) && EmittedArms(fns, b, c, t)
    ensures EmittedArms(fns, a, c, JoinArms(s, t))
  {
    hide LaidArms, SizeArms, LitsArms, IfsArms;
    FrameArms(s, Names(a.locals), fns, b.ch, c.ch, |a.ch.code|, |a.ch.cases|);
    JoinArmsFacts(s, t);
    JoinArmsLaid(s, t, Names(a.locals), fns, c.ch, |a.ch.code|, |a.ch.cases|);
  }

  lemma EmitElse(fns: Fns, a: State, b: State, s: Stmt)
    requires EmittedS(fns, a, b, s)
    ensures EmittedArms(fns, a, b, Else(s))
  {
    hide LaidS, SizeS, LitsS, IfsS;
  }

  // ------------------------------------------------------------ declarations

  function JoinD(a: Decls, b: Decls): Decls {
    match a case Done => b case Then(d, t) => Then(d, JoinD(t, b))
  }

  lemma {:induction false} JoinDLaid(a: Decls, b: Decls, names: seq<Name>, fns: Fns, ch: Chunk, pc: nat, nc: nat)
    requires LaidD(a, names, fns, ch, pc, nc)
    requires LaidD(b, names + Declared(a), fns, ch, pc + SizeD(a), nc + IfsD(a))
    ensures LaidD(JoinD(a, b), names, fns, ch, pc, nc)
    decreases a
  {
    hide LaidE, LaidS, SizeE, SizeS, IfsS;
    match a
    case Done => assert names + [] == names;
    case Then(Var(x, e), t) =>
      assert names + [x] + Declared(t) == names + Declared(a);
      JoinDLaid(t, b, names + [x], fns, ch, pc + SizeE(e) + 2, nc);
    case Then(Do(s), t) => JoinDLaid(t, b, names, fns, ch, pc + SizeS(s), nc + IfsS(s));
  }

  lemma {:induction false} JoinDSize(a: Decls, b: Decls)
    ensures SizeD(JoinD(a, b)) == SizeD(a) + SizeD(b)
  {
    hide SizeS, SizeE;
    match a case Done => case Then(_, t) => JoinDSize(t, b);
  }

  lemma {:induction false} JoinDLits(a: Decls, b: Decls)
    ensures LitsD(JoinD(a, b)) == LitsD(a) + LitsD(b)
  {
    hide LitsS, LitsE;
    match a case Done => case Then(_, t) => JoinDLits(t, b);
  }

  lemma {:induction false} JoinDIfs(a: Decls, b: Decls)
    ensures IfsD(JoinD(a, b)) == IfsD(a) + IfsD(b)
  {
    hide IfsS;
    match a case Done => case Then(_, t) => JoinDIfs(t, b);
  }

  lemma {:induction false} JoinDVariables(a: Decls, b: Decls, scope: nat)
    ensures Variables(JoinD(a, b), scope) == Variables(a, scope) + Variables(b, scope)
  {
    match a case Done => case Then(_, t) => JoinDVariables(t, b, scope);
  }

  lemma {:induction false} JoinDAssoc(a: Decls, b: Decls, c: Decls)
    ensures JoinD(JoinD(a, b), c) == JoinD(a, JoinD(b, c))
  {
    match a case Done => case Then(_, t) => JoinDAssoc(t, b, c);
  }

  lemma {:induction false} JoinDDone(a: Decls)
    ensures JoinD(a, Done) == a
  {
    match a case Done => case Then(_, t) => JoinDDone(t);
  }

  lemma VariableNames(locals: seq<Variable>, ds: Decls, scope: nat)
    ensures Names(locals + Variables(ds, scope)) == Names(locals) + Declared(ds)
  {
  }

  lemma EmitDLaid(fns: Fns, a: State, b: State, c: State, s: Decls, t: Decls)
    requires EmittedD(fns, a, b, s) && EmittedD(fns, b, c, t)
    ensures LaidD(JoinD(s, t), Names(a.locals), fns, c.ch, |a.ch.code|, |a.ch.cases|)
  {
    hide LaidD, SizeD, LitsD, IfsD, Variables, Declared, Names, JoinD;
    FrameD(s, Names(a.locals), fns, b.ch, c.ch, |a.ch.code|, |a.ch.cases|);
    VariableNames(a.locals, s, a.scope);
    JoinDLaid(s, t, Names(a.locals), fns, c.ch, |a.ch.code|, |a.ch.cases|);
  }

  lemma EmitD(fns: Fns, a: State, b: State, c: State, s: Decls, t: Decls)
    requires EmittedD(fns, a, b, s) && EmittedD(fns, b, c, t)
    ensures EmittedD(fns, a, c, JoinD(s, t))
  {
    hide LaidD, SizeD, LitsD, IfsD, Variables, Declared, Names, JoinD;
    JoinDSize(s, t);
    JoinDLits(s, t);
    JoinDIfs(s, t);
    JoinDVariables(s, t, a.scope);
    EmitDLaid(fns, a, b, c, s, t);
    assert a.locals + Variables(s, a.scope) + Variables(t, a.scope) ==
           a.locals + (Variables(s, a.scope) + Variables(t, a.scope));
  }

  lemma EmitDo(fns: Fns, a: State, b: State, s: Stmt)
    requires EmittedS(fns, a, b, s)
    ensures EmittedD(fns, a, b, Then(Do(s), Done))
  {
    hide LaidS, SizeS, LitsS, IfsS;
    var t := Then(Do(s), Done);
    assert SizeD(Done) == IfsD(Done) == 0 && LitsD(Done) == [] && Variables(Done, a.scope) == [];
    assert SizeD(t) == SizeS(s);
    assert LitsD(t) == LitsS(s);
    assert IfsD(t) == IfsS(s);
    assert Variables(t, a.scope) == [];
    assert a.locals + [] == a.locals;
    assert LaidD(t, Names(a.locals), fns, b.ch, |a.ch.code|, |a.ch.cases|);
  }

  /** `var x = e;`: the variable is added before its initialiser is compiled. */
  lemma EmitVar(fns: Fns, a: State, a1: State, b: State, c: State, x: Name, e: Expr)
    requires SameFlags(a, a1) && a1.locals == a.locals + [Variable(x, a.scope)] && a1.ch == a.ch
    requires EmittedE(fns, a1, b, e)
    requires SameScope(b, c) && |a.locals| < 255 && c.ch == Extend(b.ch, [OP_SET_LOCAL, |a.locals|])
    ensures EmittedD(fns, a, c, Then(Var(x, e), Done))
  {
    hide LaidE, SizeE, LitsE;
    var t := Then(Var(x, e), Done);
    assert SizeD(Done) == IfsD(Done) == 0 && LitsD(Done) == [] && Variables(Done, a.scope) == [];
    assert SizeD(t) == SizeE(e) + 2 && LitsD(t) == LitsE(e) && IfsD(t) == 0;
    assert Variables(t, a.scope) == [Variable(x, a.scope)];
    NamesAppend(a.locals, Variable(x, a.scope));
    FrameE(e, Names(a1.locals), fns, b.ch, c.ch, |a.ch.code|);
    assert LaidD(t, Names(a.locals), fns, c.ch, |a.ch.code|, |a.ch.cases|);
  }

  // ----------------------------------------------------------------- scopes

  /** How many of the newest variables are deeper than `scope`. */
  function Trailing(locals: seq<Variable>, scope: nat): (n: nat)
    ensures n <= |locals|
  {
    if locals == [] || locals[|locals| - 1].depth <= scope then 0
    else 1 + Trailing(locals[..|locals| - 1], scope)
  }

  function PopBytes(n: nat): (bs: seq<Byte>)
    ensures |bs| == SizePops(n)
  {
    if n == 0 then [] else if n == 1 then [OP_POP] else [OP_POPN, (n - 1) % 256]
  }

  /** The scopes opened so far hold all variables. */
  predicate Nested(locals: seq<Variable>, scope: nat) {
    forall i :: 0 <= i < |locals| ==> locals[i].depth <= scope
  }

  lemma {:induction false} TrailingVariables(locals: seq<Variable>, vs: seq<Variable>, scope: nat)
    requires Nested(locals, scope) && forall i :: 0 <= i < |vs| ==> vs[i].depth == scope + 1
    ensures Trailing(locals + vs, scope) == |vs|
    decreases |vs|
  {
    if vs == [] {
      assert locals + vs == locals;
    } else {
      var u := vs[..|vs| - 1];
      assert (locals + vs)[..|locals + vs| - 1] == locals + u;
      TrailingVariables(locals, u, scope);
    }
  }

  /** `end_scope`: the variables of the innermost scope are forgotten, and popped. */
  predicate Closed(b: State, c: State) {
    && b.scope > 0 && c.scope == b.scope - 1
    && c.p.flag == b.p.flag && c.p.crashed == b.p.crashed
    && var n := Trailing(b.locals, c.scope);
       c.locals == b.locals[..|b.locals| - n] && c.ch == Extend(b.ch, PopBytes(n))
  }

  predicate Opened(a: State, b: State) {
    b.scope == a.scope + 1 && b.locals == a.locals && b.ch == a.ch && b.p.flag == a.p.flag && b.p.crashed == a.p.crashed
  }

  lemma ClosedBack(a: State, b: State, c: State, ds: Decls)
    requires Nested(a.locals, a.scope) && b.scope == a.scope + 1
    requires b.locals == a.locals + Variables(ds, a.scope + 1) && Closed(b, c)
    ensures c.locals == a.locals && c.ch == Extend(b.ch, PopBytes(|Declared(ds)|)) && c.scope == a.scope
  {
    TrailingVariables(a.locals, Variables(ds, a.scope + 1), a.scope);
  }

  lemma PopsLaid(n: nat, ch: Chunk, ch': Chunk)
    requires n < 256 && ch' == Extend(ch, PopBytes(n))
    ensures LaidPops(n, ch', |ch.code|)
  {
  }

  lemma EmitBlock(fns: Fns, a: State, a0: State, b: State, b1: State, c: State, ds: Decls)
    requires Nested(a.locals, a.scope) && Opened(a, a0) && EmittedD(fns, a0, b, ds) && |b.locals| <= LOCAL_COUNT
    requires SameFlags(b, b1) && b1.locals == b.locals && b1.ch == b.ch && Closed(b1, c)
    ensures EmittedS(fns, a, c, Block(ds))
  {
    hide LaidD, SizeD, LitsD, IfsD, Variables, Declared, Names, Trailing;
    ClosedBack(a, b1, c, ds);
    FrameD(ds, Names(a.locals), fns, b.ch, c.ch, |a.ch.code|, |a.ch.cases|);
    PopsLaid(|Declared(ds)|, b.ch, c.ch);
  }

  // ------------------------------------------------------------- `for` parts

  function InitDecls(i: OptVar): Decls {
    match i case NoVar => Done case SomeVar(x, e) => Then(Var(x, e), Done)
  }

  /** The condition has been emitted, its exit still pending. */
  predicate EmittedCond(fns: Fns, a: State, b: State, c: OptExpr) {
    && SameScope(a, b)
    && Grows(a.ch, b.ch)
    && |b.ch.code| == |a.ch.code| + SizeCond(c)
    && b.ch.consts == a.ch.consts + LitsOpt(c)
    && b.ch.cases == a.ch.cases
    && LaidCond(c, Names(a.locals), fns, b.ch, |a.ch.code|, 65535)
  }

  predicate EmittedInc(fns: Fns, a: State, b: State, n: OptExpr, back: nat) {
    && SameScope(a, b)
    && Grows(a.ch, b.ch)
    && |b.ch.code| == |a.ch.code| + SizeInc(n)
    && b.ch.consts == a.ch.consts + LitsOpt(n)
    && b.ch.cases == a.ch.cases
    && LaidInc(n, Names(a.locals), fns, b.ch, |a.ch.code|, back)
  }

  lemma EmitCond(fns: Fns, a: State, b: State, c: State, e: Expr)
    requires EmittedE(fns, a, b, e) && SameScope(b, c) && c.ch == Extend(b.ch, Pending(OP_JMPF))
    ensures EmittedCond(fns, a, c, SomeExpr(e))
  {
    hide LaidE, SizeE, LitsE;
    FrameE(e, Names(a.locals), fns, b.ch, c.ch, |a.ch.code|);
  }

  lemma EmitInc(fns: Fns, a: State, a1: State, b: State, c: State, e: Expr, back: nat)
    requires SameScope(a, a1) && a1.ch == Extend(a.ch, Pending(OP_JMP)) && EmittedE(fns, a1, b, e)
    requires back + 3 + SizeE(e) + 1 + 3 < 65536
    requires SameScope(b, c)
    requires c.ch == Patch(Extend(b.ch, [OP_POP, OP_LOOP] + Short(back + 3 + SizeE(e) + 1 + 3)), |a.ch.code| + 1,
             SizeE(e) + 1 + 3)
    ensures EmittedInc(fns, a, c, SomeExpr(e), back)
  {
    hide LaidE, SizeE, LitsE;
    FrameE(e, Names(a.locals), fns, b.ch, c.ch, |a1.ch.code|);
    ShortOperand(c.ch, |a.ch.code| + 1, SizeE(e) + 1 + 3);
    ShortOperand(c.ch, |b.ch.code| + 2, back + 3 + SizeE(e) + 1 + 3);
  }

  /** The chunk of a `for` once its body is there: the back jump appended, the exit, if there
      is one, patched. `off` is the address of the exit jump. */
  function ForChunk(s: Stmt, ch: Chunk, off: nat): Chunk
    requires s.For? && (s.cond.SomeExpr? ==> off + 3 <= |ch.code|)
  {
    var e := Extend(ch, [OP_LOOP] + Short(BackFor(s.cond, s.inc, s.body)));
    if s.cond.NoExpr? then e else Patch(e, off + 1, SizeInc(s.inc) + SizeS(s.body) + 3)
  }

  lemma CondPatched(c: OptExpr, names: seq<Name>, fns: Fns, b: Chunk, g: Chunk, pc: nat, d: nat)
    requires LaidCond(c, names, fns, b, pc, 65535) && |b.code| == pc + SizeCond(c) <= |g.code| && d < 65536
    requires b.consts <= g.consts && b.cases <= g.cases
    requires forall i :: pc <= i < |b.code| && (c.NoExpr? || i < |b.code| - 2) ==> g.code[i] == b.code[i]
    requires c.SomeExpr? ==> g.code[|b.code| - 2] == Short(d)[0] && g.code[|b.code| - 1] == Short(d)[1]
    ensures LaidCond(c, names, fns, g, pc, d)
  {
    hide LaidE, SizeE;
    if c.SomeExpr? {
      FrameE(c.e, names, fns, b, g, pc);
      ShortOperand(g, |b.code| - 2, d);
    }
  }

  /** The bytes of a finished `for`, its closing pops included. */
  lemma ForBytes(s: Stmt, a1: Chunk, b: Chunk, c: Chunk, d: Chunk, g: Chunk, pops: nat)
    requires s.For? && pops < 256
    requires Grows(a1, b) && |b.code| == |a1.code| + SizeCond(s.cond)
    requires Grows(b, c) && |c.code| == |b.code| + SizeInc(s.inc)
    requires Grows(c, d) && |d.code| == |c.code| + SizeS(s.body)
    requires SizeCond(s.cond) + SizeInc(s.inc) + SizeS(s.body) + 3 < 65536
    requires g == Extend(ForChunk(s, d, if s.cond.SomeExpr? then |b.code| - 3 else 0), PopBytes(pops))
    ensures |g.code| == |d.code| + 3 + SizePops(pops) && d.consts == g.consts && d.cases == g.cases
    ensures forall i :: 0 <= i < |d.code| && (s.cond.NoExpr? || i < |b.code| - 2 || i >= |b.code|) ==>
            g.code[i] == d.code[i]
    ensures s.cond.SomeExpr? ==> var v := Short(SizeInc(s.inc) + SizeS(s.body) + 3);
            g.code[|b.code| - 2] == v[0] && g.code[|b.code| - 1] == v[1]
    ensures At3(g, |d.code|, OP_LOOP, BackFor(s.cond, s.inc, s.body))
    ensures LaidPops(pops, g, |d.code| + 3)
  {
    var f := ForChunk(s, d, if s.cond.SomeExpr? then |b.code| - 3 else 0);
    PopsLaid(pops, f, g);
    ShortOperand(g, |d.code| + 1, BackFor(s.cond, s.inc, s.body));
    hide Short, SizeS, SizeE;
  }

  lemma ForSizes(s: Stmt)
    requires s.For?
    ensures SizeS(s) == SizeInit(s.init) + SizeCond(s.cond) + SizeInc(s.inc) + SizeS(s.body) + 3 +
            SizePops(InitCount(s.init))
    ensures LitsS(s) == LitsInit(s.init) + LitsOpt(s.cond) + LitsOpt(s.inc) + LitsS(s.body)
    ensures IfsS(s) == IfsS(s.body)
    ensures |Declared(InitDecls(s.init))| == InitCount(s.init)
    ensures SizeD(InitDecls(s.init)) == SizeInit(s.init) && LitsD(InitDecls(s.init)) == LitsInit(s.init)
            && IfsD(InitDecls(s.init)) == 0
  {
    hide SizeE;
    assert Declared(Done) == [] && SizeD(Done) == IfsD(Done) == 0 && LitsD(Done) == [];
  }

  predicate ForStates(fns: Fns, a: State, a0: State, a1: State, b: State, c: State, d: State, f: State, g: State,
                      s: Stmt) {
    && s.For? && Nested(a.locals, a.scope) && Opened(a, a0)
    && EmittedD(fns, a0, a1, InitDecls(s.init))
    && EmittedCond(fns, a1, b, s.cond)
    && EmittedInc(fns, b, c, s.inc, SizeCond(s.cond))
    && EmittedS(fns, c, d, s.body)
    && SameScope(d, f) && |b.ch.code| <= |d.ch.code| && (s.cond.SomeExpr? ==> |b.ch.code| >= 3)
    && f.ch == ForChunk(s, d.ch, if s.cond.SomeExpr? then |b.ch.code| - 3 else 0)
    && Closed(f, g)
    && |a.ch.code| + SizeS(s) < 65536
  }

  /** The names in scope inside the loop. */
  function Inner(names: seq<Name>, i: OptVar): seq<Name> {
    match i case NoVar => names case SomeVar(x, _) => names + [x]
  }

  lemma EmitForScope(fns: Fns, a: State, a0: State, a1: State, b: State, c: State, d: State, f: State, g: State,
                     s: Stmt)
    requires ForStates(fns, a, a0, a1, b, c, d, f, g, s)
    ensures SameScope(a, g) && g.ch == Extend(f.ch, PopBytes(InitCount(s.init)))
    ensures Names(a1.locals) == Inner(Names(a.locals), s.init)
  {
    hide LaidS, SizeS, LaidE, SizeE, LaidCond, LaidInc, LaidD, SizeD, ForChunk, Trailing, Names;
    ForSizes(s);
    ClosedBack(a, f, g, InitDecls(s.init));
    assert Variables(Done, a.scope + 1) == [];
    if s.init.NoVar? {
      assert a.locals + [] == a.locals;
    } else {
      assert Variables(InitDecls(s.init), a.scope + 1) == [Variable(s.init.x, a.scope + 1)];
      NamesAppend(a.locals, Variable(s.init.x, a.scope + 1));
    }
  }

  lemma LaidFor(s: Stmt, names: seq<Name>, fns: Fns, ch: Chunk, pc: nat, nc: nat)
    requires s.For?
    requires var ns := Inner(names, s.init);
             var q := pc + SizeInit(s.init);
             var r := q + SizeCond(s.cond);
             var t := r + SizeInc(s.inc);
             && (s.init.SomeVar? ==>
                  LaidE(s.init.e, ns, fns, ch, pc) && At2(ch, pc + SizeE(s.init.e), OP_SET_LOCAL, |names|))
             && LaidCond(s.cond, ns, fns, ch, q, SizeInc(s.inc) + SizeS(s.body) + 3)
             && LaidInc(s.inc, ns, fns, ch, r, SizeCond(s.cond))
             && LaidS(s.body, ns, fns, ch, t, nc)
             && At3(ch, t + SizeS(s.body), OP_LOOP, BackFor(s.cond, s.inc, s.body))
             && LaidPops(InitCount(s.init), ch, t + SizeS(s.body) + 3)
    ensures LaidS(s, names, fns, ch, pc, nc)
  {
    hide LaidE, SizeE, LaidCond, SizeCond, LaidInc, SizeInc, LaidPops;
  }

  lemma InitLaid(i: OptVar, names: seq<Name>, fns: Fns, ch: Chunk, ch': Chunk, pc: nat, nc: nat)
    requires LaidD(InitDecls(i), names, fns, ch, pc, nc) && Agree(ch, ch', pc, pc + SizeInit(i))
    ensures i.SomeVar? ==> LaidE(i.e, names + [i.x], fns, ch', pc) && At2(ch', pc + SizeE(i.e), OP_SET_LOCAL, |names|)
  {
    hide LaidE, SizeE;
    if i.SomeVar? {
      FrameE(i.e, names + [i.x], fns, ch, ch', pc);
    }
  }

  /** What the finished chunk keeps of the parts of a `for`. */
  predicate ForKept(s: Stmt, a: Chunk, a1: Chunk, b: Chunk, c: Chunk, d: Chunk, g: Chunk)
    requires s.For?
  {
    var k := InitCount(s.init);
    && Agree(a1, g, |a.code|, |a1.code|)
    && |a1.code| <= |b.code| <= |g.code| && b.consts <= g.consts && b.cases <= g.cases
    && (forall i :: |a1.code| <= i < |b.code| && (s.cond.NoExpr? || i < |b.code| - 2) ==> g.code[i] == b.code[i])
    && (s.cond.SomeExpr? ==>
          && |b.code| >= 2
          && g.code[|b.code| - 2] == Short(SizeInc(s.inc) + SizeS(s.body) + 3)[0]
          && g.code[|b.code| - 1] == Short(SizeInc(s.inc) + SizeS(s.body) + 3)[1])
    && Agree(c, g, |b.code|, |c.code|)
    && Agree(d, g, |c.code|, |d.code|)
    && At3(g, |d.code|, OP_LOOP, BackFor(s.cond, s.inc, s.body))
    && LaidPops(k, g, |d.code| + 3)
    && |g.code| == |d.code| + 3 + SizePops(k)
    && Grows(a, g) && g.consts == d.consts && g.cases == d.cases
  }

  lemma ForKeeps(s: Stmt, a: Chunk, a1: Chunk, b: Chunk, c: Chunk, d: Chunk, g: Chunk)
    requires s.For?
    requires Grows(a, a1)
    requires Grows(a1, b) && |b.code| == |a1.code| + SizeCond(s.cond)
    requires Grows(b, c) && |c.code| == |b.code| + SizeInc(s.inc)
    requires Grows(c, d) && |d.code| == |c.code| + SizeS(s.body)
    requires SizeCond(s.cond) + SizeInc(s.inc) + SizeS(s.body) + 3 < 65536
    requires s.cond.SomeExpr? ==> |b.code| >= |a1.code| + 3
    requires g == Extend(ForChunk(s, d, if s.cond.SomeExpr? then |b.code| - 3 else 0), PopBytes(InitCount(s.init)))
    ensures ForKept(s, a, a1, b, c, d, g)
  {
    hide SizeS, SizeInc, SizeCond, ForChunk, Short, PopBytes, BackFor, LaidPops, InitCount, SizePops;
    ForCountFits(s);
    ForBytes(s, a1, b, c, d, g, InitCount(s.init));
  }

  lemma EmitForLaid(fns: Fns, names: seq<Name>, ns: seq<Name>, a: State, a1: State, b: State, c: State, d: State,
                    g: State, s: Stmt)
    requires s.For? && ns == Inner(names, s.init)
    requires ForKept(s, a.ch, a1.ch, b.ch, c.ch, d.ch, g.ch)
    requires LaidD(InitDecls(s.init), names, fns, a1.ch, |a.ch.code|, |a.ch.cases|)
             && |a1.ch.code| == |a.ch.code| + SizeInit(s.init)
    requires LaidCond(s.cond, ns, fns, b.ch, |a1.ch.code|, 65535) && |b.ch.code| == |a1.ch.code| + SizeCond(s.cond)
    requires LaidInc(s.inc, ns, fns, c.ch, |b.ch.code|, SizeCond(s.cond)) && |c.ch.code| == |b.ch.code| + SizeInc(s.inc)
    requires LaidS(s.body, ns, fns, d.ch, |c.ch.code|, |a.ch.cases|) && |d.ch.code| == |c.ch.code| + SizeS(s.body)
    requires SizeInc(s.inc) + SizeS(s.body) + 3 < 65536
    ensures LaidS(s, names, fns, g.ch, |a.ch.code|, |a.ch.cases|)
  {
    hide LaidE, SizeE, LaidCond, LaidInc, LaidD, LaidS, SizeS, SizeInit, SizeCond, SizeInc, InitDecls, LaidPops,
         BackFor, InitCount;
    InitLaid(s.init, names, fns, a1.ch, g.ch, |a.ch.code|, |a.ch.cases|);
    CondPatched(s.cond, ns, fns, b.ch, g.ch, |a1.ch.code|, SizeInc(s.inc) + SizeS(s.body) + 3);
    FrameInc(s.inc, ns, fns, c.ch, g.ch, |b.ch.code|, SizeCond(s.cond));
    FrameS(s.body, ns, fns, d.ch, g.ch, |c.ch.code|, |a.ch.cases|);
    LaidFor(s, names, fns, g.ch, |a.ch.code|, |a.ch.cases|);
  }

  lemma EmitFor(fns: Fns, a: State, a0: State, a1: State, b: State, c: State, d: State, f: State, g: State, s: Stmt)
    requires ForStates(fns, a, a0, a1, b, c, d, f, g, s)
    ensures EmittedS(fns, a, g, s)
  {
    hide LaidE, SizeE, LaidCond, LaidInc, LaidD, LaidS, SizeD, SizeS, LitsS, IfsS, LitsD, IfsD, LitsOpt, LitsInit,
      SizeInit, SizeCond, SizeInc, Names, Inner, InitDecls, ForChunk, LaidPops, Declared, Variables, Closed, BackFor,
        InitCount, PopBytes, ForKept,
      SizePops, Nested, Short;
    EmitForScope(fns, a, a0, a1, b, c, d, f, g, s);
    ForSizes(s);
    CondAtLeast(s.cond);
    ForKeeps(s, a.ch, a1.ch, b.ch, c.ch, d.ch, g.ch);
    EmitForLaid(fns, Names(a.locals), Names(a1.locals), a, a1, b, c, d, g, s);
    ForKeptSizes(s, a.ch, a1.ch, b.ch, c.ch, d.ch, g.ch);
  }

  lemma CondAtLeast(c: OptExpr)
    ensures c.SomeExpr? ==> SizeCond(c) >= 3
  {
  }

  lemma ForKeptSizes(s: Stmt, a: Chunk, a1: Chunk, b: Chunk, c: Chunk, d: Chunk, g: Chunk)
    requires s.For? && ForKept(s, a, a1, b, c, d, g)
    ensures |g.code| == |d.code| + 3 + SizePops(InitCount(s.init)) && Grows(a, g) && g.consts == d.consts
            && g.cases == d.cases
  {
  }

  lemma ForCountFits(s: Stmt)
    requires s.For?
    ensures InitCount(s.init) < 256
  {
  }

  // ---------------------------------------------------------- `pout` lists

  lemma {:induction false} PoutSnoc(es: Exprs, e: Expr, names: seq<Name>, fns: Fns, ch: Chunk, pc: nat)
    requires LaidPout(es, names, fns, ch, pc)
    requires LaidE(e, names, fns, ch, pc + SizePout(es)) && At1(ch, pc + SizePout(es) + SizeE(e), OP_PRINT)
    ensures LaidPout(Snoc(es, e), names, fns, ch, pc)
    ensures SizePout(Snoc(es, e)) == SizePout(es) + SizeE(e) + 1
    decreases es
  {
    hide LaidE, SizeE;
    match es
    case Nil =>
      assert SizePout(Cons(e, Nil)) == SizeE(e) + 1 + SizePout(Nil);
      assert LaidPout(Nil, names, fns, ch, pc + SizeE(e) + 1);
    case Cons(h, t) => PoutSnoc(t, e, names, fns, ch, pc + SizeE(h) + 1);
  }

  lemma EmitPoutSnoc(fns: Fns, a: State, b: State, c: State, d: State, es: Exprs, e: Expr)
    requires EmittedPout(fns, a, b, es) && EmittedE(fns, b, c, e)
    requires SameScope(c, d) && d.ch == Extend(c.ch, [OP_PRINT])
    ensures EmittedPout(fns, a, d, Snoc(es, e))
  {
    hide LaidE, SizeE, LitsE, LaidPout, SizePout, LitsArgs, LastOf, LastOfArgs, SizeArgs, Count;
    FramePout(es, Names(a.locals), fns, b.ch, d.ch, |a.ch.code|);
    FrameE(e, Names(a.locals), fns, c.ch, d.ch, |b.ch.code|);
    PoutSnoc(es, e, Names(a.locals), fns, d.ch, |a.ch.code|);
    SnocFacts(es, e);
  }

  lemma EmitPout(fns: Fns, a: State, b: State, c: State, es: Exprs)
    requires EmittedPout(fns, a, b, es) && SameScope(b, c) && c.ch == b.ch
    ensures EmittedS(fns, a, c, Pout(es))
  {
    hide LaidPout, SizePout, LitsArgs;
  }
}
