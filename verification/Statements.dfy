/** Which inputs the statement rules are promised to handle, and how the promises add up. */
module Statements {
  import opened Values
  import opened Syntax
  import opened Bytecode
  import opened Layout
  import opened Spine
  import opened Emission
  import opened Prefixes
  import opened StmtEmission

  /** Sizes the chunk's fields can hold. */
  predicate Roomy(a: State, code: nat, lits: nat, ifs: nat) {
    |a.ch.code| + code < 32767 && |a.ch.consts| + lits <= 256 && |a.ch.cases| + ifs < 65536
  }

  predicate CanEmitS(fns: Fns, fn: bool, a: State, s: Stmt) {
    && Clean(a) && Nested(a.locals, a.scope) && ResolvesS(s, a.locals, a.scope, fns, fn)
    && Roomy(a, SizeS(s), |LitsS(s)|, IfsS(s))
  }

  predicate CanEmitArms(fns: Fns, fn: bool, a: State, s: Arms) {
    && Clean(a) && Nested(a.locals, a.scope) && ResolvesArms(s, a.locals, a.scope, fns, fn)
    && Roomy(a, SizeArms(s), |LitsArms(s)|, IfsArms(s))
  }

  predicate CanEmitD(fns: Fns, fn: bool, a: State, s: Decls) {
    && Clean(a) && Nested(a.locals, a.scope) && ResolvesD(s, a.locals, a.scope, fns, fn)
    && Roomy(a, SizeD(s), |LitsD(s)|, IfsD(s))
  }

  predicate NoArm(k: seq<Token>) {
    k != [] && k[0] != ElifKw && k[0] != ElseKw
  }

  /** The tokens ahead are those of `s`, then `k`. */
  predicate ReadyS(fns: Fns, fn: bool, a: State, s: Stmt, k: seq<Token>) {
    Sees(a, PrintS(s, k)) && k != [] && (Open(s) ==> NoArm(k)) && CanEmitS(fns, fn, a, s)
  }

  /** The tokens ahead are `ts`; compiling them as the rest of `s` leads to `k`. */
  predicate ReadyRest(fns: Fns, fn: bool, a: State, s: Stmt, ts: seq<Token>, k: seq<Token>) {
    Sees(a, ts) && k != [] && (Open(s) ==> NoArm(k)) && CanEmitS(fns, fn, a, s)
  }

  predicate DidS(fns: Fns, a: State, b: State, s: Stmt, k: seq<Token>) {
    EmittedS(fns, a, b, s) && Sees(b, k)
  }

  predicate ReadyD(fns: Fns, fn: bool, a: State, ds: Decls, k: seq<Token>) {
    Sees(a, PrintD(ds, [RCurl] + k)) && CanEmitD(fns, fn, a, ds)
  }

  // ----------------------------------------------------------------- tokens

  lemma SkipSees(a: State, b: State, t: Token, ts: seq<Token>)
    requires Sees(a, [t] + ts)
    ensures a.p.cur == t && a.p.rest == ts
    ensures Skipped(a, b) ==> Sees(b, ts)
  {
    assert ([a.p.cur] + a.p.rest)[0] == t;
    assert ([a.p.cur] + a.p.rest)[1..] == ts;
  }

  /** The keyword of a statement, or 0 for none. */
  function Keyword(s: Stmt): Token {
    match s
    case Eval(_) => Eof
    case Pout(_) => PoutKw
    case If(_, _, _) => IfKw
    case While(_, _) => WhileKw
    case For(_, _, _, _) => ForKw
    case Block(_) => LCurl
    case Return(_) => ReturnKw
    case Back => ReturnKw
  }

  /** The tokens after a statement's keyword. */
  function AfterKeyword(s: Stmt, k: seq<Token>): seq<Token> {
    match s
    case Eval(e) => Print(e, PREC_ASSIGNMENT, [Semi] + k)
    case Pout(es) => [LParen] + PrintArgs(es, [RParen] + ([Semi] + k))
    case If(c, t, arms) => [LParen] + Print(c, PREC_ASSIGNMENT, [RParen] + PrintS(t, PrintArms(arms, k)))
    case While(c, b) => [LParen] + Print(c, PREC_ASSIGNMENT, [RParen] + PrintS(b, k))
    case For(init, cond, inc, b) =>
      var head := PrintOpt(cond, [Semi] + PrintOpt(inc, [RParen] + PrintS(b, k)));
      [LParen] + (match init case NoVar => [Semi] + head case SomeVar(x, e) => PrintVar(x, e, head))
    case Block(ds) => PrintD(ds, [RCurl] + k)
    case Return(e) => Print(e, PREC_ASSIGNMENT, [Semi] + k)
    case Back => [Semi] + k
  }

  lemma KeywordFirst(s: Stmt, k: seq<Token>)
    ensures s.Eval? ==> PrintS(s, k) == AfterKeyword(s, k)
    ensures !s.Eval? ==> PrintS(s, k) == [Keyword(s)] + AfterKeyword(s, k)
  {
    hide Print, PrintArgs, PrintArms, PrintD, PrintOpt, PrintVar;
    match s
    case Pout(es) =>
      var r := PrintArgs(es, [RParen] + ([Semi] + k));
      assert [PoutKw, LParen] + r == [PoutKw] + ([LParen] + r);
    case If(c, t, arms) =>
      var r := Print(c, PREC_ASSIGNMENT, [RParen] + PrintS(t, PrintArms(arms, k)));
      assert [IfKw, LParen] + r == [IfKw] + ([LParen] + r);
    case While(c, b) =>
      var r := Print(c, PREC_ASSIGNMENT, [RParen] + PrintS(b, k));
      assert [WhileKw, LParen] + r == [WhileKw] + ([LParen] + r);
    case For(init, cond, inc, b) =>
      var head := PrintOpt(cond, [Semi] + PrintOpt(inc, [RParen] + PrintS(b, k)));
      var r := match init case NoVar => [Semi] + head case SomeVar(x, e) => PrintVar(x, e, head);
      assert [ForKw, LParen] + r == [ForKw] + ([LParen] + r);
    case Back =>
      assert [ReturnKw, Semi] + k == [ReturnKw] + ([Semi] + k);
    case _ =>
  }

  predicate StartsStatement(t: Token) {
    t == PoutKw || t == IfKw || t == WhileKw || t == ForKw || t == LCurl || t == ReturnKw
  }

  /** The first token tells which rule handles the statement. */
  lemma StatementFirst(fns: Fns, fn: bool, a: State, s: Stmt, k: seq<Token>)
    requires ReadyS(fns, fn, a, s, k)
    ensures !s.Eval? ==> a.p.cur == Keyword(s) && a.p.rest == AfterKeyword(s, k)
    ensures s.Eval? ==> HasPrefix(a.p.cur) && !StartsStatement(a.p.cur) && Sees(a, AfterKeyword(s, k))
  {
    hide PrintS, AfterKeyword, CanEmitS;
    KeywordFirst(s, k);
    if s.Eval? {
      EvalFirst(a, s, k);
    } else {
      SkipSees(a, a, Keyword(s), AfterKeyword(s, k));
    }
  }

  lemma EvalFirst(a: State, s: Stmt, k: seq<Token>)
    requires s.Eval? && Sees(a, AfterKeyword(s, k))
    ensures HasPrefix(a.p.cur) && !StartsStatement(a.p.cur)
  {
    PrintFirst(s.e, PREC_ASSIGNMENT, [Semi] + k);
    assert ([a.p.cur] + a.p.rest)[0] == a.p.cur;
    hide Print;
  }

  lemma StatementRest(fns: Fns, fn: bool, a: State, b: State, s: Stmt, k: seq<Token>)
    requires ReadyS(fns, fn, a, s, k)
    requires if s.Eval? then b == a else a.p.cur == Keyword(s) && Skipped(a, b)
    ensures ReadyRest(fns, fn, b, s, AfterKeyword(s, k), k)
  {
    StatementFirst(fns, fn, a, s, k);
    hide AfterKeyword, PrintS, ResolvesS, SizeS, LitsS, IfsS;
  }

  // ------------------------------------------------------------ simple rules

  lemma ReturnReady(fns: Fns, fn: bool, a: State, s: Stmt, k: seq<Token>)
    requires s.Return? && ReadyRest(fns, fn, a, s, AfterKeyword(s, k), k)
    ensures ReadyE(fns, a, s.e, PREC_ASSIGNMENT, [Semi] + k)
    ensures fn && a.p.cur != Semi
  {
    PrintFirst(s.e, PREC_ASSIGNMENT, [Semi] + k);
    assert ([a.p.cur] + a.p.rest)[0] == a.p.cur;
    hide Print, ResolvesE, LitsE, SizeE;
  }

  lemma ReturnDone(fns: Fns, a: State, b: State, c: State, d: State, s: Stmt, k: seq<Token>)
    requires s.Return? && DidE(fns, a, b, s.e, [Semi] + k) && Skipped(b, c) && d == Emit(c, [OP_RETURN])
    ensures DidS(fns, a, d, s, k)
  {
    hide LaidE, SizeE, LitsE;
    SkipSees(b, c, Semi, k);
    EmitReturn(fns, a, b, d, s.e);
    hide EmittedS;
  }

  lemma BackFirst(fns: Fns, fn: bool, a: State, s: Stmt, k: seq<Token>)
    requires s.Back? && ReadyRest(fns, fn, a, s, AfterKeyword(s, k), k)
    ensures fn && a.p.cur == Semi
  {
    assert ([a.p.cur] + a.p.rest)[0] == a.p.cur;
  }

  lemma BackDone(fns: Fns, fn: bool, a: State, b: State, c: State, s: Stmt, k: seq<Token>)
    requires s.Back? && ReadyRest(fns, fn, a, s, AfterKeyword(s, k), k) && Skipped(a, b) && c == Emit(b, [OP_RETURN])
    ensures DidS(fns, a, c, s, k)
  {
    SkipSees(a, b, Semi, k);
    EmitBack(fns, a, b, c);
    hide EmittedS;
  }

  // --------------------------------------------------------------- guards

  /** `( c )` is ahead, then `ts`. */
  predicate ReadyGuard(fns: Fns, a: State, c: Expr, ts: seq<Token>) {
    Sees(a, [LParen] + Print(c, PREC_ASSIGNMENT, [RParen] + ts)) && CanEmit(fns, a, c)
  }

  lemma GuardReady(fns: Fns, a: State, a1: State, c: Expr, ts: seq<Token>)
    requires ReadyGuard(fns, a, c, ts) && Skipped(a, a1)
    ensures ReadyE(fns, a1, c, PREC_ASSIGNMENT, [RParen] + ts)
  {
    hide Print, ResolvesE, LitsE;
    SkipSees(a, a1, LParen, Print(c, PREC_ASSIGNMENT, [RParen] + ts));
  }

  /** A guard has been compiled since `a`, its jump is pending, and `ts` is ahead. */
  predicate DidGuard(fns: Fns, a: State, b: State, b1: State, c: Expr, ts: seq<Token>) {
    EmittedE(fns, a, b, c) && SameScope(b, b1) && b1.ch == Extend(b.ch, Pending(OP_JMPF)) && Sees(b1, ts)
  }

  lemma GuardDone(fns: Fns, a: State, a1: State, b: State, b0: State, b1: State, c: Expr, ts: seq<Token>)
    requires Skipped(a, a1) && DidE(fns, a1, b, c, [RParen] + ts) && Skipped(b, b0)
    requires b1 == b0.(ch := Extend(b0.ch, Pending(OP_JMPF)))
    ensures DidGuard(fns, a, b, b1, c, ts)
  {
    hide LaidE, SizeE, LitsE;
    SkipSees(b, b0, RParen, ts);
    EmittedTokens(fns, a1, a, b, b, c);
  }

  // ---------------------------------------------------------------- loops

  lemma WhileReady(fns: Fns, fn: bool, a: State, s: Stmt, k: seq<Token>)
    requires s.While? && ReadyRest(fns, fn, a, s, AfterKeyword(s, k), k)
    ensures ReadyGuard(fns, a, s.c, PrintS(s.body, k))
  {
    hide Print, PrintS, ResolvesE, LitsE, SizeE;
  }

  lemma WhileBody(fns: Fns, fn: bool, a: State, b: State, b1: State, s: Stmt, k: seq<Token>)
    requires s.While? && ReadyRest(fns, fn, a, s, AfterKeyword(s, k), k)
    requires DidGuard(fns, a, b, b1, s.c, PrintS(s.body, k))
    ensures ReadyS(fns, fn, b1, s.body, k)
  {
    hide Print, PrintS, AfterKeyword, LaidE, ResolvesE, LitsE, SizeE;
  }

  lemma WhileDone(fns: Fns, fn: bool, a: State, b: State, b1: State, c: State, e: State, s: Stmt, k: seq<Token>)
    requires s.While? && ReadyRest(fns, fn, a, s, AfterKeyword(s, k), k)
    requires DidGuard(fns, a, b, b1, s.c, PrintS(s.body, k)) && DidS(fns, b1, c, s.body, k)
    requires SameScope(c, e) && e.p == c.p
    requires e.ch == Patch(Extend(c.ch, [OP_LOOP] + Short(SizeS(s))), |b.ch.code| + 1, SizeS(s.body) + 3)
    ensures DidS(fns, a, e, s, k)
  {
    hide Print, PrintS, AfterKeyword, LaidE, LaidS, ResolvesS, LitsE, SizeE;
    EmitWhile(fns, a, b, b1, c, e, s);
  }

  // ----------------------------------------------------------- `if` chains

  predicate ReadyArms(fns: Fns, fn: bool, a: State, s: Arms, k: seq<Token>) {
    Sees(a, PrintArms(s, k)) && k != [] && (OpenArms(s) ==> NoArm(k)) && CanEmitArms(fns, fn, a, s)
  }

  lemma IfReady(fns: Fns, fn: bool, a: State, s: Stmt, k: seq<Token>)
    requires s.If? && ReadyRest(fns, fn, a, s, AfterKeyword(s, k), k)
    ensures ReadyGuard(fns, a, s.c, PrintS(s.then_, PrintArms(s.arms, k)))
  {
    hide Print, PrintS, PrintArms, ResolvesE, LitsE, SizeE;
  }

  lemma ArmsNotEmpty(s: Arms, k: seq<Token>)
    requires k != []
    ensures PrintArms(s, k) != []
    ensures s.End? ==> PrintArms(s, k) == k
  {
    hide Print, PrintS;
  }

  lemma IfThen(fns: Fns, fn: bool, a: State, b: State, b1: State, s: Stmt, k: seq<Token>)
    requires s.If? && ReadyRest(fns, fn, a, s, AfterKeyword(s, k), k)
    requires DidGuard(fns, a, b, b1, s.c, PrintS(s.then_, PrintArms(s.arms, k)))
    ensures ReadyS(fns, fn, b1, s.then_, PrintArms(s.arms, k))
  {
    ArmsNotEmpty(s.arms, k);
    assert Open(s) == OpenArms(s.arms);
    assert s.arms.End? ==> OpenArms(s.arms);
    hide Print, PrintS, AfterKeyword, LaidE, ResolvesE, LitsE, SizeE;
  }

  lemma IfArms(fns: Fns, fn: bool, a: State, b: State, b1: State, c: State, c2: State, s: Stmt, k: seq<Token>)
    requires s.If? && ReadyRest(fns, fn, a, s, AfterKeyword(s, k), k)
    requires DidGuard(fns, a, b, b1, s.c, PrintS(s.then_, PrintArms(s.arms, k)))
             && DidS(fns, b1, c, s.then_, PrintArms(s.arms, k))
    requires c2.p == c.p && SameScope(c, c2)
    requires c2.ch == Patch(Extend(c.ch, Pending(OP_JMP)), |b.ch.code| + 1, SizeS(s.then_) + 3)
    ensures ReadyArms(fns, fn, c2, s.arms, k)
  {
    hide Print, PrintS, PrintArms, AfterKeyword, LaidE, LitsE, SizeE, LaidS, SizeS, LitsS, IfsS, ReadyRest, Short,
      ResolvesArms, OpenArms, Nested, Grows, SizeArms, LitsArms, IfsArms;
    IfFacts(fns, fn, a, s, k);
  }

  lemma IfFacts(fns: Fns, fn: bool, a: State, s: Stmt, k: seq<Token>)
    requires s.If? && ReadyRest(fns, fn, a, s, AfterKeyword(s, k), k)
    ensures Clean(a) && Nested(a.locals, a.scope) && ResolvesArms(s.arms, a.locals, a.scope, fns, fn)
    ensures k != [] && (OpenArms(s.arms) ==> NoArm(k))
    ensures Roomy(a, SizeE(s.c) + 3 + SizeS(s.then_) + 3 + SizeArms(s.arms),
            |LitsE(s.c) + LitsS(s.then_) + LitsArms(s.arms)|,
                  IfsS(s.then_) + IfsArms(s.arms) + 1)
  {
    IfSizes(s);
    assert Open(s) == OpenArms(s.arms);
    hide AfterKeyword, ResolvesE, LitsE, SizeE, SizeS, LitsS, IfsS;
  }

  lemma IfDone(fns: Fns, fn: bool, a: State, b: State, b1: State, c: State, c2: State, d: State, e: State, s: Stmt,
               k: seq<Token>)
    requires s.If? && ReadyRest(fns, fn, a, s, AfterKeyword(s, k), k)
    requires DidGuard(fns, a, b, b1, s.c, PrintS(s.then_, PrintArms(s.arms, k)))
             && DidS(fns, b1, c, s.then_, PrintArms(s.arms, k))
    requires SameScope(c, c2) && c2.ch == Patch(Extend(c.ch, Pending(OP_JMP)), |b.ch.code| + 1, SizeS(s.then_) + 3)
    requires EmittedArms(fns, c2, d, s.arms) && Sees(d, k)
    requires e.p == d.p && SameScope(d, e)
    requires e.ch == Patch(d.ch.(cases := d.ch.cases + [|d.ch.code|]), |c.ch.code| + 1, SizeArms(s.arms))
    ensures DidS(fns, a, e, s, k)
  {
    hide Print, PrintS, PrintArms, AfterKeyword, LaidE, LaidS, ResolvesS, LitsE, SizeE, SizeS, LitsS, IfsS, LaidArms,
         LitsArms, IfsArms, SizeArms;
    EmitIf(fns, a, b, b1, c, c2, d, e, s);
  }

  lemma IfFits(fns: Fns, fn: bool, a: State, b: State, b1: State, c: State, s: Stmt, k: seq<Token>)
    requires s.If? && ReadyRest(fns, fn, a, s, AfterKeyword(s, k), k)
    requires DidGuard(fns, a, b, b1, s.c, PrintS(s.then_, PrintArms(s.arms, k)))
             && DidS(fns, b1, c, s.then_, PrintArms(s.arms, k))
    ensures |c.ch.code| + 3 - (|b.ch.code| + 1) - 2 == SizeS(s.then_) + 3 < 32767
    ensures SizeArms(s.arms) < 32767 && Clean(c)
  {
    IfSizes(s);
    hide Print, PrintS, PrintArms, AfterKeyword, LaidE, ResolvesS, LitsE, SizeE, LaidS, SizeS, LitsS, IfsS;
  }

  lemma ArmsFirst(fns: Fns, fn: bool, a: State, s: Arms, k: seq<Token>)
    requires ReadyArms(fns, fn, a, s, k)
    ensures a.p.cur == ElifKw <==> s.Elif?
    ensures a.p.cur == ElseKw <==> s.Else?
  {
    hide Print, PrintS;
    assert ([a.p.cur] + a.p.rest)[0] == a.p.cur;
  }

  lemma ElifReady(fns: Fns, fn: bool, a: State, a1: State, s: Arms, k: seq<Token>)
    requires s.Elif? && ReadyArms(fns, fn, a, s, k) && Skipped(a, a1)
    ensures ReadyGuard(fns, a1, s.c, PrintS(s.s, PrintArms(s.rest, k)))
  {
    hide Print, PrintS, ResolvesE, LitsE, SizeE;
    var r := Print(s.c, PREC_ASSIGNMENT, [RParen] + PrintS(s.s, PrintArms(s.rest, k)));
    assert [ElifKw, LParen] + r == [ElifKw] + ([LParen] + r);
    SkipSees(a, a1, ElifKw, [LParen] + r);
  }

  lemma ElifBody(fns: Fns, fn: bool, a: State, a1: State, b: State, b1: State, s: Arms, k: seq<Token>)
    requires s.Elif? && ReadyArms(fns, fn, a, s, k) && Skipped(a, a1)
    requires DidGuard(fns, a1, b, b1, s.c, PrintS(s.s, PrintArms(s.rest, k)))
    ensures ReadyS(fns, fn, b1, s.s, PrintArms(s.rest, k))
  {
    ArmsNotEmpty(s.rest, k);
    assert OpenArms(s) == OpenArms(s.rest);
    assert s.rest.End? ==> OpenArms(s.rest);
    hide Print, PrintS, LaidE, ResolvesE, LitsE, SizeE;
  }

  lemma ElifDone(fns: Fns, fn: bool, a: State, a1: State, b: State, b1: State, c: State, e: State, s: Arms,
                 k: seq<Token>)
    requires s.Elif? && ReadyArms(fns, fn, a, s, k) && Skipped(a, a1)
    requires DidGuard(fns, a1, b, b1, s.c, PrintS(s.s, PrintArms(s.rest, k)))
             && DidS(fns, b1, c, s.s, PrintArms(s.rest, k))
    requires e.p == c.p && SameScope(c, e)
    requires e.ch == Patch(Extend(c.ch, [OP_JMPL] + Short(|c.ch.cases|)), |b.ch.code| + 1, SizeS(s.s) + 3)
    ensures EmittedArms(fns, a, e, Elif(s.c, s.s, End)) && ReadyArms(fns, fn, e, s.rest, k)
  {
    hide Print, PrintS, LaidE, LaidS, ResolvesE, LitsE, SizeE, ResolvesS, SizeS, LitsS, IfsS;
    EmitElif(fns, a1, b, b1, c, e, s.c, s.s);
    ArmTokens(fns, a, a1, e, Elif(s.c, s.s, End));
    ElifSizes(s);
    hide EmittedArms;
  }

  lemma ElifSizes(s: Arms)
    requires s.Elif?
    ensures SizeArms(s) == SizeE(s.c) + 3 + SizeS(s.s) + 3 + SizeArms(s.rest)
    ensures LitsArms(s) == LitsE(s.c) + LitsS(s.s) + LitsArms(s.rest)
    ensures IfsArms(s) == IfsS(s.s) + IfsArms(s.rest)
  {
  }

  lemma ElifFits(fns: Fns, fn: bool, a: State, a1: State, b: State, b1: State, c: State, s: Arms, k: seq<Token>)
    requires s.Elif? && ReadyArms(fns, fn, a, s, k) && Skipped(a, a1)
    requires DidGuard(fns, a1, b, b1, s.c, PrintS(s.s, PrintArms(s.rest, k)))
             && DidS(fns, b1, c, s.s, PrintArms(s.rest, k))
    ensures |c.ch.code| + 3 - (|b.ch.code| + 1) - 2 == SizeS(s.s) + 3 < 32767
    ensures |c.ch.cases| < 65536 && Clean(c)
  {
    ElifSizes(s);
    hide Print, PrintS, PrintArms, LaidE, ResolvesArms, LitsE, SizeE, LaidS, SizeS, LitsS, IfsS;
  }

  /** The `elif`s compiled since `a0`, and the arms still ahead. */
  predicate ElifsLeft(fns: Fns, fn: bool, a0: State, a: State, done: Arms, rest: Arms, all: Arms, k: seq<Token>) {
    OnlyElifs(done) && EmittedArms(fns, a0, a, done) && JoinArms(done, rest) == all && ReadyArms(fns, fn, a, rest, k)
  }

  lemma ElifStep(fns: Fns, fn: bool, a0: State, a: State, a1: State, b: State, b1: State, c: State, e: State,
                 done: Arms, s: Arms, all: Arms, k: seq<Token>)
    requires s.Elif? && ElifsLeft(fns, fn, a0, a, done, s, all, k) && Skipped(a, a1)
    requires DidGuard(fns, a1, b, b1, s.c, PrintS(s.s, PrintArms(s.rest, k)))
             && DidS(fns, b1, c, s.s, PrintArms(s.rest, k))
    requires e.p == c.p && SameScope(c, e)
    requires e.ch == Patch(Extend(c.ch, [OP_JMPL] + Short(|c.ch.cases|)), |b.ch.code| + 1, SizeS(s.s) + 3)
    ensures ElifsLeft(fns, fn, a0, e, JoinArms(done, Elif(s.c, s.s, End)), s.rest, all, k)
  {
    hide ReadyArms, DidGuard, DidS, EmittedArms, OnlyElifs, JoinArms, Skipped, SameScope, PrintS, PrintArms;
    ElifDone(fns, fn, a, a1, b, b1, c, e, s, k);
    ElifJoin(fns, a0, a, e, done, s, all);
  }

  lemma ArmTokens(fns: Fns, a: State, a1: State, b: State, s: Arms)
    requires EmittedArms(fns, a1, b, s) && SameScope(a, a1) && a1.ch == a.ch
    ensures EmittedArms(fns, a, b, s)
  {
    hide LaidArms, SizeArms;
  }

  /** One more `elif` joined to those compiled since `a0`. */
  lemma ElifJoin(fns: Fns, a0: State, a: State, e: State, done: Arms, rest: Arms, all: Arms)
    requires OnlyElifs(done) && EmittedArms(fns, a0, a, done) && JoinArms(done, rest) == all && rest.Elif?
    requires EmittedArms(fns, a, e, Elif(rest.c, rest.s, End))
    ensures var more := JoinArms(done, Elif(rest.c, rest.s, End));
            OnlyElifs(more) && EmittedArms(fns, a0, e, more) && JoinArms(more, rest.rest) == all
  {
    hide LaidArms, SizeArms, LitsArms, IfsArms;
    var one := Elif(rest.c, rest.s, End);
    assert OnlyElifs(one) && JoinArms(one, rest.rest) == rest;
    EmitArms(fns, a0, a, e, done, one);
    JoinArmsFacts(done, one);
    JoinArmsAssoc(done, one, rest.rest);
  }

  lemma ElseReady(fns: Fns, fn: bool, a: State, a1: State, s: Arms, k: seq<Token>)
    requires s.Else? && ReadyArms(fns, fn, a, s, k) && Skipped(a, a1)
    ensures ReadyS(fns, fn, a1, s.s, k)
  {
    hide PrintS, ResolvesS, SizeS, LitsS, IfsS;
    SkipSees(a, a1, ElseKw, PrintS(s.s, k));
  }

  lemma ElseDone(fns: Fns, a0: State, a: State, a1: State, b: State, done: Arms, s: Arms, k: seq<Token>)
    requires OnlyElifs(done) && EmittedArms(fns, a0, a, done) && s.Else?
    requires Skipped(a, a1) && DidS(fns, a1, b, s.s, k)
    ensures EmittedArms(fns, a0, b, JoinArms(done, s)) && Sees(b, k)
  {
    hide LaidArms, SizeArms, LitsArms, IfsArms, LaidS, SizeS, LitsS, IfsS;
    EmitElse(fns, a1, b, s.s);
    ArmTokens(fns, a, a1, b, s);
    EmitArms(fns, a0, a, b, done, s);
  }

  lemma NoArms(fns: Fns, a: State)
    ensures EmittedArms(fns, a, a, End)
  {
  }

  // ------------------------------------------------------------------ `pout`

  /** Printed operands still to come. */
  predicate PoutLeft(fns: Fns, a: State, b: State, es: Exprs, rest: Exprs, u: seq<Token>) {
    && EmittedPout(fns, a, b, es)
    && Sees(b, PrintArgs(rest, [RParen] + u))
    && Clean(b) && ResolvesArgs(rest, Names(b.locals), fns) && |b.ch.consts| + |LitsArgs(rest)| <= 256
  }

  function PoutTail(rest: Exprs, u: seq<Token>): seq<Token> {
    if rest.Nil? || rest.tail.Nil? then [RParen] + u else [Comma] + PrintArgs(rest.tail, [RParen] + u)
  }

  lemma PoutStart(fns: Fns, fn: bool, a: State, a1: State, s: Stmt, u: seq<Token>)
    requires s.Pout? && ReadyUpTo(fns, fn, a, s, u)
    ensures a.p.cur == LParen && s.es.Cons?
    ensures Skipped(a, a1) ==> PoutLeft(fns, a, a1, Nil, s.es, u)
  {
    hide PrintArgs, ResolvesArgs;
    SkipSees(a, a1, LParen, PrintArgs(s.es, [RParen] + u));
    assert LaidPout(Nil, Names(a.locals), fns, a1.ch, |a.ch.code|);
  }

  lemma PoutReady(fns: Fns, a: State, b: State, es: Exprs, rest: Exprs, u: seq<Token>)
    requires PoutLeft(fns, a, b, es, rest, u) && rest.Cons?
    ensures ReadyE(fns, b, rest.head, PREC_ASSIGNMENT, PoutTail(rest, u))
  {
    hide Print, EmittedPout;
  }

  lemma PoutStep(fns: Fns, a: State, b: State, c: State, d: State, did: Exprs, rest: Exprs, es: Exprs, u: seq<Token>)
    requires rest.Cons? && PoutLeft(fns, a, b, did, rest, u) && Joined(did, rest) == es
    requires DidE(fns, b, c, rest.head, PoutTail(rest, u))
    requires SameScope(c, d) && d.ch == Extend(c.ch, [OP_PRINT]) && (c.p.cur == Comma ==> Sees(d, c.p.rest))
             && (c.p.cur != Comma ==> d.p == c.p)
    ensures (c.p.cur == Comma) <==> rest.tail.Cons?
    ensures rest.tail.Cons? ==>
            PoutLeft(fns, a, d, Snoc(did, rest.head), rest.tail, u) && Joined(Snoc(did, rest.head), rest.tail) == es
    ensures rest.tail.Nil? ==> EmittedPout(fns, a, d, es) && Sees(d, [RParen] + u)
  {
    hide Print, PrintArgs, LaidE, LaidPout, SizeE, SizePout, LitsE, ResolvesE;
    assert ([c.p.cur] + c.p.rest)[0] == c.p.cur && ([c.p.cur] + c.p.rest)[1..] == c.p.rest;
    EmitPoutSnoc(fns, a, b, c, d, did, rest.head);
    JoinedSnoc(did, rest.head, rest.tail);
    JoinedNil(Snoc(did, rest.head));
    hide EmittedPout;
  }

  /** The parenthesis after the operands. */
  lemma PoutTokens(b: State, c: State, u: seq<Token>)
    requires Sees(b, [RParen] + u)
    ensures b.p.cur == RParen
    ensures Skipped(b, c) ==> Sees(c, u) && SameScope(b, c) && c.ch == b.ch
  {
    SkipSees(b, c, RParen, u);
  }

  lemma PoutDone(fns: Fns, a: State, b: State, c: State, d: State, s: Stmt, u: seq<Token>)
    requires s.Pout? && Clean(a) && EmittedPout(fns, a, b, s.es) && SameScope(b, c) && c.ch == b.ch && Sees(c, u)
    requires u != [] && !Boundary(c.p.pre) && SemiOr(c, d)
    ensures DidUpTo(fns, a, d, s, u)
  {
    hide EmittedS, EmittedPout, Sees, SemiOr, DidUpTo, Boundary;
    EmitPout(fns, a, b, c, s.es);
    UpToDone(fns, a, c, d, s, u);
  }

  // ------------------------------------------------------- missing semicolons

  /** Where `synchronize` stops. */
  predicate Boundary(t: Token) {
    t == Semi || t == FuncKw || t == ForKw || t == IfKw || t == WhileKw || t == PoutKw || t == ReturnKw
  }

  /** The rest of a statement up to its semicolon, followed by `u`. */
  function RestUpTo(s: Stmt, u: seq<Token>): seq<Token>
    requires s.Eval? || s.Pout?
  {
    match s
    case Eval(e) => Print(e, PREC_ASSIGNMENT, u)
    case Pout(es) => [LParen] + PrintArgs(es, [RParen] + u)
  }

  predicate ReadyUpTo(fns: Fns, fn: bool, a: State, s: Stmt, u: seq<Token>) {
    && (s.Eval? || s.Pout?) && Sees(a, RestUpTo(s, u)) && u != []
    && (s.Eval? ==> Follow(PREC_ASSIGNMENT, u[0])) && CanEmitS(fns, fn, a, s)
  }

  function Unflagged(a: State): State {
    a.(p := a.p.(flag := false))
  }

  /** The statement has been compiled. If no semicolon came next, the error flag is set, and the
      parser stands where the statement ended. */
  predicate DidUpTo(fns: Fns, a: State, b: State, s: Stmt, u: seq<Token>) {
    && u != []
    && if u[0] == Semi then EmittedS(fns, a, b, s) && Sees(b, u[1..])
       else EmittedS(fns, a, Unflagged(b), s) && Sees(b, u) && b.p.flag && (b.p.cur.Eof? || !Boundary(b.p.pre))
  }

  /** What `consume` of a semicolon does. */
  predicate SemiOr(c: State, d: State) {
    if c.p.cur == Semi then Skipped(c, d) else d == c.(p := c.p.(flag := true))
  }

  lemma UpToDone(fns: Fns, a: State, c: State, d: State, s: Stmt, u: seq<Token>)
    requires Clean(a) && EmittedS(fns, a, c, s) && Sees(c, u) && u != [] && (c.p.cur.Eof? || !Boundary(c.p.pre))
    requires SemiOr(c, d)
    ensures DidUpTo(fns, a, d, s, u)
  {
    hide LaidS, SizeS, LitsS, IfsS, Boundary;
    assert ([c.p.cur] + c.p.rest)[0] == u[0] && ([c.p.cur] + c.p.rest)[1..] == u[1..];
    if u[0] != Semi {
      assert Unflagged(d) == c;
    }
  }

  lemma EvalEnds(fns: Fns, a: State, b: State, c: State, s: Stmt, u: seq<Token>)
    requires s.Eval? && Clean(a) && DidE(fns, a, b, s.e, u) && u != [] && (b.p.cur.Eof? || !Boundary(b.p.pre))
    requires SemiOr(b, c)
    ensures DidUpTo(fns, a, c, s, u)
  {
    hide Boundary, SemiOr, DidUpTo, EmittedE, EmittedS;
    EmitEval(fns, a, b, b, s.e);
    UpToDone(fns, a, b, c, s, u);
  }

  lemma EvalReady(fns: Fns, fn: bool, a: State, s: Stmt, u: seq<Token>)
    requires s.Eval? && ReadyUpTo(fns, fn, a, s, u)
    ensures ReadyE(fns, a, s.e, PREC_ASSIGNMENT, u) && Clean(a) && u != []
  {
    hide Print, ResolvesE, LitsE, SizeE;
  }

  /** With its semicolon a statement is as before. */
  lemma WholeReady(fns: Fns, fn: bool, a: State, s: Stmt, k: seq<Token>)
    requires (s.Eval? || s.Pout?) && ReadyRest(fns, fn, a, s, AfterKeyword(s, k), k)
    ensures ReadyUpTo(fns, fn, a, s, [Semi] + k)
  {
    hide Print, PrintArgs, ResolvesS, SizeS, LitsS, IfsS;
  }

  lemma WholeDone(fns: Fns, a: State, b: State, s: Stmt, k: seq<Token>)
    requires DidUpTo(fns, a, b, s, [Semi] + k)
    ensures DidS(fns, a, b, s, k)
  {
    hide EmittedS;
  }

  /** The tokens of a statement are ahead, and then others than its semicolon. */
  predicate ReadyTorn(fns: Fns, fn: bool, a: State, s: Stmt, u: seq<Token>) {
    && (s.Eval? || s.Pout?) && Sees(a, PrintUpTo(s, u)) && u != [] && u[0] != Semi
    && (s.Eval? ==> Follow(PREC_ASSIGNMENT, u[0])) && CanEmitS(fns, fn, a, s)
  }

  lemma TornFirst(fns: Fns, fn: bool, a: State, b: State, s: Stmt, u: seq<Token>)
    requires ReadyTorn(fns, fn, a, s, u)
    ensures s.Eval? || s.Pout?
    ensures a.p.cur != VarKw && a.p.cur != FuncKw && !a.p.cur.Eof? && a.p.cur != ElifKw && a.p.cur != ElseKw
    ensures s.Eval? ==> !StartsStatement(a.p.cur) && ReadyUpTo(fns, fn, a, s, u)
    ensures s.Pout? ==> a.p.cur == PoutKw && (Skipped(a, b) ==> ReadyUpTo(fns, fn, b, s, u))
  {
    hide PrintArgs, Print, ResolvesS, SizeS, LitsS, IfsS;
    if s.Eval? {
      PrintFirst(s.e, PREC_ASSIGNMENT, u);
      assert ([a.p.cur] + a.p.rest)[0] == a.p.cur;
    } else {
      var r := PrintArgs(s.es, [RParen] + u);
      assert [PoutKw, LParen] + r == [PoutKw] + ([LParen] + r);
      SkipSees(a, b, PoutKw, [LParen] + r);
    }
  }

  lemma UpToTokens(fns: Fns, a: State, a1: State, b: State, s: Stmt, u: seq<Token>)
    requires DidUpTo(fns, a1, b, s, u) && Skipped(a, a1)
    ensures DidUpTo(fns, a, b, s, u)
  {
    hide LaidS, SizeS, LitsS, IfsS, Boundary;
  }

  // ------------------------------------------------------------- declarations

  /** After `var`: the name, the initialiser, then `ts`. */
  predicate ReadyVar(fns: Fns, a: State, x: Name, e: Expr, ts: seq<Token>) {
    Sees(a, [Id(x), AssignOp] + Print(e, PREC_ASSIGNMENT, [Semi] + ts)) && CanDeclare(fns, a, x, e)
  }

  predicate CanDeclare(fns: Fns, a: State, x: Name, e: Expr) {
    && Clean(a) && MayDeclare(a.locals, a.scope, x)
    && ResolvesE(e, Names(a.locals + [Variable(x, a.scope)]), fns)
    && |a.ch.consts| + |LitsE(e)| <= 256
  }

  lemma VarTokens(fns: Fns, a: State, b: State, x: Name, e: Expr, ts: seq<Token>)
    requires ReadyVar(fns, a, x, e, ts)
    ensures a.p.cur == Id(x)
    ensures [b.p.cur] + b.p.rest == a.p.rest ==>
            b.p.cur == AssignOp && Sees(b, [AssignOp] + Print(e, PREC_ASSIGNMENT, [Semi] + ts))
  {
    hide Print, ResolvesE;
    var k := [AssignOp] + Print(e, PREC_ASSIGNMENT, [Semi] + ts);
    assert [Id(x), AssignOp] + Print(e, PREC_ASSIGNMENT, [Semi] + ts) == [Id(x)] + k;
    SkipSees(a, a, Id(x), k);
    if [b.p.cur] + b.p.rest == a.p.rest {
      assert ([b.p.cur] + b.p.rest)[0] == k[0];
    }
  }

  lemma VarReady(fns: Fns, a: State, b: State, c: State, x: Name, e: Expr, ts: seq<Token>)
    requires ReadyVar(fns, a, x, e, ts)
    requires SameFlags(a, b) && b.ch == a.ch && b.locals == a.locals + [Variable(x, a.scope)]
    requires Sees(b, [AssignOp] + Print(e, PREC_ASSIGNMENT, [Semi] + ts)) && Skipped(b, c)
    ensures ReadyE(fns, c, e, PREC_ASSIGNMENT, [Semi] + ts)
  {
    hide Print, ResolvesE, LitsE;
    SkipSees(b, c, AssignOp, Print(e, PREC_ASSIGNMENT, [Semi] + ts));
  }

  lemma VarDone(fns: Fns, a: State, c: State, d: State, e1: State, f: State, x: Name, e: Expr, ts: seq<Token>)
    requires ReadyVar(fns, a, x, e, ts)
    requires SameFlags(a, c) && c.ch == a.ch && c.locals == a.locals + [Variable(x, a.scope)]
    requires DidE(fns, c, d, e, [Semi] + ts)
    requires e1 == Emit(d, [OP_SET_LOCAL, |a.locals|]) && Skipped(e1, f)
    ensures EmittedD(fns, a, f, Then(Var(x, e), Done)) && Sees(f, ts)
  {
    hide Print, ResolvesE, LaidE, LitsE, SizeE;
    SkipSees(e1, f, Semi, ts);
    EmitVar(fns, a, c, d, f, x, e);
    hide EmittedD;
  }

  lemma NewestNew(locals: seq<Variable>, v: Variable)
    ensures Newest(Names(locals + [v]), v.name) == |locals|
  {
  }

  /** The tokens ahead are those of one declaration, then `ts`. */
  predicate ReadyDecl(fns: Fns, fn: bool, a: State, d: Decl, ts: seq<Token>) {
    match d
    case Var(x, e) => Sees(a, PrintVar(x, e, ts)) && CanDeclare(fns, a, x, e)
    case Do(s) => ReadyS(fns, fn, a, s, ts)
  }

  predicate DidDecl(fns: Fns, a: State, b: State, d: Decl, ts: seq<Token>) {
    EmittedD(fns, a, b, Then(d, Done)) && Sees(b, ts)
  }

  lemma VarFirst(fns: Fns, a: State, b: State, x: Name, e: Expr, ts: seq<Token>)
    requires Sees(a, PrintVar(x, e, ts)) && CanDeclare(fns, a, x, e)
    ensures a.p.cur == VarKw
    ensures Skipped(a, b) ==> ReadyVar(fns, b, x, e, ts)
  {
    hide Print, ResolvesE, LitsE;
    assert PrintVar(x, e, ts) == [VarKw] + ([Id(x), AssignOp] + Print(e, PREC_ASSIGNMENT, [Semi] + ts));
    SkipSees(a, b, VarKw, [Id(x), AssignOp] + Print(e, PREC_ASSIGNMENT, [Semi] + ts));
  }

  lemma DeclFirst(fns: Fns, fn: bool, a: State, d: Decl, ts: seq<Token>)
    requires ReadyDecl(fns, fn, a, d, ts)
    ensures a.p.cur == VarKw <==> d.Var?
    ensures a.p.cur != RCurl && !a.p.cur.Eof? && a.p.cur != ElifKw && a.p.cur != ElseKw
    ensures Clean(a)
  {
    hide PrintVar, PrintS, ResolvesS, ResolvesE, AfterKeyword, Sees, Roomy, Nested;
    match d
    case Var(x, e) => VarFirst(fns, a, a, x, e, ts);
    case Do(s) => StatementFirst(fns, fn, a, s, ts);
  }

  lemma NoArmD(ds: Decls, k: seq<Token>)
    ensures NoArm(PrintD(ds, [RCurl] + k))
  {
    hide Print, PrintArgs, PrintArms, PrintOpt;
    match ds
    case Done =>
    case Then(Var(x, e), t) =>
    case Then(Do(s), t) =>
      KeywordFirst(s, PrintD(t, [RCurl] + k));
      if s.Eval? {
        PrintFirst(s.e, PREC_ASSIGNMENT, [Semi] + PrintD(t, [RCurl] + k));
      }
  }

  lemma DReady(fns: Fns, fn: bool, a: State, ds: Decls, k: seq<Token>)
    requires ReadyD(fns, fn, a, ds, k)
    ensures ds.Done? ==> a.p.cur == RCurl
    ensures ds.Then? ==> ReadyDecl(fns, fn, a, ds.d, PrintD(ds.rest, [RCurl] + k))
  {
    assert ([a.p.cur] + a.p.rest)[0] == a.p.cur;
    if ds.Then? {
      NoArmD(ds.rest, k);
    }
    hide PrintVar, PrintS, ResolvesS, ResolvesE, SizeS, SizeE, LitsS, LitsE, IfsS;
  }

  lemma DStep(fns: Fns, fn: bool, a0: State, a: State, b: State, done: Decls, rest: Decls, ds: Decls, k: seq<Token>)
    requires EmittedD(fns, a0, a, done) && JoinD(done, rest) == ds && rest.Then?
    requires ReadyD(fns, fn, a, rest, k) && DidDecl(fns, a, b, rest.d, PrintD(rest.rest, [RCurl] + k))
    ensures var more := JoinD(done, Then(rest.d, Done));
            EmittedD(fns, a0, b, more) && JoinD(more, rest.rest) == ds && ReadyD(fns, fn, b, rest.rest, k)
  {
    var one := Then(rest.d, Done);
    assert JoinD(one, rest.rest) == rest;
    JoinDAssoc(done, one, rest.rest);
    EmitD(fns, a0, a, b, done, one);
    DRest(fns, fn, a, b, rest, k);
    hide EmittedD, ReadyD;
  }

  lemma OneVar(x: Name, e: Expr, scope: nat)
    ensures var t := Then(Var(x, e), Done);
            Variables(t, scope) == [Variable(x, scope)] && SizeD(t) == SizeE(e) + 2 && LitsD(t) == LitsE(e)
              && IfsD(t) == 0
  {
    hide SizeE, LitsE;
    assert Variables(Done, scope) == [] && SizeD(Done) == IfsD(Done) == 0 && LitsD(Done) == [];
  }

  lemma OneDo(s: Stmt, scope: nat)
    ensures var t := Then(Do(s), Done);
            Variables(t, scope) == [] && SizeD(t) == SizeS(s) && LitsD(t) == LitsS(s) && IfsD(t) == IfsS(s)
  {
    hide SizeS, LitsS, IfsS;
    assert Variables(Done, scope) == [] && SizeD(Done) == IfsD(Done) == 0 && LitsD(Done) == [];
  }

  lemma DRest(fns: Fns, fn: bool, a: State, b: State, ds: Decls, k: seq<Token>)
    requires ds.Then? && ReadyD(fns, fn, a, ds, k) && DidDecl(fns, a, b, ds.d, PrintD(ds.rest, [RCurl] + k))
    ensures ReadyD(fns, fn, b, ds.rest, k)
  {
    hide PrintVar, PrintS, ResolvesS, ResolvesE, SizeS, SizeE, LitsS, LitsE, IfsS, LaidD, Variables;
    match ds.d
    case Var(x, e) => OneVar(x, e, a.scope);
    case Do(s) =>
      OneDo(s, a.scope);
      assert a.locals + [] == a.locals;
  }

  // ------------------------------------------------------------------ blocks

  lemma BlockReady(fns: Fns, fn: bool, a: State, a0: State, s: Stmt, k: seq<Token>)
    requires s.Block? && ReadyRest(fns, fn, a, s, AfterKeyword(s, k), k) && Opened(a, a0) && a0.p == a.p
    ensures ReadyD(fns, fn, a0, s.ds, k)
  {
    hide PrintD, ResolvesD, SizeD, LitsD, IfsD;
  }

  lemma BlockDone(fns: Fns, fn: bool, a: State, a0: State, b: State, c: State, s: Stmt, k: seq<Token>)
    requires s.Block? && ReadyRest(fns, fn, a, s, AfterKeyword(s, k), k) && Opened(a, a0)
    requires EmittedD(fns, a0, b, s.ds) && Sees(b, k) && |b.locals| <= LOCAL_COUNT && Closed(b, c) && c.p == b.p
    ensures DidS(fns, a, c, s, k)
  {
    EmitBlock(fns, a, a0, b, b, c, s.ds);
    hide EmittedS;
  }

  // --------------------------------------------------------------------- `for`

  function InitToks(i: OptVar, k: seq<Token>): seq<Token> {
    match i case NoVar => [Semi] + k case SomeVar(x, e) => PrintVar(x, e, k)
  }

  /** The tokens from the condition of a `for` on. */
  function ForHead(s: Stmt, k: seq<Token>): seq<Token>
    requires s.For?
  {
    PrintOpt(s.cond, [Semi] + PrintOpt(s.inc, [RParen] + PrintS(s.body, k)))
  }

  predicate ReadyInit(fns: Fns, a: State, i: OptVar, ts: seq<Token>) {
    Sees(a, InitToks(i, ts)) && Clean(a) && (i.SomeVar? ==> CanDeclare(fns, a, i.x, i.e))
  }

  predicate CanEmitOpt(fns: Fns, a: State, c: OptExpr) {
    Clean(a) && ResolvesOpt(c, Names(a.locals), fns) && |a.ch.consts| + |LitsOpt(c)| <= 256
  }

  lemma ForStart(fns: Fns, fn: bool, a: State, a0: State, a1: State, s: Stmt, k: seq<Token>)
    requires s.For? && ReadyRest(fns, fn, a, s, AfterKeyword(s, k), k)
    requires Opened(a, a0) && a0.p == a.p && Skipped(a0, a1)
    ensures a0.p.cur == LParen && ReadyInit(fns, a1, s.init, ForHead(s, k))
  {
    ForSizes(s);
    hide PrintS, PrintOpt, PrintVar, ResolvesE, SizeE, SizeS, LitsE, LitsS, IfsS, ResolvesOpt;
    SkipSees(a0, a1, LParen, InitToks(s.init, ForHead(s, k)));
  }

  lemma InitFirst(fns: Fns, a: State, b: State, i: OptVar, ts: seq<Token>)
    requires ReadyInit(fns, a, i, ts)
    ensures i.NoVar? <==> a.p.cur == Semi
    ensures i.NoVar? && Skipped(a, b) ==> EmittedD(fns, a, b, InitDecls(i)) && Sees(b, ts)
    ensures i.SomeVar? ==> a.p.cur == VarKw
    ensures i.SomeVar? && Skipped(a, b) ==> ReadyVar(fns, b, i.x, i.e, ts)
  {
    hide PrintVar, CanDeclare, ReadyVar;
    match i
    case NoVar =>
      SkipSees(a, b, Semi, ts);
      assert Variables(Done, a.scope) == [] && a.locals + [] == a.locals;
      assert LaidD(Done, Names(a.locals), fns, b.ch, |a.ch.code|, |a.ch.cases|)
             && SizeD(Done) == IfsD(Done) == 0 && LitsD(Done) == [];
    case SomeVar(x, e) => VarFirst(fns, a, b, x, e, ts);
  }

  lemma InitDone(fns: Fns, a: State, a1: State, b: State, i: OptVar)
    requires EmittedD(fns, a1, b, InitDecls(i)) && a1 == a.(p := a1.p) && SameScope(a, a1)
    ensures EmittedD(fns, a, b, InitDecls(i))
  {
    hide LaidD, SizeD, LitsD, IfsD, Variables;
  }

  lemma OptFirst(a: State, c: OptExpr, t: Token, ts: seq<Token>)
    requires Sees(a, PrintOpt(c, [t] + ts)) && (t == Semi || t == RParen)
    ensures c.NoExpr? <==> a.p.cur == t
  {
    assert ([a.p.cur] + a.p.rest)[0] == a.p.cur;
    if c.SomeExpr? {
      PrintFirst(c.e, PREC_ASSIGNMENT, [t] + ts);
    }
    hide Print;
  }

  lemma OptReady(fns: Fns, a: State, b: State, c: OptExpr, t: Token, ts: seq<Token>)
    requires Sees(a, PrintOpt(c, [t] + ts)) && CanEmitOpt(fns, a, c) && (t == Semi || t == RParen)
    ensures c.SomeExpr? ==> ReadyE(fns, a, c.e, PREC_ASSIGNMENT, [t] + ts)
    ensures c.NoExpr? && Skipped(a, b) ==> Sees(b, ts)
  {
    hide Print, ResolvesE, LitsE;
    if c.NoExpr? {
      SkipSees(a, b, t, ts);
    }
  }

  lemma NoCond(fns: Fns, a: State, b: State)
    requires b == a.(p := b.p) && SameScope(a, b)
    ensures EmittedCond(fns, a, b, NoExpr) && forall back :: EmittedInc(fns, a, b, NoExpr, back)
  {
  }

  lemma CondDone(fns: Fns, a: State, b: State, c: State, d: State, e: Expr, ts: seq<Token>)
    requires DidE(fns, a, b, e, [Semi] + ts) && Skipped(b, c) && d == c.(ch := Extend(c.ch, Pending(OP_JMPF)))
    ensures EmittedCond(fns, a, d, SomeExpr(e)) && Sees(d, ts)
  {
    hide LaidE, SizeE, LitsE, LaidCond;
    SkipSees(b, c, Semi, ts);
    EmitCond(fns, a, b, d, e);
    hide EmittedCond;
  }

  lemma IncReady(fns: Fns, a: State, a1: State, n: OptExpr, ts: seq<Token>)
    requires Sees(a, PrintOpt(n, [RParen] + ts)) && CanEmitOpt(fns, a, n) && n.SomeExpr?
    requires a1 == a.(ch := Extend(a.ch, Pending(OP_JMP)))
    ensures ReadyE(fns, a1, n.e, PREC_ASSIGNMENT, [RParen] + ts)
  {
    hide Print, ResolvesE, LitsE;
  }

  lemma IncDone(fns: Fns, a: State, a1: State, b: State, b1: State, c: State, e: Expr, ts: seq<Token>, back: nat)
    requires a1 == a.(ch := Extend(a.ch, Pending(OP_JMP)))
    requires DidE(fns, a1, b, e, [RParen] + ts) && b1 == Emit(b, [OP_POP]) && back + 3 + SizeE(e) + 1 + 3 < 65536
    requires SameScope(b, c) && [c.p.cur] + c.p.rest == b.p.rest
    requires c.ch == Patch(Extend(b1.ch, [OP_LOOP] + Short(back + 3 + SizeE(e) + 1 + 3)), |a.ch.code| + 1,
             SizeE(e) + 1 + 3)
    ensures EmittedInc(fns, a, c, SomeExpr(e), back) && Sees(c, ts)
  {
    hide LaidE, SizeE, LitsE, LaidInc;
    var o := Short(back + 3 + SizeE(e) + 1 + 3);
    assert b.ch.code + [OP_POP] + ([OP_LOOP] + o) == b.ch.code + ([OP_POP, OP_LOOP] + o);
    SkipSees(b, b, RParen, ts);
    EmitInc(fns, a, a1, b, c, e, back);
    hide EmittedInc;
  }

  lemma ForCondReady(fns: Fns, fn: bool, a: State, a0: State, i1: State, s: Stmt, k: seq<Token>)
    requires s.For? && ReadyRest(fns, fn, a, s, AfterKeyword(s, k), k) && Opened(a, a0)
    requires EmittedD(fns, a0, i1, InitDecls(s.init))
    ensures CanEmitOpt(fns, i1, s.cond)
  {
    hide ResolvesS, AfterKeyword, ResolvesOpt, LitsOpt, SizeCond, SizeInc, SizeS, LitsS, IfsS, ReadyRest, EmittedD,
         Names, InitLocals, Nested;
    ForNames(fns, fn, a, a0, i1, s, k);
  }

  /** The state after the initialiser, in terms of the loop's own scope. */
  lemma ForNames(fns: Fns, fn: bool, a: State, a0: State, i1: State, s: Stmt, k: seq<Token>)
    requires s.For? && ReadyRest(fns, fn, a, s, AfterKeyword(s, k), k) && Opened(a, a0)
    requires EmittedD(fns, a0, i1, InitDecls(s.init))
    ensures i1.locals == InitLocals(a, s.init)
    ensures Clean(i1) && i1.scope == a.scope + 1 && Nested(i1.locals, i1.scope)
    ensures ResolvesOpt(s.cond, Names(i1.locals), fns) && ResolvesOpt(s.inc, Names(i1.locals), fns)
    ensures ResolvesS(s.body, i1.locals, i1.scope, fns, fn)
    ensures Roomy(i1, SizeCond(s.cond) + SizeInc(s.inc) + SizeS(s.body) + 3,
            |LitsOpt(s.cond) + LitsOpt(s.inc) + LitsS(s.body)|, IfsS(s.body))
  {
    hide ReadyRest, AfterKeyword, ResolvesS, ResolvesOpt, InitLocals, Names, EmittedD, Nested, SizeS, SizeInc, SizeCond,
         SizeInit, LitsS, LitsOpt, LitsInit,
      IfsS, InitDecls;
    ForFacts(fns, fn, a, s, k);
    InitState(fns, a, a0, i1, s);
  }

  function InitLocals(a: State, i: OptVar): seq<Variable> {
    match i case NoVar => a.locals case SomeVar(x, _) => a.locals + [Variable(x, a.scope + 1)]
  }

  lemma InitState(fns: Fns, a: State, a0: State, i1: State, s: Stmt)
    requires s.For? && Nested(a.locals, a.scope) && Clean(a) && Opened(a, a0)
             && EmittedD(fns, a0, i1, InitDecls(s.init))
    ensures i1.locals == InitLocals(a, s.init)
    ensures Clean(i1) && i1.scope == a.scope + 1 && Nested(i1.locals, i1.scope)
    ensures |i1.ch.code| == |a.ch.code| + SizeInit(s.init) && i1.ch.consts == a.ch.consts + LitsInit(s.init)
            && |i1.ch.cases| == |a.ch.cases|
  {
    hide SizeE, LitsE, LaidD, Variables, SizeD, LitsD, IfsD;
    ForSizes(s);
    if s.init.SomeVar? {
      OneVar(s.init.x, s.init.e, a.scope + 1);
    } else {
      assert Variables(Done, a.scope + 1) == [] && a.locals + [] == a.locals;
    }
  }

  lemma ForFacts(fns: Fns, fn: bool, a: State, s: Stmt, k: seq<Token>)
    requires s.For? && ReadyRest(fns, fn, a, s, AfterKeyword(s, k), k)
    ensures Clean(a) && Nested(a.locals, a.scope)
    ensures ResolvesOpt(s.cond, Names(InitLocals(a, s.init)), fns)
            && ResolvesOpt(s.inc, Names(InitLocals(a, s.init)), fns)
    ensures ResolvesS(s.body, InitLocals(a, s.init), a.scope + 1, fns, fn)
    ensures Roomy(a, SizeInit(s.init) + SizeCond(s.cond) + SizeInc(s.inc) + SizeS(s.body) + 3,
                  |LitsInit(s.init) + LitsOpt(s.cond) + LitsOpt(s.inc) + LitsS(s.body)|, IfsS(s.body))
  {
    hide AfterKeyword, ResolvesE, SizeE, LitsE, ResolvesOpt, SizeInit, SizeCond, SizeInc, LitsInit, LitsOpt, SizeS,
         LitsS, IfsS, SizeD, LitsD, IfsD,
      Declared, Nested, MayDeclare, Names;
    ForSizes(s);
  }

  lemma CondState(fns: Fns, a: State, b: State, c: OptExpr)
    requires EmittedCond(fns, a, b, c)
    ensures SameScope(a, b) && |b.ch.code| == |a.ch.code| + SizeCond(c) && b.ch.consts == a.ch.consts + LitsOpt(c)
            && b.ch.cases == a.ch.cases
  {
  }

  lemma IncState(fns: Fns, a: State, b: State, n: OptExpr, back: nat)
    requires EmittedInc(fns, a, b, n, back)
    ensures SameScope(a, b) && |b.ch.code| == |a.ch.code| + SizeInc(n) && b.ch.consts == a.ch.consts + LitsOpt(n)
            && b.ch.cases == a.ch.cases
  {
  }

  lemma RestOpen(fns: Fns, fn: bool, a: State, s: Stmt, ts: seq<Token>, k: seq<Token>)
    requires s.For? && ReadyRest(fns, fn, a, s, ts, k)
    ensures k != [] && (Open(s.body) ==> NoArm(k))
  {
    assert Open(s) == Open(s.body);
  }

  lemma ForIncReady(fns: Fns, fn: bool, a: State, a0: State, i1: State, b: State, s: Stmt, k: seq<Token>)
    requires s.For? && ReadyRest(fns, fn, a, s, AfterKeyword(s, k), k) && Opened(a, a0)
    requires EmittedD(fns, a0, i1, InitDecls(s.init)) && EmittedCond(fns, i1, b, s.cond)
    ensures CanEmitOpt(fns, b, s.inc)
  {
    hide ResolvesS, AfterKeyword, ResolvesOpt, LitsOpt, SizeCond, SizeInc, SizeS, LitsS, IfsS, ReadyRest, EmittedD,
         EmittedCond, Names, InitLocals, Nested;
    ForNames(fns, fn, a, a0, i1, s, k);
    CondState(fns, i1, b, s.cond);
  }

  lemma ForBodyReady(fns: Fns, fn: bool, a: State, a0: State, i1: State, b: State, c: State, s: Stmt, k: seq<Token>)
    requires s.For? && ReadyRest(fns, fn, a, s, AfterKeyword(s, k), k) && Opened(a, a0)
    requires EmittedD(fns, a0, i1, InitDecls(s.init)) && EmittedCond(fns, i1, b, s.cond)
    requires EmittedInc(fns, b, c, s.inc, SizeCond(s.cond)) && Sees(c, PrintS(s.body, k))
    ensures ReadyS(fns, fn, c, s.body, k)
  {
    hide ResolvesS, AfterKeyword, ResolvesOpt, LitsOpt, SizeCond, SizeInc, SizeS, LitsS, IfsS, ReadyRest, EmittedD,
         EmittedCond, EmittedInc, Names,
      InitLocals, Nested, PrintS, Sees, Open, NoArm;
    ForNames(fns, fn, a, a0, i1, s, k);
    RestOpen(fns, fn, a, s, AfterKeyword(s, k), k);
    CondState(fns, i1, b, s.cond);
    IncState(fns, b, c, s.inc, SizeCond(s.cond));
  }

  /** A `for` has been compiled up to its body. */
  predicate ForBegun(fns: Fns, fn: bool, a: State, a0: State, i1: State, b: State, c: State, s: Stmt, k: seq<Token>,
                     start: nat, exit: int) {
    && s.For? && ReadyRest(fns, fn, a, s, AfterKeyword(s, k), k) && Opened(a, a0) && a0.scope < 256
    && EmittedD(fns, a0, i1, InitDecls(s.init)) && EmittedCond(fns, i1, b, s.cond)
    && EmittedInc(fns, b, c, s.inc, SizeCond(s.cond))
    && start == (if s.inc.NoExpr? then |i1.ch.code| else |b.ch.code| + 3)
    && exit == if s.cond.NoExpr? then -1 else |b.ch.code| - 2
  }

  lemma ForParts(fns: Fns, fn: bool, a: State, a0: State, i1: State, b: State, c: State, s: Stmt, k: seq<Token>,
                 start: nat, exit: int)
    requires ForBegun(fns, fn, a, a0, i1, b, c, s, k, start, exit)
    ensures s.For? && Opened(a, a0) && a.scope + 1 < 256 && EmittedD(fns, a0, i1, InitDecls(s.init))
            && EmittedCond(fns, i1, b, s.cond)
    ensures EmittedInc(fns, b, c, s.inc, SizeCond(s.cond))
    ensures start == if s.inc.NoExpr? then |i1.ch.code| else |b.ch.code| + 3
    ensures exit == if s.cond.NoExpr? then -1 else |b.ch.code| - 2
  {
  }

  lemma ForDone(fns: Fns, fn: bool, a: State, a0: State, i1: State, b: State, c: State, d: State, f: State, g: State,
                s: Stmt, k: seq<Token>)
    requires s.For? && ReadyRest(fns, fn, a, s, AfterKeyword(s, k), k) && Opened(a, a0)
    requires EmittedD(fns, a0, i1, InitDecls(s.init)) && EmittedCond(fns, i1, b, s.cond)
    requires EmittedInc(fns, b, c, s.inc, SizeCond(s.cond)) && DidS(fns, c, d, s.body, k)
    requires SameScope(d, f) && (s.cond.SomeExpr? ==> 3 <= |b.ch.code| <= |d.ch.code|)
    requires f.ch == ForChunk(s, d.ch, if s.cond.SomeExpr? then |b.ch.code| - 3 else 0) && f.p == d.p
    requires Closed(f, g) && g.p == f.p
    ensures DidS(fns, a, g, s, k)
  {
    hide LaidD, LaidS, LaidCond, LaidInc, SizeD, LitsD, IfsD, ForChunk, AfterKeyword, ResolvesS, Closed, SizeS, LitsS,
         IfsS, SizeCond, SizeInc, LitsOpt, InitDecls, Variables;
    assert |a.ch.code| + SizeS(s) < 65536;
    EmitFor(fns, a, a0, i1, b, c, d, f, g, s);
    hide EmittedS;
  }

  // ------------------------------------------------------------- small facts

  lemma VarMay(fns: Fns, a: State, x: Name, e: Expr, ts: seq<Token>)
    requires ReadyVar(fns, a, x, e, ts)
    ensures MayDeclare(a.locals, a.scope, x) && Clean(a)
  {
  }

  lemma GuardFirst(fns: Fns, a: State, c: Expr, ts: seq<Token>)
    requires ReadyGuard(fns, a, c, ts)
    ensures a.p.cur == LParen
  {
    hide Print;
    assert ([a.p.cur] + a.p.rest)[0] == a.p.cur;
  }

  lemma DidTokens(fns: Fns, a: State, b: State, c: State, s: Stmt, k: seq<Token>)
    requires DidS(fns, b, c, s, k) && b == a.(p := b.p) && SameScope(a, b)
    ensures DidS(fns, a, c, s, k)
  {
    hide LaidS, SizeS, LitsS, IfsS;
  }

  lemma WhileSizes(fns: Fns, fn: bool, a: State, b: State, b1: State, d: State, s: Stmt, k: seq<Token>)
    requires s.While? && ReadyRest(fns, fn, a, s, AfterKeyword(s, k), k)
    requires DidGuard(fns, a, b, b1, s.c, PrintS(s.body, k)) && DidS(fns, b1, d, s.body, k)
    ensures |d.ch.code| - |a.ch.code| + 3 == SizeS(s) < 32767
            && |d.ch.code| + 3 - (|b.ch.code| + 1) - 2 == SizeS(s.body) + 3
    ensures Clean(d)
  {
    hide Print, PrintS, AfterKeyword, LaidE, LaidS, ResolvesS, SizeE;
  }

  lemma JoinedNone(es: Exprs)
    ensures Joined(Nil, es) == es
  {
  }

  lemma IfSize(fns: Fns, a: State, b: State, s: Arms)
    requires EmittedArms(fns, a, b, s)
    ensures |b.ch.code| == |a.ch.code| + SizeArms(s) && SameScope(a, b) && a.ch.code <= b.ch.code
  {
  }

  lemma ElifsStart(fns: Fns, fn: bool, a: State, s: Arms, k: seq<Token>)
    requires ReadyArms(fns, fn, a, s, k)
    ensures ElifsLeft(fns, fn, a, a, End, s, s, k)
  {
    NoArms(fns, a);
  }

  lemma ElifsNext(fns: Fns, fn: bool, a0: State, a: State, a1: State, done: Arms, s: Arms, all: Arms, k: seq<Token>)
    requires ElifsLeft(fns, fn, a0, a, done, s, all, k) && a.p.cur == ElifKw
    ensures s.Elif? && ReadyArms(fns, fn, a, s, k)
    ensures Skipped(a, a1) ==> ReadyGuard(fns, a1, s.c, PrintS(s.s, PrintArms(s.rest, k)))
  {
    hide ReadyArms, ReadyGuard, EmittedArms;
    ArmsFirst(fns, fn, a, s, k);
    if Skipped(a, a1) {
      ElifReady(fns, fn, a, a1, s, k);
    }
  }

  lemma ElifsEnd(fns: Fns, fn: bool, a0: State, a: State, done: Arms, s: Arms, all: Arms, k: seq<Token>)
    requires ElifsLeft(fns, fn, a0, a, done, s, all, k) && a.p.cur != ElifKw
    ensures OnlyElifs(done) && EmittedArms(fns, a0, a, done) && JoinArms(done, s) == all && ReadyArms(fns, fn, a, s, k)
    ensures a.p.cur == ElseKw <==> s.Else?
    ensures !s.Else? ==> s.End? && done == all && Sees(a, k)
  {
    ArmsFirst(fns, fn, a, s, k);
    JoinArmsEnd(done);
    hide EmittedArms, JoinArms, OnlyElifs;
  }

  lemma BlockOpens(fns: Fns, fn: bool, a: State, a0: State, s: Stmt, k: seq<Token>)
    requires s.Block? && ReadyRest(fns, fn, a, s, AfterKeyword(s, k), k)
    requires a0 == a.(scope := (a.scope + 1) % 256)
    ensures Opened(a, a0)
  {
    hide AfterKeyword, ResolvesD, SizeS, LitsS, IfsS;
  }

  lemma BlockScope(fns: Fns, a: State, a0: State, b: State, s: Stmt)
    requires s.Block? && Opened(a, a0) && EmittedD(fns, a0, b, s.ds)
    ensures b.scope == a.scope + 1
  {
  }

  lemma ForOpens(fns: Fns, fn: bool, a: State, a0: State, s: Stmt, k: seq<Token>)
    requires s.For? && ReadyRest(fns, fn, a, s, AfterKeyword(s, k), k)
    requires a0 == a.(scope := (a.scope + 1) % 256)
    ensures Opened(a, a0) && a0.p == a.p && a.scope + 1 < 256 && a0.p.cur == LParen
  {
    ForOpens2(s, k);
    assert ([a.p.cur] + a.p.rest)[0] == a.p.cur;
    hide AfterKeyword, ResolvesE, ResolvesOpt, SizeS, LitsS, IfsS;
  }

  lemma ForOpens2(s: Stmt, k: seq<Token>)
    requires s.For?
    ensures AfterKeyword(s, k) == [LParen] + InitToks(s.init, ForHead(s, k))
  {
  }

  lemma DStart(fns: Fns, a: State, ds: Decls)
    ensures EmittedD(fns, a, a, Done) && JoinD(Done, ds) == ds
  {
    assert Variables(Done, a.scope) == [] && a.locals + [] == a.locals;
  }

  lemma DEnd(fns: Fns, fn: bool, a: State, b: State, c: State, done: Decls, rest: Decls, ds: Decls, k: seq<Token>)
    requires EmittedD(fns, a, b, done) && JoinD(done, rest) == ds && ReadyD(fns, fn, b, rest, k)
    requires b.p.cur == RCurl || b.p.cur.Eof?
    ensures b.p.cur == RCurl
    ensures Skipped(b, c) ==> EmittedD(fns, a, c, ds) && Sees(c, k)
  {
    DReady(fns, fn, b, rest, k);
    if rest.Then? {
      DeclFirst(fns, fn, b, rest.d, PrintD(rest.rest, [RCurl] + k));
    }
    JoinDDone(done);
    assert [RCurl] + k == PrintD(Done, [RCurl] + k);
    SkipSees(b, c, RCurl, k);
    hide LaidD, SizeD, Variables;
  }

  lemma DeclVar(fns: Fns, fn: bool, a: State, b: State, d: Decl, ts: seq<Token>)
    requires ReadyDecl(fns, fn, a, d, ts) && d.Var? && Skipped(a, b)
    ensures ReadyVar(fns, b, d.x, d.e, ts)
  {
    VarFirst(fns, a, b, d.x, d.e, ts);
  }

  lemma DeclVarDone(fns: Fns, a: State, b: State, c: State, d: Decl, ts: seq<Token>)
    requires d.Var? && Skipped(a, b) && EmittedD(fns, b, c, Then(Var(d.x, d.e), Done)) && Sees(c, ts)
    ensures DidDecl(fns, a, c, d, ts) && c.p.flag == a.p.flag
  {
    hide LaidD, SizeD, LitsD, IfsD, Variables;
  }

  lemma DeclDo(fns: Fns, fn: bool, a: State, d: Decl, ts: seq<Token>)
    requires ReadyDecl(fns, fn, a, d, ts) && d.Do?
    ensures ReadyS(fns, fn, a, d.s, ts)
  {
  }

  lemma DeclDoDone(fns: Fns, a: State, b: State, d: Decl, ts: seq<Token>)
    requires d.Do? && DidS(fns, a, b, d.s, ts)
    ensures DidDecl(fns, a, b, d, ts) && b.p.flag == a.p.flag
  {
    EmitDo(fns, a, b, d.s);
    hide EmittedD;
  }

  lemma ForHeadIs(s: Stmt, k: seq<Token>)
    requires s.For?
    ensures ForHead(s, k) == PrintOpt(s.cond, [Semi] + PrintOpt(s.inc, [RParen] + PrintS(s.body, k)))
  {
  }

  lemma ForIncFits(fns: Fns, fn: bool, a: State, a0: State, i1: State, b: State, s: Stmt, k: seq<Token>)
    requires s.For? && ReadyRest(fns, fn, a, s, AfterKeyword(s, k), k) && Opened(a, a0)
    requires EmittedD(fns, a0, i1, InitDecls(s.init)) && EmittedCond(fns, i1, b, s.cond)
    ensures |b.ch.code| - |i1.ch.code| == SizeCond(s.cond) && SizeCond(s.cond) + SizeInc(s.inc) < 32767
  {
    ForSizes(s);
    hide AfterKeyword, ResolvesS, EmittedD, LaidCond, SizeCond, SizeInc, SizeS;
  }

  /** The distances of the two jumps emitted after the body. */
  lemma ForFits(fns: Fns, fn: bool, a: State, a0: State, i1: State, b: State, c: State, d: State, s: Stmt,
                k: seq<Token>)
    requires s.For? && ReadyRest(fns, fn, a, s, AfterKeyword(s, k), k) && Opened(a, a0)
    requires EmittedD(fns, a0, i1, InitDecls(s.init)) && EmittedCond(fns, i1, b, s.cond)
    requires EmittedInc(fns, b, c, s.inc, SizeCond(s.cond)) && DidS(fns, c, d, s.body, k)
    ensures |d.ch.code| - (if s.inc.NoExpr? then |i1.ch.code| else |b.ch.code| + 3) + 3 ==
            BackFor(s.cond, s.inc, s.body) < 32767
    ensures |d.ch.code| + 3 - (|b.ch.code| - 2) - 2 == SizeInc(s.inc) + SizeS(s.body) + 3 < 32767
    ensures |b.ch.code| <= |d.ch.code| && (s.cond.SomeExpr? ==> |b.ch.code| >= 3)
    ensures Clean(d) && d.scope == a.scope + 1
  {
    ForSizes(s);
    CondAtLeast(s.cond);
    hide AfterKeyword, ResolvesS, LaidD, LaidCond, LaidInc, LaidS, SizeS, LitsS, IfsS, LitsOpt, SizeE, SizeD, LitsD,
         IfsD, Variables;
  }

  lemma IncSizes(fns: Fns, a: State, a1: State, b: State, e: Expr, ts: seq<Token>)
    requires a1 == a.(ch := Extend(a.ch, Pending(OP_JMP))) && DidE(fns, a1, b, e, [RParen] + ts)
    ensures |b.ch.code| == |a.ch.code| + 3 + SizeE(e) && SameScope(a, b)
  {
  }

  /** The same on the chunk alone; the condition ends at `n`. */
  lemma JumpsMade(s: Stmt, n: nat, d: State, l: State, f: State, start: nat, exit: int)
    requires s.For? && |d.ch.code| - start + 3 == BackFor(s.cond, s.inc, s.body) < 32767
    requires |d.ch.code| + 3 - (n - 2) - 2 == SizeInc(s.inc) + SizeS(s.body) + 3 < 32767
    requires n <= |d.ch.code| && (s.cond.SomeExpr? ==> n >= 3)
    requires exit == if s.cond.NoExpr? then -1 else n - 2
    requires l == d.(ch := Extend(d.ch, [OP_LOOP] + Short(|d.ch.code| - start + 3)))
    requires f == if exit == -1 then l else l.(ch := Patch(l.ch, exit, |l.ch.code| - exit - 2))
    ensures f.ch == ForChunk(s, d.ch, if s.cond.SomeExpr? then n - 3 else 0)
  {
    hide BackFor, SizeS, SizeInc, Short;
  }

  /** The back jump after the body, then the exit jump patched. */
  lemma ForJumps(fns: Fns, fn: bool, a: State, a0: State, i1: State, b: State, c: State, d: State, l: State, f: State,
                 s: Stmt, k: seq<Token>,
                 start: nat, exit: int)
    requires s.For? && ReadyRest(fns, fn, a, s, AfterKeyword(s, k), k) && Opened(a, a0)
    requires EmittedD(fns, a0, i1, InitDecls(s.init)) && EmittedCond(fns, i1, b, s.cond)
    requires EmittedInc(fns, b, c, s.inc, SizeCond(s.cond)) && DidS(fns, c, d, s.body, k)
    requires start == if s.inc.NoExpr? then |i1.ch.code| else |b.ch.code| + 3
    requires exit == if s.cond.NoExpr? then -1 else |b.ch.code| - 2
    requires l.ch == Extend(d.ch, [OP_LOOP] + Short(|d.ch.code| - start + 3))
    requires exit == -1 || 0 <= exit < exit + 1 < |l.ch.code|
    requires l == d.(ch := l.ch, p := l.p) && l.p == if |d.ch.code| - start + 3 > 65535 then d.p.(flag := true) else d.p
    requires exit == -1 ==> f == l
    requires exit != -1 ==> f == l.(ch := f.ch, p := f.p) && f.ch == Patch(l.ch, exit, |l.ch.code| - exit - 2)
    requires exit != -1 ==> f.p == if |l.ch.code| - exit - 2 >= 32767 then l.p.(flag := true) else l.p
    ensures SameScope(d, f) && (s.cond.SomeExpr? ==> 3 <= |b.ch.code| <= |d.ch.code|)
    ensures f.ch == ForChunk(s, d.ch, if s.cond.SomeExpr? then |b.ch.code| - 3 else 0) && f.p == d.p
    ensures f.scope == a.scope + 1
  {
    hide AfterKeyword, ResolvesS, LaidD, LaidCond, LaidInc, LaidS, SizeS, LitsS, IfsS, LitsOpt, SizeE, SizeD, LitsD,
         IfsD, Variables, ReadyRest,
      EmittedD, EmittedCond, EmittedInc, BackFor, Short, SizeCond, SizeInc, ForChunk, Patch;
    ForFits(fns, fn, a, a0, i1, b, c, d, s, k);
    JumpsMade(s, |b.ch.code|, d, l, f, start, exit);
  }

  /** The patched condition of an `if`. */
  lemma IfPatched(fns: Fns, fn: bool, a: State, b: State, b1: State, c: State, c2: State, s: Stmt, k: seq<Token>)
    requires s.If? && ReadyRest(fns, fn, a, s, AfterKeyword(s, k), k)
    requires DidGuard(fns, a, b, b1, s.c, PrintS(s.then_, PrintArms(s.arms, k)))
             && DidS(fns, b1, c, s.then_, PrintArms(s.arms, k))
    requires |b.ch.code| + 2 < |c.ch.code| + 3
    requires c2 == c.(ch := c2.ch, p := c2.p)
    requires c2.ch == Patch(Extend(c.ch, Pending(OP_JMP)), |b.ch.code| + 1, |c.ch.code| + 3 - (|b.ch.code| + 1) - 2)
    requires c2.p == if |c.ch.code| + 3 - (|b.ch.code| + 1) - 2 >= 32767 then c.p.(flag := true) else c.p
    ensures c2.p == c.p && SameScope(c, c2)
    ensures c2.ch == Patch(Extend(c.ch, Pending(OP_JMP)), |b.ch.code| + 1, SizeS(s.then_) + 3)
    ensures ReadyArms(fns, fn, c2, s.arms, k)
  {
    hide ReadyRest, DidGuard, DidS, AfterKeyword, ReadyArms, PrintS, PrintArms, Patch, Extend, Pending;
    IfFits(fns, fn, a, b, b1, c, s, k);
    IfArms(fns, fn, a, b, b1, c, c2, s, k);
  }

  lemma IfClosed(fns: Fns, fn: bool, a: State, b: State, b1: State, c: State, c2: State, d: State, e: State, s: Stmt,
                 k: seq<Token>)
    requires s.If? && ReadyRest(fns, fn, a, s, AfterKeyword(s, k), k)
    requires DidGuard(fns, a, b, b1, s.c, PrintS(s.then_, PrintArms(s.arms, k)))
             && DidS(fns, b1, c, s.then_, PrintArms(s.arms, k))
    requires SameScope(c, c2) && |c2.ch.code| == |c.ch.code| + 3 <= |d.ch.code|
    requires |b.ch.code| + 2 < |c.ch.code| + 3
             && c2.ch == Patch(Extend(c.ch, Pending(OP_JMP)), |b.ch.code| + 1, SizeS(s.then_) + 3)
    requires EmittedArms(fns, c2, d, s.arms) && Sees(d, k)
    requires e == d.(ch := e.ch, p := e.p)
    requires e.ch == Patch(d.ch.(cases := d.ch.cases + [|d.ch.code|]), |c.ch.code| + 1,
             |d.ch.code| - (|c.ch.code| + 1) - 2)
    requires e.p == if |d.ch.code| - (|c.ch.code| + 1) - 2 >= 32767 then d.p.(flag := true) else d.p
    ensures DidS(fns, a, e, s, k)
  {
    hide ReadyRest, DidGuard, DidS, AfterKeyword, PrintS, PrintArms, EmittedArms, SizeS, SizeArms;
    IfFits(fns, fn, a, b, b1, c, s, k);
    IfSize(fns, c2, d, s.arms);
    IfDone(fns, fn, a, b, b1, c, c2, d, e, s, k);
  }

  lemma ElifPatched(fns: Fns, fn: bool, a0: State, a: State, a1: State, b: State, b1: State, c: State, e: State,
                    done: Arms, s: Arms, all: Arms, k: seq<Token>)
    requires s.Elif? && ElifsLeft(fns, fn, a0, a, done, s, all, k) && Skipped(a, a1)
    requires DidGuard(fns, a1, b, b1, s.c, PrintS(s.s, PrintArms(s.rest, k)))
             && DidS(fns, b1, c, s.s, PrintArms(s.rest, k))
    requires |b.ch.code| + 2 < |c.ch.code| + 3 && e == c.(ch := e.ch, p := e.p)
    requires e.ch == Patch(Extend(c.ch, [OP_JMPL] + Short(|c.ch.cases|)), |b.ch.code| + 1,
             |c.ch.code| + 3 - (|b.ch.code| + 1) - 2)
    requires e.p == if |c.ch.code| + 3 - (|b.ch.code| + 1) - 2 >= 32767 then c.p.(flag := true) else c.p
    ensures ElifsLeft(fns, fn, a0, e, JoinArms(done, Elif(s.c, s.s, End)), s.rest, all, k)
  {
    hide ReadyArms, DidGuard, DidS, EmittedArms, PrintS, PrintArms, OnlyElifs, JoinArms, SizeS, Skipped;
    ElifFits(fns, fn, a, a1, b, b1, c, s, k);
    ElifStep(fns, fn, a0, a, a1, b, b1, c, e, done, s, all, k);
  }
}
