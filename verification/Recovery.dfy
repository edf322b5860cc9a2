/** How the parser recovers from a missing semicolon: `consume`, `synchronize`, and where parsing goes on. */
module Recovery {
  import opened Syntax
  import opened Emission
  import opened Spine
  import opened Layout
  import opened Prefixes
  import opened Statements
  import opened StmtEmission

  /** The parser is somewhere in the tokens that it was given, or past their end. */
  predicate Follows(all: seq<Token>, p: Parser) {
    (p.cur.Eof? && p.pre.Eof?)
    || (|p.rest| + 2 <= |all| && [p.pre, p.cur] + p.rest == all[|all| - |p.rest| - 2..])
  }

  /** `ts` is some tokens, none of them a boundary, and then `k`. */
  predicate LeadsTo(ts: seq<Token>, k: seq<Token>) {
    |ts| >= |k| && ts[|ts| - |k|..] == k && forall i :: 0 <= i < |ts| - |k| ==> !Boundary(ts[i])
  }

  lemma Lead(t: Token, ts: seq<Token>, k: seq<Token>)
    requires !Boundary(t) && LeadsTo(ts, k)
    ensures LeadsTo([t] + ts, k)
  {
    hide Boundary;
  }

  lemma LeadOn(ts: seq<Token>, m: seq<Token>, k: seq<Token>)
    requires LeadsTo(ts, m) && LeadsTo(m, k)
    ensures LeadsTo(ts, k)
  {
    hide Boundary;
    forall i | 0 <= i < |ts| - |k| ensures !Boundary(ts[i]) {
      if i >= |ts| - |m| {
        assert ts[i] == m[i - (|ts| - |m|)];
      }
    }
  }

  lemma LeadHere(k: seq<Token>)
    ensures LeadsTo(k, k) && LeadsTo([RParen] + k, k) && LeadsTo([Comma] + k, k) && LeadsTo([LParen] + k, k)
  {
  }

  /** No token of an expression is a boundary. */
  lemma {:induction false} PrintLeads(e: Expr, p: nat, k: seq<Token>)
    ensures LeadsTo(Print(e, p, k), k)
    decreases e, 2
  {
    hide LeadsTo, Bare, Prec, Boundary;
    LeadHere(k);
    if Prec(e) < p {
      BareLeads(e, [RParen] + k);
      LeadOn(Bare(e, [RParen] + k), [RParen] + k, k);
      Front(LParen, Bare(e, [RParen] + k), k);
    } else {
      BareLeads(e, k);
    }
  }

  lemma Front(t: Token, ts: seq<Token>, k: seq<Token>)
    requires LeadsTo(ts, k)
    requires t.LParen? || t.RParen? || t.Comma? || t.AssignOp? || t.CompoundOp? || t.BinTok? || t.Bang? || t.IncOp?
             || t.DecOp?
             || t.Number? || t.True? || t.False? || t.NullTok? || t.Id?
    ensures LeadsTo([t] + ts, k)
  {
    Lead(t, ts, k);
  }

  lemma {:induction false} BareLeads(e: Expr, k: seq<Token>)
    ensures LeadsTo(Bare(e, k), k)
    decreases e, 1
  {
    hide LeadsTo, Print, PrintArgs, Boundary;
    LeadHere(k);
    match e
    case Assign(x, r) => TwoLead(Id(x), AssignOp, r, PREC_ASSIGNMENT, k);
    case Compound(op, x, r) => TwoLead(Id(x), CompoundOp(op), r, PREC_ASSIGNMENT, k);
    case Neg(bang, r) =>
      PrintLeads(r, PREC_UNARY, k);
      Front(NegToken(bang), Print(r, PREC_UNARY, k), k);
    case Bin(op, l, r) => BinLeads(e, k);
    case Call(fn, args) => CallLeads(e, k);
    case Paren(r) => ParenLeads(e, k);
    case _ => LeafLeads(e, k);
  }

  lemma LeafLeads(e: Expr, k: seq<Token>)
    requires e.Lit? || e.Local? || e.FuncRef? || e.Bump?
    ensures LeadsTo(Bare(e, k), k)
  {
  }

  lemma {:induction false} TwoLead(t: Token, u: Token, r: Expr, p: nat, k: seq<Token>)
    requires t.Id? && (u.AssignOp? || u.CompoundOp?)
    ensures LeadsTo([t, u] + Print(r, p, k), k)
    decreases r, 3
  {
    hide LeadsTo, Print, Boundary;
    PrintLeads(r, p, k);
    Front(u, Print(r, p, k), k);
    Front(t, [u] + Print(r, p, k), k);
    assert [t, u] + Print(r, p, k) == [t] + ([u] + Print(r, p, k));
  }

  lemma {:induction false} BinLeads(e: Expr, k: seq<Token>)
    requires e.Bin?
    ensures LeadsTo(Bare(e, k), k)
    decreases e, 0
  {
    hide LeadsTo, Print, Boundary, OpPrec;
    var m := [BinTok(e.op)] + Print(e.r, OpPrec(e.op) + 1, k);
    PrintLeads(e.r, OpPrec(e.op) + 1, k);
    Front(BinTok(e.op), Print(e.r, OpPrec(e.op) + 1, k), k);
    PrintLeads(e.l, OpPrec(e.op), m);
    LeadOn(Print(e.l, OpPrec(e.op), m), m, k);
  }

  lemma {:induction false} CallLeads(e: Expr, k: seq<Token>)
    requires e.Call?
    ensures LeadsTo(Bare(e, k), k)
    decreases e, 0
  {
    hide LeadsTo, Print, PrintArgs, Boundary;
    var a := PrintArgs(e.args, [RParen] + k);
    LeadHere(k);
    ArgsLead(e.args, [RParen] + k);
    LeadOn(a, [RParen] + k, k);
    Front(LParen, a, k);
    PrintLeads(e.fn, PREC_CALL, [LParen] + a);
    LeadOn(Print(e.fn, PREC_CALL, [LParen] + a), [LParen] + a, k);
  }

  lemma {:induction false} ParenLeads(e: Expr, k: seq<Token>)
    requires e.Paren?
    ensures LeadsTo(Bare(e, k), k)
    decreases e, 0
  {
    hide LeadsTo, Print, Boundary;
    LeadHere(k);
    PrintLeads(e.e, PREC_ASSIGNMENT, [RParen] + k);
    LeadOn(Print(e.e, PREC_ASSIGNMENT, [RParen] + k), [RParen] + k, k);
    Front(LParen, Print(e.e, PREC_ASSIGNMENT, [RParen] + k), k);
  }

  lemma {:induction false} ArgsLead(es: Exprs, k: seq<Token>)
    ensures LeadsTo(PrintArgs(es, k), k)
    decreases es, 0
  {
    hide LeadsTo, Print, Boundary;
    LeadHere(k);
    match es
    case Nil =>
    case Cons(e, Nil) => PrintLeads(e, PREC_ASSIGNMENT, k);
    case Cons(e, t) =>
      var m := [Comma] + PrintArgs(t, k);
      ArgsLead(t, k);
      Front(Comma, PrintArgs(t, k), k);
      PrintLeads(e, PREC_ASSIGNMENT, m);
      LeadOn(Print(e, PREC_ASSIGNMENT, m), m, k);
  }

  /** An expression has at least one token. */
  lemma {:induction false} PrintMore(e: Expr, p: nat, k: seq<Token>)
    ensures |Print(e, p, k)| > |k|
    decreases e, 1
  {
    hide Bare;
    if Prec(e) < p {
      BareMore(e, [RParen] + k);
    } else {
      BareMore(e, k);
    }
  }

  lemma {:induction false} BareMore(e: Expr, k: seq<Token>)
    ensures |Bare(e, k)| > |k|
    decreases e, 0
  {
    hide Print, PrintArgs;
    match e
    case Assign(_, r) => PrintMore(r, PREC_ASSIGNMENT, k);
    case Compound(_, _, r) => PrintMore(r, PREC_ASSIGNMENT, k);
    case Neg(_, r) => PrintMore(r, PREC_UNARY, k);
    case Bin(op, l, r) =>
      PrintMore(r, OpPrec(op) + 1, k);
      PrintMore(l, OpPrec(op), [BinTok(op)] + Print(r, OpPrec(op) + 1, k));
    case Call(f, args) =>
      ArgsMore(args, [RParen] + k);
      PrintMore(f, PREC_CALL, [LParen] + PrintArgs(args, [RParen] + k));
    case Paren(r) => PrintMore(r, PREC_ASSIGNMENT, [RParen] + k);
    case _ =>
  }

  lemma {:induction false} ArgsMore(es: Exprs, k: seq<Token>)
    ensures |PrintArgs(es, k)| >= |k|
    decreases es, 0
  {
    hide Print;
    match es
    case Nil =>
    case Cons(e, Nil) => PrintMore(e, PREC_ASSIGNMENT, k);
    case Cons(e, t) =>
      ArgsMore(t, k);
      PrintMore(e, PREC_ASSIGNMENT, [Comma] + PrintArgs(t, k));
  }

  /** After an expression the token just consumed is its last one, which is no boundary. */
  lemma LastInside(all: seq<Token>, p: Parser, q: Parser, e: Expr, u: seq<Token>)
    requires Follows(all, p) && Follows(all, q)
    requires [p.cur] + p.rest == Print(e, PREC_ASSIGNMENT, u) && [q.cur] + q.rest == u
    ensures q.cur.Eof? || !Boundary(q.pre)
  {
    hide Boundary, Print;
    var ts := Print(e, PREC_ASSIGNMENT, u);
    PrintLeads(e, PREC_ASSIGNMENT, u);
    PrintFirst(e, PREC_ASSIGNMENT, u);
    assert ts[0] == p.cur;
    PrintMore(e, PREC_ASSIGNMENT, u);
    if !q.cur.Eof? {
      var n := |ts| - |u|;
      assert q.pre == ([q.pre, q.cur] + q.rest)[0] == all[|all| - |u| - 1];
      assert all[|all| - |u| - 1] == ([p.pre, p.cur] + p.rest)[n];
      assert ([p.pre, p.cur] + p.rest)[n] == ts[n - 1];
    }
  }

  /** Where the parser goes on after a missing semicolon: behind the first of `;`, `func`, `for`,
      `if`, `while`, `pout` and `return`, or at the end. */
  function Resume(u: seq<Token>): seq<Token> {
    if u == [] then []
    else
      match u[0]
      case Eof => u
      case Semi | FuncKw | ForKw | IfKw | WhileKw | PoutKw | ReturnKw => u[1..]
      case _ => Resume(u[1..])
  }

  lemma {:induction false} ResumeAt(u: seq<Token>, n: nat)
    requires n < |u| && (forall i :: 0 <= i < n ==> !u[i].Eof?) && (forall i :: 0 <= i < n - 1 ==> !Boundary(u[i]))
    requires if n > 0 && Boundary(u[n - 1]) then true else u[n].Eof?
    ensures Resume(u) == u[n..]
    decreases n
  {
    if n == 0 || (n == 1 && Boundary(u[0])) {
    } else {
      assert !Boundary(u[0]);
      ResumeAt(u[1..], n - 1);
      assert u[1..][n - 1..] == u[n..];
    }
  }

  /** `n` tokens have been skipped since `p`, none of them a boundary. */
  predicate SkippedTo(p: Parser, q: Parser, n: nat) {
    var ts := [p.pre, p.cur] + p.rest;
    n + 1 < |ts| && q.pre == ts[n] && [q.cur] + q.rest == ts[n + 1..] && forall i :: 0 <= i < n ==> !Boundary(ts[i])
  }

  lemma Resumes(p: Parser, q: Parser, n: nat, u: seq<Token>)
    requires SkippedTo(p, q, n) && [p.cur] + p.rest == u && (p.cur.Eof? || !Boundary(p.pre))
    requires q.cur.Eof? || Boundary(q.pre)
    requires (forall i :: 0 <= i < |u| - 1 ==> !u[i].Eof?)
    ensures [q.cur] + q.rest == Resume(u)
  {
    hide Boundary;
    var ts := [p.pre, p.cur] + p.rest;
    assert ts == [p.pre] + u && ts[n + 1..] == u[n..];
    assert q.cur == ([q.cur] + q.rest)[0] == u[n];
    forall i | 0 <= i < n - 1 ensures !Boundary(u[i]) {
      assert ts[i + 1] == u[i];
    }
    if n > 0 {
      assert q.pre == ts[n] == u[n - 1];
    } else {
      assert q.pre == p.pre;
    }
    ResumeAt(u, n);
  }

  /** The missing semicolon has been recovered from: the statement is compiled, and the parser
      stands where it resumes. */
  lemma Recovered(fns: Fns, a: State, b: State, c: State, n: nat, s: Stmt, u: seq<Token>)
    requires DidUpTo(fns, a, b, s, u) && u[0] != Semi && c == b.(p := c.p) && !c.p.flag && !b.p.crashed
             && c.p.crashed == b.p.crashed
    requires SkippedTo(b.p, c.p, n) && (c.p.cur.Eof? || Boundary(c.p.pre))
    requires forall i :: 0 <= i < |u| - 1 ==> !u[i].Eof?
    ensures DidS(fns, a, c, s, Resume(u))
  {
    hide LaidS, SizeS, LitsS, IfsS, SkippedTo, Boundary, Resume;
    Resumes(b.p, c.p, n, u);
  }

  lemma EvalLast(fns: Fns, all: seq<Token>, a: State, b: State, e: Expr, u: seq<Token>)
    requires ReadyE(fns, a, e, PREC_ASSIGNMENT, u) && DidE(fns, a, b, e, u) && Follows(all, a.p) && Follows(all, b.p)
    ensures b.p.cur.Eof? || !Boundary(b.p.pre)
  {
    hide EmittedE, CanEmit, Print, Follows, Boundary;
    LastInside(all, a.p, b.p, e, u);
  }

  lemma TornFlag(fns: Fns, fn: bool, a: State, b: State, s: Stmt, u: seq<Token>)
    requires ReadyTorn(fns, fn, a, s, u) && DidUpTo(fns, a, b, s, u)
    ensures b.p.flag && !b.p.crashed && [b.p.cur] + b.p.rest == u && u[0] != Semi
  {
  }

  lemma PoutClean(fns: Fns, fn: bool, a: State, s: Stmt, u: seq<Token>)
    requires s.Pout? && ReadyUpTo(fns, fn, a, s, u)
    ensures Clean(a) && u != [] && !Boundary(RParen)
  {
  }

  /** A whole `pout`, or any other statement. */
  lemma PoutWhole(fns: Fns, a: State, b: State, s: Stmt, k: seq<Token>)
    requires if s.Pout? then DidUpTo(fns, a, b, s, [Semi] + k) else DidS(fns, a, b, s, k)
    ensures DidS(fns, a, b, s, k)
  {
    hide DidUpTo, DidS;
    if s.Pout? {
      WholeDone(fns, a, b, s, k);
    }
  }
}
