/** The statement language of the fragment, its tokens, and its printer.

    An identifier is its hash: `idcmp` and the tables compare nothing else. */
module Syntax {
  import opened Values

  type Name = int

  predicate NoRepeats(names: seq<Name>) {
    forall i, j :: 0 <= i < j < |names| ==> names[i] != names[j]
  }

  // ---------------------------------------------------------------- trees

  datatype Expr =
    | Lit(v: Element)
    | Local(x: Name)
    | FuncRef(f: Name)
    | Assign(x: Name, e: Expr)
    | Compound(op: BinOp, x: Name, e: Expr)
    | Neg(bang: bool, e: Expr)
    | Bump(x: Name, inc: bool, before: bool)
    | Bin(op: BinOp, l: Expr, r: Expr)
    | Call(fn: Expr, args: Exprs)
    | Paren(e: Expr)  // parentheses that the source has, needed or not

  datatype Exprs = Nil | Cons(head: Expr, tail: Exprs)

  datatype OptExpr = NoExpr | SomeExpr(e: Expr)

  datatype Stmt =
    | Eval(e: Expr)
    | Pout(es: Exprs)
    | If(c: Expr, then_: Stmt, arms: Arms)
    | While(c: Expr, body: Stmt)
    | For(init: OptVar, cond: OptExpr, inc: OptExpr, body: Stmt)
    | Block(ds: Decls)
    | Return(e: Expr)
    | Back  // `return;`

  datatype OptVar = NoVar | SomeVar(x: Name, e: Expr)
  datatype Arms = End | Else(s: Stmt) | Elif(c: Expr, s: Stmt, rest: Arms)
  datatype Decl = Var(x: Name, e: Expr) | Do(s: Stmt)
  datatype Decls = Done | Then(d: Decl, rest: Decls)

  datatype FunDef = FunDef(params: seq<Name>, body: Decls)

  /** What a script consists of. The semicolon of a statement may be missing; `skipped` are the
      tokens that the compiler then passes over. */
  datatype Item = Fun(f: Name, d: FunDef) | Stat(s: Stmt, end: Finish)
  datatype Finish = Whole | Torn(skipped: seq<Token>)

  function Count(es: Exprs): nat {
    match es
    case Nil => 0
    case Cons(_, t) => 1 + Count(t)
  }

  /** The names a declaration list adds to its scope, oldest first. */
  function Declared(ds: Decls): seq<Name> {
    match ds
    case Done => []
    case Then(Var(x, _), t) => [x] + Declared(t)
    case Then(Do(_), t) => Declared(t)
  }

  /** The newest entry with that name, or -1: how both `resolve_local` and the language
      resolve an identifier. */
  function Newest(names: seq<Name>, x: Name): (i: int)
    ensures -1 <= i < |names|
    ensures i >= 0 ==> names[i] == x && forall j :: i < j < |names| ==> names[j] != x
    ensures i < 0 ==> x !in names
  {
    if names == [] then -1
    else if names[|names| - 1] == x then |names| - 1
    else Newest(names[..|names| - 1], x)
  }

  predicate IsLoop(s: Stmt) {
    s.While? || s.For?
  }

  function LoopCond(s: Stmt): OptExpr
    requires IsLoop(s)
  {
    if s.While? then SomeExpr(s.c) else s.cond
  }

  function LoopInc(s: Stmt): OptExpr
    requires IsLoop(s)
  {
    if s.While? then NoExpr else s.inc
  }

  // --------------------------------------------------------------- tokens

  datatype Token =
    | LParen | RParen | LCurl | RCurl | Comma | Semi
    | AssignOp | CompoundOp(aop: BinOp) | BinTok(bop: BinOp) | Bang | IncOp | DecOp
    | Number(value: real) | True | False | NullTok | Id(name: Name)
    | FuncKw | VarKw | IfKw | ElifKw | ElseKw | WhileKw | ForKw | PoutKw | ReturnKw
    | Eof

  const PREC_NONE := 0
  const PREC_ASSIGNMENT := 1
  const PREC_OR := 2
  const PREC_EQUALITY := 4
  const PREC_COMPARISON := 5
  const PREC_TERM := 6
  const PREC_FACTOR := 7
  const PREC_UNARY := 8
  const PREC_CALL := 9
  const PREC_PRIMARY := 10

  function OpPrec(op: BinOp): nat {
    match op
    case Add | Sub => PREC_TERM
    case Mul | Div | Mod => PREC_FACTOR
    case Eq | Ne => PREC_EQUALITY
    case _ => PREC_COMPARISON
  }

  /** The `prec` column of the rule table. */
  function RulePrec(t: Token): nat {
    match t
    case LParen => PREC_CALL
    case IncOp | DecOp => PREC_TERM
    case BinTok(op) => OpPrec(op)
    case AssignOp => PREC_ASSIGNMENT
    case CompoundOp(_) => PREC_ASSIGNMENT
    case Bang => PREC_TERM
    case ElifKw => PREC_OR
    case _ => PREC_NONE
  }

  /** Whether the `prefix` column holds a function. */
  predicate HasPrefix(t: Token) {
    match t
    case LParen | IncOp | DecOp | Bang => true
    case BinTok(op) => op == Sub
    case Number(_) | True | False | NullTok | Id(_) => true
    case _ => false
  }

  /** Whether the `infix` column holds a function. */
  predicate HasInfix(t: Token) {
    match t
    case LParen | IncOp | DecOp | BinTok(_) | CompoundOp(_) => true
    case _ => false
  }

  /** Operators that have a compound assignment token. */
  predicate Arithmetic(op: BinOp) {
    op == Add || op == Sub || op == Mul || op == Div || op == Mod
  }

  // -------------------------------------------------------------- printer

  /** How tightly the outermost construct of `e` binds. */
  function Prec(e: Expr): nat {
    match e
    case Lit(_) | Local(_) | FuncRef(_) | Paren(_) => PREC_PRIMARY
    case Assign(_, _) | Compound(_, _, _) => PREC_ASSIGNMENT
    case Neg(_, _) => PREC_UNARY
    case Bump(_, _, before) => if before then PREC_UNARY else PREC_TERM
    case Bin(op, _, _) => OpPrec(op)
    case Call(_, _) => PREC_CALL
  }

  function LitToken(v: Element): Token {
    match v
    case Num(x) => Number(x)
    case Bool(b) => if b then True else False
    case _ => NullTok
  }

  function BumpToken(inc: bool): Token {
    if inc then IncOp else DecOp
  }

  function NegToken(bang: bool): Token {
    if bang then Bang else BinTok(Sub)
  }

  /** The tokens of `e` as an operand at precedence `p`, followed by `k`. Parentheses that
      the tree does not have appear only where `e` binds less tightly than `p`. */
  function Print(e: Expr, p: nat, k: seq<Token>): seq<Token>
    decreases e, 1
  {
    if Prec(e) < p then [LParen] + Bare(e, [RParen] + k) else Bare(e, k)
  }

  function Bare(e: Expr, k: seq<Token>): seq<Token>
    decreases e, 0
  {
    match e
    case Lit(v) => [LitToken(v)] + k
    case Local(x) => [Id(x)] + k
    case FuncRef(f) => [Id(f)] + k
    case Assign(x, r) => [Id(x), AssignOp] + Print(r, PREC_ASSIGNMENT, k)
    case Compound(op, x, r) => [Id(x), CompoundOp(op)] + Print(r, PREC_ASSIGNMENT, k)
    case Neg(bang, r) => [NegToken(bang)] + Print(r, PREC_UNARY, k)
    case Bump(x, inc, before) =>
      if before then [BumpToken(inc), Id(x)] + k else [Id(x), BumpToken(inc)] + k
    case Bin(op, l, r) => Print(l, OpPrec(op), [BinTok(op)] + Print(r, OpPrec(op) + 1, k))
    case Call(fn, args) => Print(fn, PREC_CALL, [LParen] + PrintArgs(args, [RParen] + k))
    case Paren(r) => [LParen] + Print(r, PREC_ASSIGNMENT, [RParen] + k)
  }

  function PrintArgs(es: Exprs, k: seq<Token>): seq<Token>
    decreases es, 0
  {
    match es
    case Nil => k
    case Cons(e, Nil) => Print(e, PREC_ASSIGNMENT, k)
    case Cons(e, t) => Print(e, PREC_ASSIGNMENT, [Comma] + PrintArgs(t, k))
  }

  function PrintOpt(e: OptExpr, k: seq<Token>): seq<Token> {
    match e
    case NoExpr => k
    case SomeExpr(x) => Print(x, PREC_ASSIGNMENT, k)
  }

  function PrintVar(x: Name, e: Expr, k: seq<Token>): seq<Token> {
    [VarKw, Id(x), AssignOp] + Print(e, PREC_ASSIGNMENT, [Semi] + k)
  }

  function PrintS(s: Stmt, k: seq<Token>): seq<Token>
    decreases s
  {
    match s
    case Eval(e) => Print(e, PREC_ASSIGNMENT, [Semi] + k)
    case Pout(es) => [PoutKw, LParen] + PrintArgs(es, [RParen] + ([Semi] + k))
    case If(c, t, arms) => [IfKw, LParen] + Print(c, PREC_ASSIGNMENT, [RParen] + PrintS(t, PrintArms(arms, k)))
    case While(c, b) =>
      [WhileKw, LParen] + Print(c, PREC_ASSIGNMENT, [RParen] + PrintS(b, k))
    case For(init, cond, inc, b) =>
      var head := PrintOpt(cond, [Semi] + PrintOpt(inc, [RParen] + PrintS(b, k)));
      [ForKw, LParen] + (match init case NoVar => [Semi] + head case SomeVar(x, e) => PrintVar(x, e, head))
    case Block(ds) => [LCurl] + PrintD(ds, [RCurl] + k)
    case Return(e) => [ReturnKw] + Print(e, PREC_ASSIGNMENT, [Semi] + k)
    case Back => [ReturnKw, Semi] + k
  }

  /** A statement that ends with a semicolon, up to there, followed by `u`. */
  function PrintUpTo(s: Stmt, u: seq<Token>): seq<Token>
    requires s.Eval? || s.Pout?
  {
    match s
    case Eval(e) => Print(e, PREC_ASSIGNMENT, u)
    case Pout(es) => [PoutKw, LParen] + PrintArgs(es, [RParen] + u)
  }

  function PrintArms(a: Arms, k: seq<Token>): seq<Token>
    decreases a
  {
    match a
    case End => k
    case Else(s) => [ElseKw] + PrintS(s, k)
    case Elif(c, s, t) => [ElifKw, LParen] + Print(c, PREC_ASSIGNMENT, [RParen] + PrintS(s, PrintArms(t, k)))
  }

  function PrintD(ds: Decls, k: seq<Token>): seq<Token>
    decreases ds
  {
    match ds
    case Done => k
    case Then(Var(x, e), t) => PrintVar(x, e, PrintD(t, k))
    case Then(Do(s), t) => PrintS(s, PrintD(t, k))
  }

  function PrintParams(ps: seq<Name>, k: seq<Token>): seq<Token> {
    if |ps| == 0 then k
    else if |ps| == 1 then [Id(ps[0])] + k
    else [Id(ps[0]), Comma] + PrintParams(ps[1..], k)
  }

  /** A function from its parameter list on. */
  function PrintFn(d: FunDef, k: seq<Token>): seq<Token> {
    [LParen] + PrintParams(d.params, [RParen, LCurl] + PrintD(d.body, [RCurl] + k))
  }

  function PrintItems(items: seq<Item>): seq<Token> {
    if items == [] then [Eof]
    else
      match items[0]
      case Fun(f, d) => [FuncKw, Id(f)] + PrintFn(d, PrintItems(items[1..]))
      case Stat(s, Torn(skipped)) =>
        if s.Eval? || s.Pout? then PrintUpTo(s, skipped + PrintItems(items[1..])) else PrintS(s, PrintItems(items[1..]))
      case Stat(s, Whole) => PrintS(s, PrintItems(items[1..]))
  }
}
