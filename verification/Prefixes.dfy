/** Which inputs the expression rules are promised to handle, and how the promises add up. */
module Prefixes {
  import opened Values
  import opened Syntax
  import opened Bytecode
  import opened Layout
  import opened Spine
  import opened Emission

  predicate CanEmit(fns: Fns, a: State, e: Expr) {
    Clean(a) && ResolvesE(e, Names(a.locals), fns) && |a.ch.consts| + |LitsE(e)| <= 256
  }

  /** The tokens ahead are those of `e`, then `k`. */
  predicate ReadyE(fns: Fns, a: State, e: Expr, prec: nat, k: seq<Token>) {
    Sees(a, Print(e, prec, k)) && k != [] && Follow(prec, k[0]) && CanEmit(fns, a, e)
  }

  /** The token just consumed and those ahead are those of the prefix part `h`, then `k`. */
  predicate ReadyHead(fns: Fns, a: State, h: Head, k: seq<Token>) {
    && [a.p.pre, a.p.cur] + a.p.rest == HeadToks(h, k)
    && k != [] && HeadFollow(h, k[0]) && CanEmit(fns, a, h.e)
    && (h.Plain? ==> Starts(h.e))
  }

  /** Since `a`, `d` has been compiled; the token just consumed begins the infix part `l`. */
  predicate ReadyLink(fns: Fns, a: State, b: State, d: Expr, l: Link, k: seq<Token>) {
    && EmittedE(fns, a, b, d)
    && [b.p.pre, b.p.cur] + b.p.rest == LinkToks(l, k)
    && k != [] && LinkFollow(l, k[0]) && CanEmit(fns, a, Build(d, l))
    && (l.SetLink? || l.BumpLink? ==> d.Local?)
  }

  predicate ReadyArgs(fns: Fns, a: State, es: Exprs, k: seq<Token>) {
    && Sees(a, PrintArgs(es, [RParen] + k))
    && Clean(a) && ResolvesArgs(es, Names(a.locals), fns) && |a.ch.consts| + |LitsArgs(es)| <= 256
  }

  predicate DidE(fns: Fns, a: State, b: State, e: Expr, k: seq<Token>) {
    EmittedE(fns, a, b, e) && Sees(b, k)
  }

  // ------------------------------------------------- what a tree's parts need

  lemma CanEmitBuild(fns: Fns, a: State, d: Expr, l: Link)
    requires CanEmit(fns, a, Build(d, l))
    ensures CanEmit(fns, a, d)
    ensures |LitsE(d)| <= |LitsE(Build(d, l))|
  {
  }

  /** Whatever was parsed so far can be emitted if the whole can. */
  lemma {:induction false} CanEmitPrefix(fns: Fns, a: State, d: Expr, ls: seq<Link>, i: nat)
    requires i <= |ls| && CanEmit(fns, a, BuildAll(d, ls))
    ensures CanEmit(fns, a, BuildAll(d, ls[..i]))
    decreases |ls|
  {
    if i == |ls| {
      assert ls[..i] == ls;
    } else {
      hide CanEmit;
      CanEmitBuild(fns, a, BuildAll(d, ls[..|ls| - 1]), ls[|ls| - 1]);
      CanEmitPrefix(fns, a, d, ls[..|ls| - 1], i);
      assert ls[..|ls| - 1][..i] == ls[..i];
    }
  }

  lemma BuildNext(d: Expr, ls: seq<Link>, i: nat)
    requires i < |ls|
    ensures BuildAll(d, ls[..i + 1]) == Build(BuildAll(d, ls[..i]), ls[i])
  {
    assert ls[..i + 1][..i] == ls[..i];
  }

  // ------------------------------------------------------ the parsing loop

  /** One token further. */
  predicate Advanced(a: State, b: State) {
    && b == a.(p := b.p) && SameScope(a, b)
    && b.p.pre == a.p.cur
    && (!a.p.cur.Eof? ==> [b.p.cur] + b.p.rest == a.p.rest)
  }

  /** The head and the first `i` links of `e` have been compiled since `a`. */
  predicate DidParts(fns: Fns, a: State, b: State, e: Expr, prec: nat, k: seq<Token>, i: nat) {
    && i <= |LinksAt(e, prec)|
    && EmittedE(fns, a, b, BuildAll(HeadAt(e, prec).e, LinksAt(e, prec)[..i]))
    && Sees(b, LinksToks(LinksAt(e, prec)[i..], k))
  }

  lemma TwoAhead(a: State, b: State, ts: seq<Token>)
    requires Advanced(a, b) && Sees(a, ts) && !a.p.cur.Eof?
    ensures [b.p.pre, b.p.cur] + b.p.rest == ts
  {
    assert [b.p.pre, b.p.cur] + b.p.rest == [b.p.pre] + ([b.p.cur] + b.p.rest);
  }

  lemma HeadReady(fns: Fns, a: State, b: State, e: Expr, prec: nat, k: seq<Token>)
    requires ReadyE(fns, a, e, prec, k) && Advanced(a, b) && 1 <= prec <= PREC_CALL
    ensures HasPrefix(b.p.pre) && ReadyHead(fns, b, HeadAt(e, prec), LinksToks(LinksAt(e, prec), k))
  {
    hide Print, HeadToks, LinksToks, HeadAt, LinksAt, LitsE, ResolvesE, HeadFollow;
    var h, ls := HeadAt(e, prec), LinksAt(e, prec);
    PrintSplit(e, prec, k);
    PartsFollow(e, prec, k, 0);
    assert ls[0..] == ls;
    SpineShaped(e, prec);
    HeadFirst(h, LinksToks(ls, k));
    Rebuild(e, prec);
    CanEmitPrefix(fns, a, h.e, ls, 0);
    TwoAhead(a, b, Print(e, prec, k));
  }

  lemma HeadDone(fns: Fns, a: State, a1: State, b: State, e: Expr, prec: nat, k: seq<Token>)
    requires Advanced(a, a1) && DidE(fns, a1, b, HeadAt(e, prec).e, LinksToks(LinksAt(e, prec), k))
    ensures DidParts(fns, a, b, e, prec, k, 0)
  {
    hide LaidE, SizeE, LitsE, HeadAt, LinksAt, LinksToks;
    EmittedTokens(fns, a1, a, b, b, HeadAt(e, prec).e);
    assert LinksAt(e, prec)[0..] == LinksAt(e, prec);
  }

  lemma LinkReady(fns: Fns, a: State, b: State, c: State, e: Expr, prec: nat, k: seq<Token>, i: nat)
    requires ReadyE(fns, a, e, prec, k) && 1 <= prec <= PREC_CALL
    requires DidParts(fns, a, b, e, prec, k, i) && prec <= RulePrec(b.p.cur)
    requires Advanced(b, c)
    ensures
      var ls := LinksAt(e, prec);
      && i < |ls| && HasInfix(c.p.pre)
      && ReadyLink(fns, a, c, BuildAll(HeadAt(e, prec).e, ls[..i]), ls[i], LinksToks(ls[i + 1..], k))
  {
    hide LaidE, SizeE, LitsE, HeadAt, LinksAt, LinksToks, Print;
    var h, ls := HeadAt(e, prec), LinksAt(e, prec);
    PartsFollow(e, prec, k, i);
    assert i < |ls|;
    LinkFirst(ls[i], LinksToks(ls[i + 1..], k));
    PartsFollow(e, prec, k, i + 1);
    SpineShaped(e, prec);
    Rebuild(e, prec);
    CanEmitPrefix(fns, a, h.e, ls, i + 1);
    BuildNext(h.e, ls, i);
    TwoAhead(b, c, LinksToks(ls[i..], k));
    EmittedTokens(fns, a, a, b, c, BuildAll(h.e, ls[..i]));
    if i == 0 {
      assert BuildAll(h.e, ls[..0]) == h.e;
    }
    hide ResolvesE;
  }

  lemma LinkDone(fns: Fns, a: State, b: State, e: Expr, prec: nat, k: seq<Token>, i: nat)
    requires i < |LinksAt(e, prec)|
    requires DidE(fns, a, b, Build(BuildAll(HeadAt(e, prec).e, LinksAt(e, prec)[..i]), LinksAt(e, prec)[i]),
             LinksToks(LinksAt(e, prec)[i + 1..], k))
    ensures DidParts(fns, a, b, e, prec, k, i + 1)
  {
    hide EmittedE, HeadAt, LinksAt, LinksToks;
    BuildNext(HeadAt(e, prec).e, LinksAt(e, prec), i);
  }

  lemma AllDone(fns: Fns, a: State, b: State, e: Expr, prec: nat, k: seq<Token>, i: nat)
    requires ReadyE(fns, a, e, prec, k) && 1 <= prec <= PREC_CALL
    requires DidParts(fns, a, b, e, prec, k, i) && RulePrec(b.p.cur) < prec
    ensures DidE(fns, a, b, e, k)
  {
    hide EmittedE, HeadAt, LinksAt, LinksToks;
    PartsFollow(e, prec, k, i);
    Rebuild(e, prec);
    assert LinksAt(e, prec)[..i] == LinksAt(e, prec);
  }

  // ------------------------------------------------- what each rule is promised

  /** The tokens ahead lost their first one. */
  predicate Skipped(b: State, c: State) {
    && c == b.(p := c.p) && SameScope(b, c)
    && [c.p.cur] + c.p.rest == b.p.rest
  }

  lemma DidSkip(fns: Fns, a: State, b: State, c: State, e: Expr, t: Token, k: seq<Token>)
    requires DidE(fns, a, b, e, [t] + k) && Skipped(b, c)
    ensures b.p.cur == t && DidE(fns, a, c, e, k)
  {
    hide LaidE, SizeE, LitsE;
    EmittedTokens(fns, a, a, b, c, e);
    assert ([t] + k)[1..] == k;
  }

  lemma Peel(x: Token, y: Token, rest: seq<Token>, t: Token, ts: seq<Token>)
    requires [x, y] + rest == [t] + ts
    ensures x == t && [y] + rest == ts
  {
    assert ([x, y] + rest)[0] == x && ([t] + ts)[0] == t;
    assert ([x, y] + rest)[1..] == [y] + rest;
    assert ([t] + ts)[1..] == ts;
  }

  /** The token a prefix part begins with, and those after it. */
  lemma HeadPeel(fns: Fns, b: State, h: Head, k: seq<Token>)
    requires ReadyHead(fns, b, h, k)
    ensures h.Grouped? ==> b.p.pre == LParen && Sees(b, Print(h.e, PREC_ASSIGNMENT, [RParen] + k))
    ensures h.Plain? && h.e.Lit? ==> b.p.pre == LitToken(h.e.v) && Sees(b, k)
    ensures h.Plain? && h.e.Local? ==> b.p.pre == Id(h.e.x) && Sees(b, k)
    ensures h.Plain? && h.e.FuncRef? ==> b.p.pre == Id(h.e.f) && Sees(b, k)
    ensures h.Plain? && h.e.Assign? ==> b.p.pre == Id(h.e.x) && Sees(b, [AssignOp] + Print(h.e.e, PREC_ASSIGNMENT, k))
    ensures h.Plain? && h.e.Neg? ==> b.p.pre == NegToken(h.e.bang) && Sees(b, Print(h.e.e, PREC_UNARY, k))
    ensures h.Plain? && h.e.Bump? ==> h.e.before && b.p.pre == BumpToken(h.e.inc) && Sees(b, [Id(h.e.x)] + k)
    ensures h.Plain? && h.e.Paren? ==> b.p.pre == LParen && Sees(b, Print(h.e.e, PREC_ASSIGNMENT, [RParen] + k))
  {
    hide Print, ResolvesE, LitsE, HeadToks, CanEmit, HeadFollow;
    HeadSplit(h, k);
    Peel(b.p.pre, b.p.cur, b.p.rest, HeadToken(h), HeadRest(h, k));
  }

  /** The token a prefix part begins with. */
  function HeadToken(h: Head): Token {
    if h.Grouped? || h.e.Paren? then LParen
    else if h.e.Lit? then LitToken(h.e.v)
    else if h.e.Local? || h.e.Assign? then Id(h.e.x)
    else if h.e.FuncRef? then Id(h.e.f)
    else if h.e.Neg? then NegToken(h.e.bang)
    else if h.e.Bump? then BumpToken(h.e.inc)
    else Eof
  }

  function HeadRest(h: Head, k: seq<Token>): seq<Token> {
    if h.Grouped? then Print(h.e, PREC_ASSIGNMENT, [RParen] + k)
    else if h.e.Paren? then Print(h.e.e, PREC_ASSIGNMENT, [RParen] + k)
    else if h.e.Assign? then [AssignOp] + Print(h.e.e, PREC_ASSIGNMENT, k)
    else if h.e.Neg? then Print(h.e.e, PREC_UNARY, k)
    else if h.e.Bump? then [Id(h.e.x)] + k
    else k
  }

  lemma HeadSplit(h: Head, k: seq<Token>)
    requires h.Plain? ==> Starts(h.e)
    ensures HeadToks(h, k) == [HeadToken(h)] + HeadRest(h, k)
  {
    hide Print;
  }

  /** The token an infix part begins with, and those after it. */
  lemma LinkPeel(fns: Fns, a: State, b: State, d: Expr, l: Link, k: seq<Token>)
    requires ReadyLink(fns, a, b, d, l, k)
    ensures b.p.pre == LinkToken(l)
    ensures match l
            case OpLink(op, r) => Sees(b, Print(r, OpPrec(op) + 1, k))
            case SetLink(_, r) => Sees(b, Print(r, PREC_ASSIGNMENT, k))
            case BumpLink(_) => Sees(b, k)
            case CallLink(args) => Sees(b, PrintArgs(args, [RParen] + k))
  {
    hide Print, PrintArgs, EmittedE, CanEmit;
    match l
    case OpLink(op, r) => Peel(b.p.pre, b.p.cur, b.p.rest, BinTok(op), Print(r, OpPrec(op) + 1, k));
    case SetLink(op, r) => Peel(b.p.pre, b.p.cur, b.p.rest, CompoundOp(op), Print(r, PREC_ASSIGNMENT, k));
    case BumpLink(inc) => Peel(b.p.pre, b.p.cur, b.p.rest, BumpToken(inc), k);
    case CallLink(args) => Peel(b.p.pre, b.p.cur, b.p.rest, LParen, PrintArgs(args, [RParen] + k));
  }

  lemma GroupingReady(fns: Fns, b: State, h: Head, k: seq<Token>)
    requires ReadyHead(fns, b, h, k) && b.p.pre == LParen
    ensures h.Plain? ==> h.e.Paren?
    ensures ReadyE(fns, b, Inside(h), PREC_ASSIGNMENT, [RParen] + k)
  {
    HeadPeel(fns, b, h, k);
    hide Print, HeadToks;
  }

  /** What stands between the parentheses. */
  function Inside(h: Head): Expr {
    if h.Plain? && h.e.Paren? then h.e.e else h.e
  }

  lemma InsideDone(fns: Fns, a: State, b: State, h: Head, k: seq<Token>)
    requires DidE(fns, a, b, Inside(h), k)
    ensures DidE(fns, a, b, h.e, k)
  {
    hide Newest;
  }

  lemma LitReady(fns: Fns, b: State, h: Head, k: seq<Token>)
    requires ReadyHead(fns, b, h, k)
    requires b.p.pre.Number? || b.p.pre.True? || b.p.pre.False? || b.p.pre.NullTok?
    ensures h.e.Lit? && h.e.v == TokenValue(b.p.pre) && CanEmit(fns, b, h.e) && Sees(b, k)
  {
    HeadPeel(fns, b, h, k);
    hide Print, HeadToks;
  }

  function TokenValue(t: Token): Element {
    match t
    case Number(x) => Num(x)
    case True => Bool(true)
    case False => Bool(false)
    case _ => Null
  }

  lemma IdReady(fns: Fns, b: State, h: Head, k: seq<Token>)
    requires ReadyHead(fns, b, h, k) && b.p.pre.Id?
    ensures h.Plain? && !b.p.cur.Id? && Clean(b)
    ensures h.e == FuncRef(b.p.pre.name) || h.e == Local(b.p.pre.name) || (h.e.Assign? && h.e.x == b.p.pre.name)
    ensures h.e.FuncRef? ==> h.e.f in fns && fns[h.e.f] < 256 && Sees(b, k)
    ensures h.e.Local? ==> IsVariable(h.e.x, Names(b.locals), fns) && Sees(b, k) && b.p.cur != AssignOp
    ensures h.e.Assign? ==>
            IsVariable(h.e.x, Names(b.locals), fns) && Sees(b, [AssignOp] + Print(h.e.e, PREC_ASSIGNMENT, k))
              && b.p.cur == AssignOp
    ensures h.e.Assign? ==>
            k != [] && Follow(PREC_ASSIGNMENT, k[0]) && ResolvesE(h.e.e, Names(b.locals), fns)
              && |b.ch.consts| + |LitsE(h.e.e)| <= 256
  {
    HeadPeel(fns, b, h, k);
    assert h.Plain?;
    assert ([b.p.cur] + b.p.rest)[0] == b.p.cur;
    if h.e.Assign? {
      assert ([AssignOp] + Print(h.e.e, PREC_ASSIGNMENT, k))[0] == AssignOp;
    }
    hide Print, HeadToks;
  }

  lemma UnaryReady(fns: Fns, b: State, h: Head, k: seq<Token>)
    requires ReadyHead(fns, b, h, k) && (b.p.pre.IncOp? || b.p.pre.DecOp? || b.p.pre.Bang? || b.p.pre.BinTok?)
    ensures h.Plain? && (h.e.Neg? || (h.e.Bump? && h.e.before))
    ensures h.e.Neg? ==> b.p.pre == NegToken(h.e.bang) && ReadyE(fns, b, h.e.e, PREC_UNARY, k)
    ensures h.e.Bump? ==> b.p.pre == BumpToken(h.e.inc) && ReadyE(fns, b, Local(h.e.x), PREC_UNARY, k)
  {
    HeadPeel(fns, b, h, k);
    if h.Plain? && h.e.Bump? {
      assert Print(Local(h.e.x), PREC_UNARY, k) == Bare(Local(h.e.x), k);
    }
    hide HeadToks;
  }

  lemma BinaryReady(fns: Fns, a: State, b: State, d: Expr, l: Link, k: seq<Token>)
    requires ReadyLink(fns, a, b, d, l, k) && b.p.pre.BinTok?
    ensures l.OpLink? && l.op == b.p.pre.bop && EmittedE(fns, a, b, d)
    ensures ReadyE(fns, b, l.r, OpPrec(l.op) + 1, k)
  {
    LinkPeel(fns, a, b, d, l, k);
    hide Print, PrintArgs, LaidE, SizeE, LinkToks;
  }

  lemma CompoundReady(fns: Fns, a: State, b: State, d: Expr, l: Link, k: seq<Token>)
    requires ReadyLink(fns, a, b, d, l, k) && b.p.pre.CompoundOp?
    ensures l.SetLink? && l.sop == b.p.pre.aop && d.Local? && EmittedE(fns, a, b, d)
    ensures ReadyE(fns, b, l.r, PREC_ASSIGNMENT, k) && Arithmetic(l.sop)
  {
    LinkPeel(fns, a, b, d, l, k);
    hide Print, PrintArgs, LaidE, SizeE, LinkToks;
  }

  lemma BumpReady(fns: Fns, a: State, b: State, d: Expr, l: Link, k: seq<Token>)
    requires ReadyLink(fns, a, b, d, l, k) && (b.p.pre.IncOp? || b.p.pre.DecOp?)
    ensures l.BumpLink? && b.p.pre == BumpToken(l.inc) && d.Local? && EmittedE(fns, a, b, d) && Sees(b, k)
  {
    LinkPeel(fns, a, b, d, l, k);
    hide Print, PrintArgs, LaidE, SizeE, LinkToks;
  }

  lemma CallReady(fns: Fns, a: State, b: State, d: Expr, l: Link, k: seq<Token>)
    requires ReadyLink(fns, a, b, d, l, k) && b.p.pre == LParen
    ensures l.CallLink? && EmittedE(fns, a, b, d) && ReadyArgs(fns, b, l.args, k) && Count(l.args) < 256
  {
    LinkPeel(fns, a, b, d, l, k);
    hide Print, PrintArgs, LaidE, SizeE, LinkToks;
  }

  /** Arguments still to come, after `a` was reached with `b` the state now. */
  predicate ArgsLeft(fns: Fns, a: State, b: State, es: Exprs, rest: Exprs, k: seq<Token>) {
    && EmittedArgs(fns, a, b, es)
    && Sees(b, PrintArgs(rest, [RParen] + k))
    && Clean(b) && ResolvesArgs(rest, Names(b.locals), fns) && |b.ch.consts| + |LitsArgs(rest)| <= 256
  }

  lemma ArgReady(fns: Fns, a: State, b: State, es: Exprs, rest: Exprs, k: seq<Token>)
    requires ArgsLeft(fns, a, b, es, rest, k) && rest.Cons?
    ensures ReadyE(fns, b, rest.head, PREC_ASSIGNMENT, if rest.tail.Nil? then [RParen] + k
            else [Comma] + PrintArgs(rest.tail, [RParen] + k))
  {
    hide Print, LaidArgs, SizeArgs;
  }

  /** After an argument: the comma or the parenthesis. */
  lemma ArgDone(fns: Fns, a: State, b: State, c: State, es: Exprs, rest: Exprs, k: seq<Token>)
    requires ArgsLeft(fns, a, b, es, rest, k) && rest.Cons?
    requires DidE(fns, b, c, rest.head, if rest.tail.Nil? then [RParen] + k
             else [Comma] + PrintArgs(rest.tail, [RParen] + k))
    ensures EmittedArgs(fns, a, c, Snoc(es, rest.head))
    ensures c.p.cur == if rest.tail.Nil? then RParen else Comma
    ensures rest.tail.Nil? ==> c.p.rest == k
    ensures rest.tail.Cons? ==> c.p.rest == PrintArgs(rest.tail, [RParen] + k)
    ensures Clean(c) && ResolvesArgs(rest.tail, Names(c.locals), fns) && |c.ch.consts| + |LitsArgs(rest.tail)| <= 256
  {
    hide Print, PrintArgs, LaidArgs, LaidE, SizeArgs;
    EmitSnoc(fns, a, b, c, es, rest.head);
    assert ([c.p.cur] + c.p.rest)[1..] == c.p.rest;
  }

  // ------------------------------------------------ what each rule has achieved

  lemma DidIt(fns: Fns, a: State, b: State, e: Expr, k: seq<Token>)
    requires EmittedE(fns, a, b, e) && Sees(b, k)
    ensures DidE(fns, a, b, e, k)
  {
  }

  lemma DidCurrent(fns: Fns, a: State, b: State, e: Expr, t: Token, k: seq<Token>)
    requires DidE(fns, a, b, e, [t] + k)
    ensures b.p.cur == t && b.p.rest == k
  {
    hide EmittedE;
    assert ([b.p.cur] + b.p.rest)[0] == t;
    assert ([b.p.cur] + b.p.rest)[1..] == k;
  }

  lemma NotVariable(fns: Fns, a: State, h: Head, x: Name)
    requires x in fns
    requires h.e == FuncRef(x) || h.e == Local(x) || (h.e.Assign? && h.e.x == x)
    requires h.e.FuncRef? ==> h.e.f in fns && fns[h.e.f] < 256
    requires h.e.Local? ==> IsVariable(h.e.x, Names(a.locals), fns)
    requires h.e.Assign? ==> IsVariable(h.e.x, Names(a.locals), fns)
    ensures h.e == FuncRef(x) && fns[x] < 256
  {
  }

  /** The identifier has been recorded, and the assignment token skipped. */
  lemma AssignReady(fns: Fns, a: State, a1: State, a2: State, e: Expr, k: seq<Token>)
    requires e.Assign? && Clean(a) && Sees(a, [AssignOp] + Print(e.e, PREC_ASSIGNMENT, k))
    requires k != [] && Follow(PREC_ASSIGNMENT, k[0]) && ResolvesE(e.e, Names(a.locals), fns)
             && |a.ch.consts| + |LitsE(e.e)| <= 256
    requires a1 == a.(latest := a1.latest) && Skipped(a1, a2)
    ensures ReadyE(fns, a2, e.e, PREC_ASSIGNMENT, k)
  {
    hide Print, ResolvesE, LitsE;
    assert ([a.p.cur] + a.p.rest)[1..] == Print(e.e, PREC_ASSIGNMENT, k);
  }

  lemma AssignDone(fns: Fns, a: State, a2: State, b: State, c: State, e: Expr, k: seq<Token>)
    requires e.Assign? && IsVariable(e.x, Names(a.locals), fns)
    requires a2 == a.(p := a2.p, latest := a2.latest) && SameScope(a, a2) && Points(a, a2, SomeName(e.x))
    requires DidE(fns, a2, b, e.e, k)
    requires c == Emit(b, [OP_SET_LOCAL, Newest(Names(a.locals), e.x)])
    ensures DidE(fns, a, c, e, k)
  {
    hide LaidE, SizeE, LitsE, Newest;
    EmitAssign(fns, a, a2, b, e.x, e.e);
  }

  lemma LocalDone(fns: Fns, a: State, b: State, e: Expr, x: Name, k: seq<Token>)
    requires e == Local(x) && IsVariable(x, Names(a.locals), fns) && Sees(a, k)
    requires b == Emit(a, [OP_GET_LOCAL, Newest(Names(a.locals), x)]).(latest := b.latest) && Points(a, b, SomeName(x))
    ensures DidE(fns, a, b, e, k)
  {
    EmitLocal(fns, a, b, x);
    hide LaidE;
  }

  lemma UnaryNeg(fns: Fns, a: State, b: State, e: Expr, k: seq<Token>)
    requires e.Neg? && DidE(fns, a, b, e.e, k)
    ensures DidE(fns, a, Emit(b, [OP_NEG]), e, k)
  {
    EmitUnary(fns, a, b, e.e, e.bang);
    hide EmittedE;
  }

  lemma UnaryBump(fns: Fns, a: State, b: State, c: State, e: Expr, k: seq<Token>)
    requires e.Bump? && DidE(fns, a, b, Local(e.x), k)
    requires c == Emit(Emit(b, [BumpByte(e.inc)]), [b.latest.store, b.latest.slot])
    ensures DidE(fns, a, c, e, k)
  {
    EmitBump(fns, a, b, e.x, e.inc, e.before);
    assert b.ch.code + [BumpByte(e.inc)] + [b.latest.store, b.latest.slot] ==
           b.ch.code + [BumpByte(e.inc), b.latest.store, b.latest.slot];
    hide EmittedE;
  }

  lemma BumpDone(fns: Fns, a: State, b: State, c: State, d: Expr, l: Link, k: seq<Token>)
    requires l.BumpLink? && d.Local? && EmittedE(fns, a, b, d) && Sees(b, k)
    requires c == Emit(Emit(b, [BumpByte(l.inc)]), [b.latest.store, b.latest.slot])
    ensures DidE(fns, a, c, Build(d, l), k)
  {
    EmitBump(fns, a, b, d.x, l.inc, false);
    assert b.ch.code + [BumpByte(l.inc)] + [b.latest.store, b.latest.slot] ==
           b.ch.code + [BumpByte(l.inc), b.latest.store, b.latest.slot];
    hide EmittedE;
  }

  lemma BinaryDone(fns: Fns, a: State, b: State, c: State, d: Expr, l: Link, k: seq<Token>)
    requires l.OpLink? && EmittedE(fns, a, b, d) && DidE(fns, b, c, l.r, k)
    ensures DidE(fns, a, Emit(c, [OpByte(l.op)]), Build(d, l), k)
  {
    EmitBin(fns, a, b, c, l.op, d, l.r);
    hide EmittedE;
  }

  lemma CompoundDone(fns: Fns, a: State, b: State, c: State, c1: State, d: Expr, l: Link, k: seq<Token>)
    requires l.SetLink? && d.Local? && EmittedE(fns, a, b, d) && DidE(fns, b, c, l.r, k)
    requires c1 == Emit(Emit(c, [OpByte(l.sop)]), [c.latest.store, c.latest.slot])
    ensures DidE(fns, a, c1, Build(d, l), k)
  {
    EmitCompound(fns, a, b, c, l.sop, d.x, l.r);
    assert c.ch.code + [OpByte(l.sop)] + [c.latest.store, c.latest.slot] ==
           c.ch.code + [OpByte(l.sop), c.latest.store, c.latest.slot];
    hide EmittedE;
  }

  lemma CallDone(fns: Fns, a: State, b: State, c: State, d: Expr, l: Link, k: seq<Token>)
    requires l.CallLink? && EmittedE(fns, a, b, d) && EmittedArgs(fns, b, c, l.args) && Sees(c, k)
             && Count(l.args) < 256
    ensures DidE(fns, a, Emit(c, [OP_CALL, Count(l.args)]), Build(d, l), k)
  {
    EmitCall(fns, a, b, c, d, l.args);
    hide EmittedE;
  }

  // ------------------------------------------------------------ argument lists

  lemma ArgsStart(fns: Fns, a: State, es: Exprs, k: seq<Token>)
    requires ReadyArgs(fns, a, es, k)
    ensures es.Nil? <==> a.p.cur == RParen
    ensures es.Nil? ==> a.p.rest == k
    ensures ArgsLeft(fns, a, a, Nil, es, k)
  {
    EmitNoArgs(fns, a, a);
    assert ([a.p.cur] + a.p.rest)[0] == a.p.cur;
    if es.Nil? {
      assert ([a.p.cur] + a.p.rest)[1..] == k;
    } else {
      PrintFirst(es.head, PREC_ASSIGNMENT, if es.tail.Nil? then [RParen] + k
        else [Comma] + PrintArgs(es.tail, [RParen] + k));
    }
    hide Print, EmittedArgs;
  }

  lemma ArgsNone(fns: Fns, a: State, b: State, es: Exprs, k: seq<Token>)
    requires es.Nil? && a.p.rest == k && Skipped(a, b)
    ensures EmittedArgs(fns, a, b, es) && Sees(b, k)
  {
    EmitNoArgs(fns, a, b);
    hide EmittedArgs;
  }

  lemma ArgStep(fns: Fns, a: State, b: State, c: State, d: State, did: Exprs, rest: Exprs, es: Exprs, k: seq<Token>)
    requires rest.Cons? && ArgsLeft(fns, a, b, did, rest, k) && Joined(did, rest) == es
    requires DidE(fns, b, c, rest.head, if rest.tail.Nil? then [RParen] + k
             else [Comma] + PrintArgs(rest.tail, [RParen] + k))
    requires if c.p.cur == Comma then Skipped(c, d) else d == c
    ensures Count(Snoc(did, rest.head)) == Count(did) + 1 <= Count(es)
    ensures (c.p.cur == Comma) <==> rest.tail.Cons?
    ensures rest.tail.Cons? ==>
            ArgsLeft(fns, a, d, Snoc(did, rest.head), rest.tail, k) && Joined(Snoc(did, rest.head), rest.tail) == es
    ensures rest.tail.Nil? ==>
            EmittedArgs(fns, a, d, es) && d.p.cur == RParen && d.p.rest == k && Count(es) == Count(did) + 1 && Clean(d)
  {
    ArgDone(fns, a, b, c, did, rest, k);
    SnocFacts(did, rest.head);
    JoinedSnoc(did, rest.head, rest.tail);
    JoinedCount(did, rest);
    if rest.tail.Nil? {
      JoinedNil(Snoc(did, rest.head));
    } else {
      EmittedArgsTokens(fns, a, c, d, Snoc(did, rest.head));
    }
    hide EmittedArgs, DidE, Print, PrintArgs;
  }

  lemma {:induction false} JoinedCount(es: Exprs, fs: Exprs)
    ensures Count(Joined(es, fs)) == Count(es) + Count(fs)
  {
    match es case Nil => case Cons(_, t) => JoinedCount(t, fs);
  }
}
