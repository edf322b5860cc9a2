/** An expression as the parser meets it: a prefix part, then infix parts from left to right. */
module Spine {
  import opened Values
  import opened Syntax

  /** What a prefix rule consumes. */
  datatype Head = Plain(e: Expr) | Grouped(e: Expr)

  /** What an infix rule consumes. */
  datatype Link =
    | OpLink(op: BinOp, r: Expr)
    | SetLink(sop: BinOp, r: Expr)
    | BumpLink(inc: bool)
    | CallLink(args: Exprs)

  function HeadOf(e: Expr): Head
    decreases e, 0
  {
    match e
    case Bin(op, l, _) => HeadAt(l, OpPrec(op))
    case Call(f, _) => HeadAt(f, PREC_CALL)
    case Compound(_, x, _) => Plain(Local(x))
    case Bump(x, _, before) => if before then Plain(e) else Plain(Local(x))
    case _ => Plain(e)
  }

  function HeadAt(e: Expr, p: nat): Head
    decreases e, 1
  {
    if Prec(e) < p then Grouped(e) else HeadOf(e)
  }

  function LinksOf(e: Expr): seq<Link>
    decreases e, 0
  {
    match e
    case Bin(op, l, r) => LinksAt(l, OpPrec(op)) + [OpLink(op, r)]
    case Call(f, args) => LinksAt(f, PREC_CALL) + [CallLink(args)]
    case Compound(op, _, r) => [SetLink(op, r)]
    case Bump(_, inc, before) => if before then [] else [BumpLink(inc)]
    case _ => []
  }

  function LinksAt(e: Expr, p: nat): seq<Link>
    decreases e, 1
  {
    if Prec(e) < p then [] else LinksOf(e)
  }

  /** Trees that a prefix rule parses whole. */
  predicate Starts(e: Expr) {
    e.Lit? || e.Local? || e.FuncRef? || e.Assign? || e.Neg? || (e.Bump? && e.before) || e.Paren?
  }

  // ------------------------------------------------------------ rebuilding

  /** The tree that an infix rule makes of what has been parsed so far. */
  function Build(d: Expr, l: Link): Expr {
    match l
    case OpLink(op, r) => Bin(op, d, r)
    case SetLink(op, r) => if d.Local? then Compound(op, d.x, r) else d
    case BumpLink(inc) => if d.Local? then Bump(d.x, inc, false) else d
    case CallLink(args) => Call(d, args)
  }

  function BuildAll(d: Expr, ls: seq<Link>): Expr {
    if ls == [] then d else Build(BuildAll(d, ls[..|ls| - 1]), ls[|ls| - 1])
  }

  lemma BuildAppend(d: Expr, ls: seq<Link>, l: Link)
    ensures BuildAll(d, ls + [l]) == Build(BuildAll(d, ls), l)
  {
    assert (ls + [l])[..|ls|] == ls;
  }

  lemma {:induction false} Rebuild(e: Expr, p: nat)
    ensures BuildAll(HeadAt(e, p).e, LinksAt(e, p)) == e
    decreases e, 1
  {
    hide HeadOf, LinksOf, Prec;
    if Prec(e) >= p {
      RebuildOf(e);
    }
  }

  lemma {:induction false} RebuildOf(e: Expr)
    ensures BuildAll(HeadOf(e).e, LinksOf(e)) == e
    decreases e, 0
  {
    hide HeadAt, LinksAt, OpPrec;
    match e
    case Bin(op, l, r) =>
      Rebuild(l, OpPrec(op));
      BuildAppend(HeadOf(e).e, LinksAt(l, OpPrec(op)), OpLink(op, r));
    case Call(f, args) =>
      Rebuild(f, PREC_CALL);
      BuildAppend(HeadOf(e).e, LinksAt(f, PREC_CALL), CallLink(args));
    case Compound(op, x, r) => BuildAppend(Local(x), [], SetLink(op, r));
    case Bump(x, inc, before) =>
      if !before {
        BuildAppend(Local(x), [], BumpLink(inc));
      }
    case _ =>
  }

  // --------------------------------------------------------------- printing

  function HeadToks(h: Head, k: seq<Token>): seq<Token> {
    match h
    case Grouped(e) => [LParen] + Print(e, PREC_ASSIGNMENT, [RParen] + k)
    case Plain(e) => Bare(e, k)
  }

  function LinkToks(l: Link, k: seq<Token>): seq<Token> {
    match l
    case OpLink(op, r) => [BinTok(op)] + Print(r, OpPrec(op) + 1, k)
    case SetLink(op, r) => [CompoundOp(op)] + Print(r, PREC_ASSIGNMENT, k)
    case BumpLink(inc) => [BumpToken(inc)] + k
    case CallLink(args) => [LParen] + PrintArgs(args, [RParen] + k)
  }

  function LinksToks(ls: seq<Link>, k: seq<Token>): seq<Token> {
    if ls == [] then k else LinkToks(ls[0], LinksToks(ls[1..], k))
  }

  lemma {:induction false} LinksToksAppend(ls: seq<Link>, l: Link, k: seq<Token>)
    ensures LinksToks(ls + [l], k) == LinksToks(ls, LinkToks(l, k))
    decreases |ls|
  {
    if ls == [] {
      assert ([] + [l])[1..] == [];
    } else {
      LinksToksAppend(ls[1..], l, k);
      assert (ls + [l])[1..] == ls[1..] + [l];
    }
  }

  /** The printed operand is its head followed by its links. */
  lemma {:induction false} PrintSplit(e: Expr, p: nat, k: seq<Token>)
    ensures Print(e, p, k) == HeadToks(HeadAt(e, p), LinksToks(LinksAt(e, p), k))
  {
    if Prec(e) >= p {
      match e
      case Bin(op, l, r) =>
        PrintSplit(l, OpPrec(op), [BinTok(op)] + Print(r, OpPrec(op) + 1, k));
        LinksToksAppend(LinksAt(l, OpPrec(op)), OpLink(op, r), k);
      case Call(f, args) =>
        PrintSplit(f, PREC_CALL, [LParen] + PrintArgs(args, [RParen] + k));
        LinksToksAppend(LinksAt(f, PREC_CALL), CallLink(args), k);
      case Compound(op, x, r) =>
        assert [Id(x), CompoundOp(op)] + Print(r, PREC_ASSIGNMENT, k) ==
               [Id(x)] + ([CompoundOp(op)] + Print(r, PREC_ASSIGNMENT, k));
        LinksToksAppend([], SetLink(op, r), k);
      case Bump(x, inc, before) =>
        if !before {
          assert [Id(x), BumpToken(inc)] + k == [Id(x)] + ([BumpToken(inc)] + k);
          LinksToksAppend([], BumpLink(inc), k);
        }
      case _ =>
    }
  }

  // -------------------------------------------------------------- precedences

  function LinkPrec(l: Link): nat {
    match l
    case OpLink(op, _) => OpPrec(op)
    case SetLink(_, _) => PREC_ASSIGNMENT
    case BumpLink(_) => PREC_TERM
    case CallLink(_) => PREC_CALL
  }

  function LinkToken(l: Link): Token {
    match l
    case OpLink(op, _) => BinTok(op)
    case SetLink(op, _) => CompoundOp(op)
    case BumpLink(inc) => BumpToken(inc)
    case CallLink(_) => LParen
  }

  function HeadPrec(h: Head): nat {
    match h case Grouped(_) => PREC_PRIMARY case Plain(e) => Prec(e)
  }

  /** What may follow an operand parsed at precedence `p`. */
  predicate Follow(p: nat, t: Token) {
    RulePrec(t) < p && t != AssignOp && !t.Id?
  }

  /** Which links stand where: precedences do not increase, and assignments and increments
      come directly after a variable. */
  predicate Shaped(h: Head, ls: seq<Link>, p: nat) {
    && (forall i :: 0 <= i < |ls| ==> p <= LinkPrec(ls[i]) <= HeadPrec(h))
    && (forall i, j :: 0 <= i < j < |ls| ==> LinkPrec(ls[j]) <= LinkPrec(ls[i]))
    && (forall i :: 0 <= i < |ls| && (ls[i].SetLink? || ls[i].BumpLink?) ==> i == 0 && h.Plain? && h.e.Local?)
    && (h.Plain? && h.e.Assign? ==> ls == [])
    && (h.Plain? ==> Starts(h.e))
    && (ls != [] && h.Plain? && h.e.Neg? ==> LinkPrec(ls[0]) < PREC_UNARY)
    && (ls != [] && h.Plain? && h.e.Bump? ==> LinkPrec(ls[0]) < PREC_UNARY)
  }

  lemma {:induction false} SpineShaped(e: Expr, p: nat)
    ensures Shaped(HeadAt(e, p), LinksAt(e, p), p)
    ensures Prec(e) >= p ==> p <= HeadPrec(HeadAt(e, p))
    ensures Prec(e) >= p && LinksAt(e, p) != [] ==> LinkPrec(LinksAt(e, p)[|LinksAt(e, p)| - 1]) == Prec(e)
    ensures Prec(e) >= p && LinksAt(e, p) == [] ==> HeadAt(e, p) == Plain(e)
  {
    if Prec(e) >= p {
      match e
      case Bin(op, l, r) => SpineShaped(l, OpPrec(op)); AppendShaped(l, OpPrec(op), OpLink(op, r), p);
      case Call(f, args) => SpineShaped(f, PREC_CALL); AppendShaped(f, PREC_CALL, CallLink(args), p);
      case _ =>
    }
  }

  lemma AppendShaped(d: Expr, q: nat, l: Link, p: nat)
    requires Shaped(HeadAt(d, q), LinksAt(d, q), q)
    requires Prec(d) >= q && LinksAt(d, q) == [] ==> HeadAt(d, q) == Plain(d)
    requires (l.OpLink? || l.CallLink?) && LinkPrec(l) == q && p <= q
    ensures Shaped(HeadAt(d, q), LinksAt(d, q) + [l], p)
  {
    var h, ls := HeadAt(d, q), LinksAt(d, q);
    if ls == [] {
      if Prec(d) >= q {
        assert h == Plain(d);
      }
    } else {
      assert q <= LinkPrec(ls[0]);
    }
  }

  // ------------------------------------------------------------ first tokens

  lemma HeadFirst(h: Head, k: seq<Token>)
    requires h.Plain? ==> Starts(h.e)
    ensures HeadToks(h, k) != [] && HasPrefix(HeadToks(h, k)[0])
  {
  }

  lemma PrintFirst(e: Expr, p: nat, k: seq<Token>)
    ensures Print(e, p, k) != [] && HasPrefix(Print(e, p, k)[0])
  {
    PrintSplit(e, p, k);
    SpineShaped(e, p);
    HeadFirst(HeadAt(e, p), LinksToks(LinksAt(e, p), k));
  }

  lemma LinkFirst(l: Link, k: seq<Token>)
    ensures LinkToks(l, k) != [] && LinkToks(l, k)[0] == LinkToken(l)
    ensures RulePrec(LinkToken(l)) == LinkPrec(l)
    ensures HasInfix(LinkToken(l)) && LinkToken(l) != AssignOp && !LinkToken(l).Id?
  {
  }

  /** What may follow the prefix part. */
  predicate HeadFollow(h: Head, t: Token) {
    && t != AssignOp && !t.Id?
    && (h.Plain? && (h.e.Neg? || h.e.Bump?) ==> RulePrec(t) < PREC_UNARY)
    && (h.Plain? && h.e.Assign? ==> RulePrec(t) < PREC_ASSIGNMENT)
  }

  /** What may follow an infix part. */
  predicate LinkFollow(l: Link, t: Token) {
    match l
    case OpLink(op, _) => Follow(OpPrec(op) + 1, t)
    case SetLink(_, _) => Follow(PREC_ASSIGNMENT, t)
    case _ => true
  }

  /** Between the parts of an operand printed at `p` and followed by `k`, only tokens stand
      that may follow them. */
  lemma PartsFollow(e: Expr, p: nat, k: seq<Token>, i: nat)
    requires k != [] && Follow(p, k[0]) && 1 <= p <= PREC_CALL && i <= |LinksAt(e, p)|
    ensures
      var h, ls := HeadAt(e, p), LinksAt(e, p);
      var rest := LinksToks(ls[i..], k);
      && rest != []
      && (i == 0 ==> HeadFollow(h, rest[0]))
      && (i > 0 ==> LinkFollow(ls[i - 1], rest[0]))
      && (i < |ls| ==>
           rest == LinkToks(ls[i], LinksToks(ls[i + 1..], k)) && rest[0] == LinkToken(ls[i]) && p <= RulePrec(rest[0]))
      && (i == |ls| ==> rest == k)
  {
    SpineShaped(e, p);
    var ls := LinksAt(e, p);
    if i < |ls| {
      assert ls[i..][1..] == ls[i + 1..];
      LinkFirst(ls[i], LinksToks(ls[i + 1..], k));
      assert LinksToks(ls[i..], k) == LinkToks(ls[i], LinksToks(ls[i + 1..], k));
    }
    hide LinkToks, LinksToks, HeadAt, LinksAt;
  }
}
