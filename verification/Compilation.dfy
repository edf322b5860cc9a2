/** The single-pass compiler of compiler.c. */
module Compilation {
  import opened Values
  import opened Syntax
  import opened Bytecode
  import opened Layout
  import opened Spine
  import opened Emission
  import opened Prefixes
  import opened StmtEmission
  import opened Statements
  import opened Recovery
  import opened Functions
  import opened Lookups
  import opened Cases
  import Machine
  import T = Tables

  /** One compiler record: the tokens ahead, the variables in scope, the chunk so far. `fns` is
      the base compiler's table of functions declared so far. */
  class Compiler {
    const fns: Fns
    const inFunction: bool
    ghost const all: seq<Token>
    var p: Parser
    var locals: seq<Variable>
    var scope: nat
    var latest: Current
    var ch: Chunk
    var caseLen: nat
    var spilled: bool

    /** `init_compiler`. */
    constructor (fns: Fns, p: Parser, scope: nat, inFunction: bool, locals: seq<Variable>)
      ensures this.fns == fns && this.inFunction == inFunction
      ensures View() == State(p, locals, scope, Current(0, 0, 0), Chunk([], [], []))
      ensures CaseState(ch.cases, |ch.code|, caseLen, spilled) && Follows(all, p)
    {
      this.fns, this.inFunction := fns, inFunction;
      this.p, this.locals, this.scope, all := p, locals, scope, [p.pre, p.cur] + p.rest;
      latest, ch := Current(0, 0, 0), Chunk([], [], []);
      caseLen, spilled := STACK_SIZE, false;
      NoCases();
    }

    ghost function View(): State
      reads this
    {
      State(p, locals, scope, latest, ch)
    }

    /** The token stream ends with its only end-of-file token. */
    ghost predicate Valid()
      reads this
    {
      && (if p.cur.Eof? then p.rest == [] else p.rest != [] && p.rest[|p.rest| - 1].Eof?)
      && (forall i :: 0 <= i < |p.rest| - 1 ==> !p.rest[i].Eof?)
      && |locals| <= LOCAL_COUNT
      && CaseState(ch.cases, |ch.code|, caseLen, spilled) && Follows(all, p)
    }

    lemma Place()
      requires Valid()
      ensures Follows(all, p) && forall i :: 0 <= i < |p.rest| ==> !([p.cur] + p.rest)[i].Eof?
    {
    }

    ghost function Left(): nat
      reads this
    {
      |p.rest|
    }

    // ------------------------------------------------------------- tokens

    method Advance()
      requires Valid()
      modifies this`p
      ensures Valid()
      ensures p.pre == old(p.cur) && p.flag == old(p.flag) && p.crashed == old(p.crashed)
      ensures if old(p.cur).Eof? then p.cur.Eof? && Left() == 0
              else [p.cur] + p.rest == old(p.rest) && Left() == old(Left()) - 1
    {
      if p.rest == [] {
        p := p.(pre := p.cur);
      } else {
        p := p.(pre := p.cur, cur := p.rest[0], rest := p.rest[1..]);
      }
    }

    method Error()
      requires Valid()
      modifies this`p
      ensures Valid() && p == old(p).(flag := true)
    {
      p := p.(flag := true);
    }

    method Match(t: Token) returns (hit: bool)
      requires Valid()
      modifies this`p
      ensures Valid() && hit == (old(p.cur) == t)
      ensures !hit ==> p == old(p)
      ensures hit ==> p.pre == t && p.flag == old(p.flag) && p.crashed == old(p.crashed)
      ensures hit && !t.Eof? ==> [p.cur] + p.rest == old(p.rest) && Left() == old(Left()) - 1
      ensures Left() <= old(Left())
    {
      hit := p.cur == t;
      if hit {
        Advance();
      }
    }

    method Consume(t: Token)
      requires Valid() && !t.Eof?
      modifies this`p
      ensures Valid() && Left() <= old(Left()) && |ch.code| >= |old(ch.code)|
      ensures old(p.cur) == t ==>
              [p.cur] + p.rest == old(p.rest) && p.flag == old(p.flag) && p.crashed == old(p.crashed)
      ensures old(p.cur) == t ==> p.pre == t && Left() == old(Left()) - 1
      ensures old(p.cur) != t ==> p == old(p).(flag := true)
    {
      if p.cur == t {
        Advance();
      } else {
        Error();
      }
    }

    // ------------------------------------------------------------ emitting

    /** `write_chunk`, which is also where the array of `cases` grows. */
    method EmitByte(b: Byte)
      requires Valid()
      modifies this`ch, this`caseLen
      ensures Valid() && View() == Emit(old(View()), [b])
    {
      hide CaseState;
      ByteAdded(ch.cases, |ch.code|, caseLen, spilled);
      if caseLen < |ch.cases| + 1 {
        caseLen := 2 * caseLen;
      }
      ch := ch.(code := ch.code + [b]);
    }

    method EmitBytes(b1: Byte, b2: Byte)
      requires Valid()
      modifies this`ch, this`caseLen
      ensures Valid() && View() == Emit(old(View()), [b1, b2])
    {
      EmitByte(b1);
      EmitByte(b2);
      assert old(ch.code) + [b1] + [b2] == old(ch.code) + [b1, b2];
    }

    method AddConstant(v: Element) returns (k: nat)
      requires Valid()
      modifies this`ch
      ensures Valid() && k == |old(ch.consts)| && ch == old(ch).(consts := old(ch.consts) + [v])
    {
      ch := ch.(consts := ch.consts + [v]);
      k := |ch.consts| - 1;
    }

    method EmitConstant(v: Element)
      requires Valid()
      modifies this`ch, this`caseLen
      ensures Valid() && p == old(p) && |ch.code| >= |old(ch.code)|
      ensures CanEmit(fns, old(View()), Lit(v)) ==> EmittedE(fns, old(View()), View(), Lit(v))
    {
      ghost var a := View();
      var k := AddConstant(v);
      EmitBytes(OP_CONSTANT, k % 256);
      if CanEmit(fns, a, Lit(v)) {
        EmitLit(fns, a, View(), v);
      }
    }

    // ------------------------------------------------------------- locals

    method ResolveLocal(x: Name) returns (i: int)
      ensures i == Newest(Names(locals), x)
    {
      i := |locals| - 1;
      while i >= 0
        invariant -1 <= i < |locals|
        invariant forall j :: i < j < |locals| ==> locals[j].name != x
      {
        if locals[i].name == x {
          return;
        }
        i := i - 1;
      }
    }

    // --------------------------------------------------------- expressions

    method Expression(ghost e: Expr, ghost k: seq<Token>)
      requires Valid()
      modifies this
      ensures Valid() && Left() <= old(Left()) && |ch.code| >= |old(ch.code)|
              && (!old(p.cur).Eof? ==> Left() < old(Left()))
      ensures ReadyE(fns, old(View()), e, PREC_ASSIGNMENT, k) ==> DidE(fns, old(View()), View(), e, k)
      ensures !HasPrefix(old(p.cur)) ==> p.flag && p.crashed == old(p.crashed) && p.pre == old(p.cur)
                                         && View() == old(View()).(p := p)
      ensures old(Stuck(p, PREC_ASSIGNMENT)) ==> p.crashed
      decreases Left(), 3
    {
      ParsePrecedence(PREC_ASSIGNMENT, e, k);
    }

    method ParsePrecedence(prec: nat, ghost e: Expr, ghost k: seq<Token>)
      requires Valid() && 1 <= prec <= PREC_CALL
      modifies this
      ensures Valid() && Left() <= old(Left()) && |ch.code| >= |old(ch.code)|
              && (!old(p.cur).Eof? ==> Left() < old(Left()))
      ensures ReadyE(fns, old(View()), e, prec, k) ==> DidE(fns, old(View()), View(), e, k)
      ensures !HasPrefix(old(p.cur)) ==> p.flag && p.crashed == old(p.crashed) && p.pre == old(p.cur)
                                         && View() == old(View()).(p := p)
      ensures old(Stuck(p, prec)) ==> p.crashed
      decreases Left(), 2
    {
      hide ReadyE, ReadyHead, ReadyLink, DidE, DidParts, RulePrec, HasPrefix, HasInfix, HeadAt, LinksAt, LinksToks,
           BuildAll, Build, CaseState, Stuck;
      ghost var a, ok, stuck := View(), ReadyE(fns, View(), e, prec, k), Stuck(p, prec);
      ghost var h := HeadAt(e, prec);
      if stuck {
        StuckFacts(p, prec);
      }
      ghost var next := if stuck then p.rest[0] else Eof;
      Advance();
      assert stuck ==> p.cur == ([p.cur] + p.rest)[0] == next;
      ghost var a1 := View();
      if ok {
        HeadReady(fns, a, a1, e, prec, k);
      }
      if !HasPrefix(p.pre) {
        Error();
        return;
      }
      NoPrefixAtEnd(p.pre);
      Prefix(h, LinksToks(LinksAt(e, prec), k));
      if ok {
        HeadDone(fns, a, a1, View(), e, prec, k);
      }
      Infixes(prec, a, e, k);
    }

    /** The loop of `parse_precedence`. An operator without an infix rule is a call of NULL. */
    method Infixes(prec: nat, ghost a: State, ghost e: Expr, ghost k: seq<Token>)
      requires Valid() && 1 <= prec <= PREC_CALL
      modifies this
      ensures Valid() && Left() <= old(Left()) && |ch.code| >= |old(ch.code)|
      ensures ReadyE(fns, a, e, prec, k) && DidParts(fns, a, old(View()), e, prec, k, 0) ==> DidE(fns, a, View(), e, k)
      ensures prec <= RulePrec(old(p.cur)) && !HasInfix(old(p.cur)) ==> p.crashed
      decreases Left(), 7
    {
      hide ReadyE, ReadyLink, DidE, DidParts, RulePrec, HasInfix, HeadAt, LinksAt, LinksToks, BuildAll, Build,
           CaseState;
      ghost var ok := ReadyE(fns, a, e, prec, k) && DidParts(fns, a, View(), e, prec, k, 0);
      ghost var h, ls, i := HeadAt(e, prec), LinksAt(e, prec), 0;
      while prec <= RulePrec(p.cur)
        invariant Valid() && Left() <= old(Left()) && |ch.code| >= |old(ch.code)|
        invariant ok ==> DidParts(fns, a, View(), e, prec, k, i)
        invariant prec <= RulePrec(old(p.cur)) && !HasInfix(old(p.cur)) ==> p.cur == old(p.cur)
        decreases Left()
      {
        ghost var b := View();
        NoRuleAtEnd(p.cur);
        Advance();
        if ok {
          LinkReady(fns, a, b, View(), e, prec, k, i);
        }
        if !HasInfix(p.pre) {
          p := p.(crashed := true);
          return;
        }
        ghost var l := if i < |ls| then ls[i] else BumpLink(true);
        ghost var d := if i < |ls| then BuildAll(h.e, ls[..i]) else e;
        Infix(a, d, l, if i < |ls| then LinksToks(ls[i + 1..], k) else k);
        if ok {
          LinkDone(fns, a, View(), e, prec, k, i);
        }
        i := i + 1;
      }
      if ok {
        AllDone(fns, a, View(), e, prec, k, i);
      }
    }

    /** A number, and behind it an operator that has a precedence but no infix rule. */
    ghost predicate Stuck(p: Parser, prec: nat) {
      p.cur.Number? && |p.rest| > 0 && prec <= RulePrec(p.rest[0]) && !HasInfix(p.rest[0])
    }

    lemma StuckFacts(p: Parser, prec: nat)
      requires Stuck(p, prec)
      ensures p.cur.Number? && HasPrefix(p.cur) && p.rest != []
      ensures prec <= RulePrec(p.rest[0]) && !HasInfix(p.rest[0])
    {
    }

    /** `prefix_rule(c)`: the prefix column of the rule table. */
    method Prefix(ghost h: Head, ghost k: seq<Token>)
      requires Valid() && HasPrefix(p.pre)
      modifies this
      ensures Valid() && Left() <= old(Left()) && |ch.code| >= |old(ch.code)|
      ensures ReadyHead(fns, old(View()), h, k) ==> DidE(fns, old(View()), View(), h.e, k)
      ensures old(p.pre).Number? ==> p == old(p)
      decreases Left(), 6
    {
      hide DidE, ReadyHead, CaseState;
      var t := p.pre;
      if t.LParen? {
        Grouping(h, k);
      } else if t.Number? {
        Num(h, k);
      } else if t.True? || t.False? || t.NullTok? {
        Boolean(h, k);
      } else if t.Id? {
        Id(h, k);
      } else {
        Unary(h, k);
      }
    }

    /** `infix(c)`: the infix column of the rule table. */
    method Infix(ghost a: State, ghost d: Expr, ghost l: Link, ghost k: seq<Token>)
      requires Valid() && HasInfix(p.pre)
      modifies this
      ensures Valid() && Left() <= old(Left()) && |ch.code| >= |old(ch.code)|
      ensures ReadyLink(fns, a, old(View()), d, l, k) ==> DidE(fns, a, View(), Build(d, l), k)
      decreases Left(), 6
    {
      hide DidE, ReadyLink, CaseState;
      var t := p.pre;
      if t.LParen? {
        CallArguments(a, d, l, k);
      } else if t.BinTok? {
        Binary(a, d, l, k);
      } else if t.CompoundOp? {
        CompoundAssign(a, d, l, k);
      } else {
        InfixUnary(a, d, l, k);
      }
    }

    method Grouping(ghost h: Head, ghost k: seq<Token>)
      requires Valid() && p.pre == LParen
      modifies this
      ensures Valid() && Left() <= old(Left()) && |ch.code| >= |old(ch.code)|
      ensures ReadyHead(fns, old(View()), h, k) ==> DidE(fns, old(View()), View(), h.e, k)
      decreases Left(), 4
    {
      hide ReadyE, ReadyHead, DidE, CaseState;
      ghost var a := View();
      if ReadyHead(fns, a, h, k) {
        GroupingReady(fns, a, h, k);
      }
      Expression(Inside(h), [RParen] + k);
      ghost var b := View();
      Consume(RParen);
      if ReadyHead(fns, a, h, k) {
        DidCurrent(fns, a, b, Inside(h), RParen, k);
        DidSkip(fns, a, b, View(), Inside(h), RParen, k);
        InsideDone(fns, a, View(), h, k);
      }
    }

    method Num(ghost h: Head, ghost k: seq<Token>)
      requires Valid() && p.pre.Number?
      modifies this
      ensures Valid() && Left() <= old(Left()) && |ch.code| >= |old(ch.code)|
      ensures ReadyHead(fns, old(View()), h, k) ==> DidE(fns, old(View()), View(), h.e, k)
      ensures p == old(p)
      decreases Left(), 4
    {
      hide ReadyHead, CanEmit, EmittedE, CaseState;
      if ReadyHead(fns, View(), h, k) {
        LitReady(fns, View(), h, k);
      }
      EmitConstant(Element.Num(p.pre.value));
    }

    /** `true`, `false` and `null`. */
    method Boolean(ghost h: Head, ghost k: seq<Token>)
      requires Valid() && (p.pre.True? || p.pre.False? || p.pre.NullTok?)
      modifies this
      ensures Valid() && Left() <= old(Left()) && |ch.code| >= |old(ch.code)|
      ensures ReadyHead(fns, old(View()), h, k) ==> DidE(fns, old(View()), View(), h.e, k)
      decreases Left(), 4
    {
      hide ReadyHead, CanEmit, EmittedE, CaseState;
      if ReadyHead(fns, View(), h, k) {
        LitReady(fns, View(), h, k);
      }
      if p.pre.NullTok? {
        EmitConstant(Null);
      } else {
        EmitConstant(Bool(p.pre.True?));
      }
    }

    /** An identifier, or the assignment it begins. */
    method Id(ghost h: Head, ghost k: seq<Token>)
      requires Valid()
      modifies this
      ensures Valid() && Left() <= old(Left()) && |ch.code| >= |old(ch.code)|
      ensures ReadyHead(fns, old(View()), h, k) && old(p.pre).Id? ==> DidE(fns, old(View()), View(), h.e, k)
      decreases Left(), 5
    {
      hide ReadyHead, ReadyE, DidE, EmittedE, ResolvesE, LitsE, CaseState;
      ghost var a, ok := View(), ReadyHead(fns, View(), h, k) && p.pre.Id?;
      if ok {
        IdReady(fns, a, h, k);
      }
      if p.cur.Id? {
        Advance();
      }
      var x := NameOf(p.pre);
      if x in fns {
        EmitBytes(OP_GET_OBJ, fns[x] % 256);
        if ok {
          NotVariable(fns, a, h, x);
          EmitFunc(fns, a, View(), x);
          DidIt(fns, a, View(), h.e, k);
        }
        return;
      }
      IdVariable(x, h, k);
    }

    method Remember(slot: Byte, store: Byte, load: Byte)
      requires Valid()
      modifies this`latest
      ensures Valid() && latest == Current(slot, store, load)
    {
      latest := Current(slot, store, load);
    }

    /** `id` for a name that is no function. */
    method IdVariable(x: Name, ghost h: Head, ghost k: seq<Token>)
      requires Valid() && x !in fns
      modifies this
      ensures Valid() && Left() <= old(Left()) && |ch.code| >= |old(ch.code)|
      ensures ReadyHead(fns, old(View()), h, k) && old(p.pre) == Token.Id(x) ==> DidE(fns, old(View()), View(), h.e, k)
      decreases Left(), 4
    {
      hide Valid, ReadyHead, ReadyE, DidE, EmittedE, ResolvesE, LitsE;
      ghost var a, ok := View(), ReadyHead(fns, View(), h, k) && p.pre == Token.Id(x);
      if ok {
        IdReady(fns, a, h, k);
      }
      var arg := ResolveLocal(x);
      var load, store := OP_GET_LOCAL, OP_SET_LOCAL;
      if arg == -1 {
        arg := AddConstant(Key(x));
        load, store := OP_GET_GLOBAL, OP_SET_GLOBAL;
      }
      Remember(arg % 256, store, load);
      StoreOrLoad(arg % 256, store, load, a, h, k);
    }

    /** The last part of `id`: an assignment, or a read. */
    method StoreOrLoad(slot: Byte, store: Byte, load: Byte, ghost a: State, ghost h: Head, ghost k: seq<Token>)
      requires Valid()
      modifies this
      ensures Valid() && Left() <= old(Left()) && |ch.code| >= |old(ch.code)|
      ensures ReadyHead(fns, a, h, k) && a.p.pre.Id? && a.p.pre.name !in fns
              && old(View()) == a.(latest := Current(slot, store, load))
              && slot == Newest(Names(a.locals), a.p.pre.name) && store == OP_SET_LOCAL && load == OP_GET_LOCAL ==>
                DidE(fns, a, View(), h.e, k)
      decreases Left(), 3
    {
      hide Valid, Newest, ReadyHead, ReadyE, DidE, EmittedE, ResolvesE, LitsE;
      ghost var a1 := View();
      ghost var ok := ReadyHead(fns, a, h, k) && a.p.pre.Id? && a.p.pre.name !in fns
        && a1 == a.(latest := Current(slot, store, load))
                      && slot == Newest(Names(a.locals), a.p.pre.name) && store == OP_SET_LOCAL && load == OP_GET_LOCAL;
      if ok {
        IdReady(fns, a, h, k);
      }
      var assign := Match(AssignOp);
      ghost var a2 := View();
      if assign {
        ghost var r := if h.e.Assign? then h.e.e else h.e;
        if ok {
          AssignReady(fns, a, a1, a2, h.e, k);
        }
        Expression(r, k);
        ghost var b := View();
        EmitBytes(store, slot);
        if ok {
          AssignDone(fns, a, a2, b, View(), h.e, k);
        }
      } else {
        EmitBytes(load, slot);
        if ok {
          LocalDone(fns, a, View(), h.e, a.p.pre.name, k);
        }
      }
    }

    method Unary(ghost h: Head, ghost k: seq<Token>)
      requires Valid() && (p.pre.IncOp? || p.pre.DecOp? || p.pre.Bang? || p.pre == BinTok(Sub))
      modifies this
      ensures Valid() && Left() <= old(Left()) && |ch.code| >= |old(ch.code)|
      ensures ReadyHead(fns, old(View()), h, k) ==> DidE(fns, old(View()), View(), h.e, k)
      decreases Left(), 4
    {
      hide ReadyHead, ReadyE, DidE, EmittedE, ResolvesE, LitsE, CaseState;
      ghost var a, ok := View(), ReadyHead(fns, View(), h, k);
      if ok {
        UnaryReady(fns, a, h, k);
      }
      var op := p.pre;
      ghost var r := if h.e.Neg? then h.e.e else if h.e.Bump? then Local(h.e.x) else h.e;
      ParsePrecedence(PREC_UNARY, r, k);
      ghost var b := View();
      if op.IncOp? || op.DecOp? {
        EmitByte(BumpByte(op.IncOp?));
        EmitBytes(latest.store, latest.slot);
        if ok {
          UnaryBump(fns, a, b, View(), h.e, k);
        }
      } else {
        EmitByte(OP_NEG);
        if ok {
          UnaryNeg(fns, a, b, h.e, k);
        }
      }
    }

    method Binary(ghost a: State, ghost d: Expr, ghost l: Link, ghost k: seq<Token>)
      requires Valid() && p.pre.BinTok?
      modifies this
      ensures Valid() && Left() <= old(Left()) && |ch.code| >= |old(ch.code)|
      ensures ReadyLink(fns, a, old(View()), d, l, k) ==> DidE(fns, a, View(), Build(d, l), k)
      decreases Left(), 4
    {
      hide ReadyLink, ReadyE, DidE, EmittedE, CaseState;
      ghost var b, ok := View(), ReadyLink(fns, a, View(), d, l, k);
      if ok {
        BinaryReady(fns, a, b, d, l, k);
      }
      var op := p.pre.bop;
      ParsePrecedence(OpPrec(op) + 1, if l.OpLink? then l.r else d, k);
      ghost var c := View();
      EmitByte(OpByte(op));
      if ok {
        BinaryDone(fns, a, b, c, d, l, k);
      }
    }

    /** `++` and `--` after an operand. */
    method InfixUnary(ghost a: State, ghost d: Expr, ghost l: Link, ghost k: seq<Token>)
      requires Valid() && (p.pre.IncOp? || p.pre.DecOp?)
      modifies this
      ensures Valid() && Left() <= old(Left()) && |ch.code| >= |old(ch.code)|
      ensures ReadyLink(fns, a, old(View()), d, l, k) ==> DidE(fns, a, View(), Build(d, l), k)
      decreases Left(), 4
    {
      hide ReadyLink, ReadyE, DidE, EmittedE, CaseState;
      ghost var b, ok := View(), ReadyLink(fns, a, View(), d, l, k);
      if ok {
        BumpReady(fns, a, b, d, l, k);
      }
      EmitByte(BumpByte(p.pre.IncOp?));
      EmitBytes(latest.store, latest.slot);
      if ok {
        BumpDone(fns, a, b, View(), d, l, k);
      }
    }

    method CompoundAssign(ghost a: State, ghost d: Expr, ghost l: Link, ghost k: seq<Token>)
      requires Valid() && p.pre.CompoundOp?
      modifies this
      ensures Valid() && Left() <= old(Left()) && |ch.code| >= |old(ch.code)|
      ensures ReadyLink(fns, a, old(View()), d, l, k) ==> DidE(fns, a, View(), Build(d, l), k)
      decreases Left(), 4
    {
      hide ReadyLink, ReadyE, DidE, EmittedE, CaseState;
      ghost var b, ok := View(), ReadyLink(fns, a, View(), d, l, k);
      if ok {
        CompoundReady(fns, a, b, d, l, k);
      }
      var op := p.pre.aop;
      ParsePrecedence(PREC_ASSIGNMENT, if l.SetLink? then l.r else d, k);
      ghost var c := View();
      EmitByte(OpByte(op));
      EmitBytes(latest.store, latest.slot);
      if ok {
        CompoundDone(fns, a, b, c, View(), d, l, k);
      }
    }

    method CallArguments(ghost a: State, ghost d: Expr, ghost l: Link, ghost k: seq<Token>)
      requires Valid() && p.pre == LParen
      modifies this
      ensures Valid() && Left() <= old(Left()) && |ch.code| >= |old(ch.code)|
      ensures ReadyLink(fns, a, old(View()), d, l, k) ==> DidE(fns, a, View(), Build(d, l), k)
      decreases Left(), 5
    {
      hide ReadyLink, ReadyArgs, DidE, EmittedE, EmittedArgs, CaseState;
      ghost var b, ok := View(), ReadyLink(fns, a, View(), d, l, k);
      if ok {
        CallReady(fns, a, b, d, l, k);
      }
      var argc := ArgumentList(if l.CallLink? then l.args else Nil, k);
      ghost var c := View();
      EmitBytes(OP_CALL, argc);
      if ok {
        CallDone(fns, a, b, c, d, l, k);
      }
    }

    method ArgumentList(ghost es: Exprs, ghost k: seq<Token>) returns (argc: Byte)
      requires Valid()
      modifies this
      ensures Valid() && Left() <= old(Left()) && |ch.code| >= |old(ch.code)|
      ensures ReadyArgs(fns, old(View()), es, k) && Count(es) < 256 ==>
                EmittedArgs(fns, old(View()), View(), es) && Sees(View(), k) && argc == Count(es)
      decreases Left(), 4
    {
      hide Valid, PrintArgs, ReadyE, DidE, EmittedE, EmittedArgs, ArgsLeft, ReadyArgs;
      ghost var a, ok := View(), ReadyArgs(fns, View(), es, k) && Count(es) < 256;
      argc := 0;
      if ok {
        ArgsStart(fns, a, es, k);
      }
      var none := Match(RParen);
      if none {
        if ok {
          ArgsNone(fns, a, View(), es, k);
        }
        return;
      }
      ghost var did, rest := Nil, es;
      var more := true;
      while more
        invariant Valid() && Left() <= old(Left()) && |ch.code| >= |old(ch.code)|
        invariant ok && more ==>
                  rest.Cons? && ArgsLeft(fns, a, View(), did, rest, k) && Joined(did, rest) == es && argc == Count(did)
        invariant ok && !more ==>
                  EmittedArgs(fns, a, View(), es) && View().p.cur == RParen && View().p.rest == k && argc == Count(es)
                    && Clean(View())
        decreases more, Left()
      {
        more, argc := Argument(a, did, rest, es, k, argc);
        if ok {
          did, rest := Snoc(did, rest.head), rest.tail;
        }
      }
      ghost var b := View();
      Consume(RParen);
      if ok {
        EmittedArgsTokens(fns, a, b, View(), es);
      }
    }

    /** One argument, and whether a comma follows. */
    method Argument(ghost a: State, ghost did: Exprs, ghost rest: Exprs, ghost es: Exprs, ghost k: seq<Token>,
                    argc: Byte)
      returns (more: bool, n: Byte)
      requires Valid()
      modifies this
      ensures Valid() && Left() <= old(Left()) && |ch.code| >= |old(ch.code)| && (more ==> Left() < old(Left()))
      ensures rest.Cons? && ArgsLeft(fns, a, old(View()), did, rest, k) && Joined(did, rest) == es && argc == Count(did)
              && Count(es) < 256 ==>
                && more == rest.tail.Cons? && n == Count(Snoc(did, rest.head))
                && (more ==>
                     ArgsLeft(fns, a, View(), Snoc(did, rest.head), rest.tail, k)
                       && Joined(Snoc(did, rest.head), rest.tail) == es)
                && (!more ==>
                     EmittedArgs(fns, a, View(), es) && p.cur == RParen && p.rest == k && n == Count(es)
                       && Clean(View()))
      ensures argc == 255 ==> p.flag
      decreases Left(), 4, 0
    {
      hide Valid, PrintArgs, ReadyE, DidE, EmittedE, EmittedArgs, ArgsLeft, Joined, Snoc;
      ghost var b := View();
      ghost var ok := rest.Cons? && ArgsLeft(fns, a, b, did, rest, k) && Joined(did, rest) == es && argc == Count(did)
        && Count(es) < 256;
      if ok {
        ArgReady(fns, a, b, did, rest, k);
        JoinedCount(did, rest);
      }
      ghost var e := if rest.Cons? then rest.head else Lit(Null);
      Expression(e, if rest.Nil? || rest.tail.Nil? then [RParen] + k else [Comma] + PrintArgs(rest.tail, [RParen] + k));
      ghost var c := View();
      if argc == 255 {
        Error();
      }
      n := (argc as int + 1) % 256;
      more := Match(Comma);
      if ok {
        ArgStep(fns, a, b, c, View(), did, rest, es, k);
      }
    }

    // ------------------------------------------------------- jumps and scopes

    /** `emit_jump`: the operand stays 0xFFFF until it is patched; its address is returned. */
    method EmitJump(op: Byte) returns (off: nat)
      requires Valid()
      modifies this`ch, this`caseLen
      ensures Valid() && ch == Extend(old(ch), Pending(op)) && off == |old(ch.code)| + 1
    {
      EmitByte(op);
      EmitBytes(255, 255);
      assert old(ch.code) + [op] + [255, 255] == old(ch.code) + [op, 255, 255];
      off := |ch.code| - 2;
    }

    method PatchJump(off: nat)
      requires Valid() && off + 1 < |ch.code|
      modifies this`ch, this`p
      ensures Valid() && ch == Patch(old(ch), off, |old(ch.code)| - off - 2)
      ensures p == if |old(ch.code)| - off - 2 >= 32767 then old(p).(flag := true) else old(p)
    {
      var jump := |ch.code| - off - 2;
      if jump >= 32767 {
        Error();
      }
      ch := ch.(code := ch.code[off := jump / 256 % 256][off + 1 := jump % 256]);
    }

    /** The `cases` table records where an `if` ends. `spilled` is set when the array had no room. */
    method AddCase()
      requires Valid()
      modifies this`ch, this`spilled
      ensures Valid() && ch == old(ch).(cases := old(ch.cases) + [|old(ch.code)|])
    {
      hide CaseState;
      CaseAdded(ch.cases, |ch.code|, caseLen, spilled);
      spilled := spilled || |ch.cases| >= caseLen;
      ch := ch.(cases := ch.cases + [|ch.code|]);
    }

    method EmitLoop(start: nat)
      requires Valid() && start <= |ch.code|
      modifies this`ch, this`p, this`caseLen
      ensures Valid() && |ch.code| == |old(ch.code)| + 3
              && ch == Extend(old(ch), [OP_LOOP] + Short(|old(ch.code)| - start + 3))
      ensures p == if |old(ch.code)| - start + 3 > 65535 then old(p).(flag := true) else old(p)
    {
      EmitByte(OP_LOOP);
      var offset := |ch.code| - start + 2;
      if offset > 65535 {
        Error();
      }
      EmitBytes(offset / 256 % 256, offset % 256);
      assert old(ch.code) + [OP_LOOP] + [offset / 256 % 256, offset % 256] ==
             old(ch.code) + ([OP_LOOP] + Short(offset));
    }

    /** The jump back to `start`, and the patch of a jump that leads behind it. */
    method LoopEnd(start: nat, off: nat)
      requires Valid() && start <= |ch.code| && off + 1 < |ch.code|
      modifies this`ch, this`p, this`caseLen
      ensures Valid() && |ch.code| == |old(ch.code)| + 3
      ensures ch == Patch(Extend(old(ch), [OP_LOOP] + Short(|old(ch.code)| - start + 3)), off,
                      |old(ch.code)| + 3 - off - 2)
      ensures p == if |old(ch.code)| - start + 3 > 65535 || |old(ch.code)| + 3 - off - 2 >= 32767
                   then old(p).(flag := true) else old(p)
    {
      hide Valid;
      EmitLoop(start);
      PatchJump(off);
    }

    method BeginScope()
      requires Valid()
      modifies this`scope
      ensures Valid() && scope == (old(scope) + 1) % 256
    {
      scope := (scope + 1) % 256;
    }

    method EndScope()
      requires Valid()
      modifies this`scope, this`locals, this`ch, this`caseLen
      ensures Valid() && |ch.code| >= |old(ch.code)|
      ensures 0 < old(scope) < 256 ==> Closed(old(View()), View())
    {
      hide LaidPops, CaseState;
      scope := (scope + 255) % 256;
      var count := -1;
      ghost var all := locals;
      while |locals| > 0 && locals[|locals| - 1].depth > scope
        invariant ch == old(ch) && caseLen == old(caseLen) && scope == (old(scope) + 255) % 256
        invariant -1 <= count && |locals| + count + 1 == |all| && locals == all[..|locals|]
        invariant Trailing(all, scope) == count + 1 + Trailing(locals, scope)
        decreases |locals|
      {
        count := count + 1;
        locals := locals[..|locals| - 1];
      }
      if count == 0 {
        EmitByte(OP_POP);
      } else if count >= 1 {
        EmitBytes(OP_POPN, count % 256);
      } else {
        assert ch.code + [] == ch.code;
      }
    }

    // ------------------------------------------------------------ variables

    /** `declare_var` and `add_local`. */
    method DeclareVar(x: Name)
      requires Valid()
      modifies this`locals, this`p
      ensures Valid() && p.cur == old(p.cur) && p.pre == old(p.pre) && p.rest == old(p.rest)
              && p.crashed == old(p.crashed)
      ensures scope == 0 ==> p == old(p) && locals == old(locals)
      ensures old(p.flag) ==> p.flag
      ensures MayDeclare(old(locals), scope, x) ==> p == old(p) && locals == old(locals) + [Variable(x, scope)]
      ensures scope > 0 ==>
                && p.flag == (old(p.flag) || Clashes(old(locals), scope, x) || |old(locals)| == LOCAL_COUNT)
                && locals == if |old(locals)| == LOCAL_COUNT then old(locals) else old(locals) + [Variable(x, scope)]
    {
      if scope == 0 {
        return;
      }
      var i := |locals| - 1;
      ghost var clash := false;
      while i >= 0 && (locals[i].depth == 0 || locals[i].depth >= scope)
        invariant -1 <= i < |locals| && locals == old(locals)
        invariant forall j :: i < j < |locals| ==> locals[j].depth == 0 || locals[j].depth >= scope
        invariant clash ==> Clashes(locals, scope, x) && p.flag
        invariant old(p.flag) ==> p.flag
        invariant !clash ==> p == old(p) && forall j :: i < j < |locals| ==> locals[j].name != x
        invariant p.cur == old(p.cur) && p.pre == old(p.pre) && p.rest == old(p.rest) && p.crashed == old(p.crashed)
      {
        if locals[i].name == x {
          assert InCurrentScope(locals, scope, i);
          clash := true;
          Error();
        }
        i := i - 1;
      }
      if Clashes(locals, scope, x) {
        ghost var j :| 0 <= j < |locals| && locals[j].name == x && InCurrentScope(locals, scope, j);
        assert i < j;
      }
      if |locals| == LOCAL_COUNT {
        Error();
        return;
      }
      locals := locals + [Variable(x, scope)];
    }

    /** A name, declared: its constant index if it is global, else -1. */
    method NewVariable() returns (x: Name, glob: int)
      requires Valid()
      modifies this
      ensures Valid() && Left() <= old(Left()) && |ch.code| >= |old(ch.code)| && scope == old(scope)
      ensures old(p.cur.Id? && Clean(View()) && scope > 0 && MayDeclare(locals, scope, NameOf(p.cur))) ==>
                && x == NameOf(old(p.cur)) && glob == -1
                && Clean(View()) && locals == old(locals) + [Variable(x, scope)] && ch == old(ch)
                && [p.cur] + p.rest == old(p.rest)
      ensures scope == 0 ==>
              glob == |old(ch.consts)| && ch == old(ch).(consts := old(ch.consts) + [Key(x)]) && locals == old(locals)
      ensures scope > 0 ==> glob == -1 && ch == old(ch)
      ensures old(p.cur).Id? ==> x == NameOf(old(p.cur))
      ensures !old(p.cur).Id? || old(p.flag) ==> p.flag
    {
      hide Clashes, CaseState;
      if p.cur.Id? {
        Advance();
      } else {
        Error();
      }
      x := NameOf(p.pre);
      DeclareVar(x);
      glob := -1;
      if scope == 0 {
        glob := AddConstant(Key(x));
      }
    }

    /** The declared variable, and how it is going to be stored. */
    method VarSlot() returns (store: Byte, slot: Byte)
      requires Valid()
      modifies this
      ensures Valid() && Left() <= old(Left()) && |ch.code| >= |old(ch.code)|
      ensures old(p.cur.Id? && Clean(View()) && 0 < scope && MayDeclare(locals, scope, NameOf(p.cur)) && |locals| < 255)
              ==> && store == OP_SET_LOCAL && slot == |old(locals)| && Clean(View()) && scope == old(scope)
                  && locals == old(locals) + [Variable(NameOf(old(p.cur)), scope)] && ch == old(ch)
                  && [p.cur] + p.rest == old(p.rest)
    {
      hide Valid, MayDeclare, Clashes, Names;
      ghost var was := locals;
      var name, glob := NewVariable();
      store := OP_GLOBAL_DEF;
      if glob == -1 {
        NewestNew(was, Variable(name, scope));
        glob := ResolveLocal(name);
        store := OP_SET_LOCAL;
      }
      slot := glob % 256;
    }

    /** `var_dec`, after the keyword. */
    method VarDec(ghost x: Name, ghost e: Expr, ghost ts: seq<Token>)
      requires Valid()
      modifies this
      ensures Valid() && Left() <= old(Left()) && |ch.code| >= |old(ch.code)|
      ensures ReadyVar(fns, old(View()), x, e, ts) ==>
              EmittedD(fns, old(View()), View(), Then(Var(x, e), Done)) && Sees(View(), ts)
      decreases Left(), 7
    {
      hide Valid, MayDeclare, Clashes, Names, Print, ReadyE, DidE, EmittedD, ReadyVar, ResolvesE;
      ghost var a, ok := View(), ReadyVar(fns, View(), x, e, ts);
      if ok {
        VarTokens(fns, a, a, x, e, ts);
        VarMay(fns, a, x, e, ts);
      }
      var store, slot := VarSlot();
      ghost var b := View();
      if ok {
        VarTokens(fns, a, b, x, e, ts);
      }
      var init := Match(AssignOp);
      ghost var c := View();
      if init {
        if ok {
          VarReady(fns, a, b, c, x, e, ts);
        }
        Expression(e, [Semi] + ts);
        ghost var d := View();
        EmitBytes(store, slot);
        ghost var e1 := View();
        Consume(Semi);
        if ok {
          DidCurrent(fns, c, d, e, Semi, ts);
          VarDone(fns, a, c, d, e1, View(), x, e, ts);
        }
      } else {
        EmitByte(OP_NOOP);
        Consume(Semi);
      }
    }

    // ----------------------------------------------------------- statements

    /** `( c )` and the pending jump past what it guards: `consume_if` and its like. The state
        before the jump is returned for the proof. */
    method Guard(ghost c: Expr, ghost ts: seq<Token>) returns (exit: nat, ghost b: State)
      requires Valid()
      modifies this
      ensures Valid() && Left() <= old(Left()) && |ch.code| >= |old(ch.code)|
      ensures |old(ch.code)| <= exit && exit + 1 < |ch.code|
      ensures ReadyGuard(fns, old(View()), c, ts) ==>
              DidGuard(fns, old(View()), b, View(), c, ts) && exit == |b.ch.code| + 1
      decreases Left(), 8
    {
      hide Valid, ReadyE, DidE, ReadyGuard, DidGuard, Sees;
      ghost var a, ok := View(), ReadyGuard(fns, View(), c, ts);
      if ok {
        GuardFirst(fns, a, c, ts);
      }
      Consume(LParen);
      ghost var a1 := View();
      if ok {
        GuardReady(fns, a, a1, c, ts);
      }
      Expression(c, [RParen] + ts);
      b := View();
      if ok {
        DidCurrent(fns, a1, b, c, RParen, ts);
      }
      Consume(RParen);
      ghost var b0 := View();
      exit := EmitJump(OP_JMPF);
      if ok {
        GuardDone(fns, a, a1, b, b0, View(), c, ts);
      }
    }

    /** `torn` means that no semicolon is expected to be there: `k` follows directly. */
    method Statement(ghost s: Stmt, ghost k: seq<Token>, ghost torn: bool := false)
      requires Valid()
      modifies this
      ensures Valid() && Left() <= old(Left()) && |ch.code| >= |old(ch.code)|
              && (!old(p.cur).Eof? ==> Left() < old(Left()))
      ensures !torn && ReadyS(fns, inFunction, old(View()), s, k) ==> DidS(fns, old(View()), View(), s, k)
      ensures torn && ReadyTorn(fns, inFunction, old(View()), s, k) ==> DidUpTo(fns, old(View()), View(), s, k)
      decreases Left(), 10
    {
      hide Valid, Sees, ReadyS, ReadyTorn, ReadyUpTo, DidUpTo, ReadyRest, DidS, AfterKeyword, EmittedS;
      ghost var a, u := View(), if torn then k else [Semi] + k;
      ghost var ok := !torn && ReadyS(fns, inFunction, a, s, k);
      ghost var cut := torn && ReadyTorn(fns, inFunction, a, s, k);
      if ok {
        StatementFirst(fns, inFunction, a, s, k);
      }
      if cut {
        TornFirst(fns, inFunction, a, a, s, k);
      }
      var t := p.cur;
      if !StartsStatement(t) {
        if ok {
          StatementRest(fns, inFunction, a, a, s, k);
          WholeReady(fns, inFunction, a, s, k);
        }
        DefaultExpression(s, u);
        if ok {
          WholeDone(fns, a, View(), s, k);
        }
        return;
      }
      Advance();
      ghost var b := View();
      if ok {
        StatementRest(fns, inFunction, a, b, s, k);
      }
      if cut {
        TornFirst(fns, inFunction, a, b, s, k);
      }
      if ok {
        assert t == Keyword(s) && !s.Eval?;
        if s.Pout? {
          WholeReady(fns, inFunction, b, s, k);
        }
      }
      if t == PoutKw {
        PrintStatement(s, u);
        if cut {
          UpToTokens(fns, a, b, View(), s, k);
        }
      } else {
        KeywordStatement(t, s, k);
      }
      if ok {
        PoutWhole(fns, b, View(), s, k);
        DidTokens(fns, a, b, View(), s, k);
      }
    }

    /** The statements with a keyword, `pout` aside. */
    method KeywordStatement(t: Token, ghost s: Stmt, ghost k: seq<Token>)
      requires Valid() && StartsStatement(t) && t != PoutKw
      modifies this
      ensures Valid() && Left() <= old(Left()) && |ch.code| >= |old(ch.code)|
      ensures t == Keyword(s) && ReadyRest(fns, inFunction, old(View()), s, AfterKeyword(s, k), k) ==>
              DidS(fns, old(View()), View(), s, k)
      decreases Left(), 15
    {
      hide ReadyRest, DidS, AfterKeyword, CaseState, Follows;
      if t == IfKw {
        IfStatement(s, k);
      } else if t == WhileKw {
        WhileStatement(s, k);
      } else if t == ForKw {
        ForStatement(s, k);
      } else if t == LCurl {
        BlockStatement(s, k);
      } else {
        ReturnStatement(s, k);
      }
    }

    method DefaultExpression(ghost s: Stmt, ghost u: seq<Token>)
      requires Valid()
      modifies this
      ensures Valid() && Left() <= old(Left()) && |ch.code| >= |old(ch.code)|
              && (!old(p.cur).Eof? ==> Left() < old(Left()))
      ensures s.Eval? && ReadyUpTo(fns, inFunction, old(View()), s, u) ==> DidUpTo(fns, old(View()), View(), s, u)
      decreases Left(), 9
    {
      hide ReadyE, ReadyUpTo, DidE, DidUpTo, Boundary, CaseState, Follows;
      ghost var a, ok := View(), s.Eval? && ReadyUpTo(fns, inFunction, View(), s, u);
      Place();
      if ok {
        EvalReady(fns, inFunction, a, s, u);
      }
      ghost var e := if s.Eval? then s.e else Lit(Null);
      Expression(e, u);
      ghost var b := View();
      Place();
      if ok {
        EvalLast(fns, all, a, b, e, u);
      }
      Consume(Semi);
      if ok {
        EvalEnds(fns, a, b, View(), s, u);
      }
    }

    method ReturnStatement(ghost s: Stmt, ghost k: seq<Token>)
      requires Valid()
      modifies this
      ensures Valid() && Left() <= old(Left()) && |ch.code| >= |old(ch.code)|
      ensures ReadyRest(fns, inFunction, old(View()), s, AfterKeyword(s, k), k) && (s.Return? || s.Back?) ==>
              DidS(fns, old(View()), View(), s, k)
      ensures !inFunction ==> View() == old(View()).(p := old(p).(flag := true))
      decreases Left(), 14
    {
      hide Valid, ReadyE, DidE, ReadyRest, DidS, AfterKeyword;
      ghost var a, ready := View(), ReadyRest(fns, inFunction, View(), s, AfterKeyword(s, k), k);
      ghost var ok := ready && s.Return?;
      if ok {
        ReturnReady(fns, inFunction, a, s, k);
      } else if ready && s.Back? {
        BackFirst(fns, inFunction, a, s, k);
      }
      if !inFunction {
        Error();
        return;
      }
      var bare := Match(Semi);
      if bare {
        ghost var b := View();
        EmitByte(OP_RETURN);
        if ready && s.Back? {
          BackDone(fns, inFunction, a, b, View(), s, k);
        }
        return;
      }
      ghost var e := if s.Return? then s.e else Lit(Null);
      Expression(e, [Semi] + k);
      ghost var b := View();
      if ok {
        DidCurrent(fns, a, b, e, Semi, k);
      }
      Consume(Semi);
      ghost var c := View();
      EmitByte(OP_RETURN);
      if ok {
        ReturnDone(fns, a, b, c, View(), s, k);
      }
    }

    method WhileStatement(ghost s: Stmt, ghost k: seq<Token>)
      requires Valid()
      modifies this
      ensures Valid() && Left() <= old(Left()) && |ch.code| >= |old(ch.code)|
      ensures ReadyRest(fns, inFunction, old(View()), s, AfterKeyword(s, k), k) && s.While? ==>
              DidS(fns, old(View()), View(), s, k)
      decreases Left(), 14
    {
      hide Valid, ReadyGuard, DidGuard, ReadyS, ReadyRest, DidS, AfterKeyword, SizeS, SizeE, Short, PrintS;
      ghost var a, ok := View(), ReadyRest(fns, inFunction, View(), s, AfterKeyword(s, k), k) && s.While?;
      var start := |ch.code|;
      if ok {
        WhileReady(fns, inFunction, a, s, k);
      }
      ghost var c := if s.While? then s.c else Lit(Null);
      ghost var t := if s.While? then s.body else s;
      var exit;
      ghost var b;
      exit, b := Guard(c, PrintS(t, k));
      ghost var b1 := View();
      if ok {
        WhileBody(fns, inFunction, a, b, b1, s, k);
      }
      Statement(t, k);
      ghost var d := View();
      LoopEnd(start, exit);
      if ok {
        WhileSizes(fns, inFunction, a, b, b1, d, s, k);
        WhileDone(fns, inFunction, a, b, b1, d, View(), s, k);
      }
    }

    method PrintStatement(ghost s: Stmt, ghost u: seq<Token>)
      requires Valid()
      modifies this
      ensures Valid() && Left() <= old(Left()) && |ch.code| >= |old(ch.code)|
      ensures s.Pout? && ReadyUpTo(fns, inFunction, old(View()), s, u) ==> DidUpTo(fns, old(View()), View(), s, u)
      decreases Left(), 14
    {
      hide Valid, Sees, Names, PrintArgs, ReadyE, DidE, ReadyUpTo, DidUpTo, Boundary, EmittedPout, PoutLeft, PoutTail,
           Joined, Snoc;
      ghost var a, ok := View(), s.Pout? && ReadyUpTo(fns, inFunction, View(), s, u);
      ghost var es := if s.Pout? then s.es else Nil;
      if ok {
        PoutStart(fns, inFunction, a, a, s, u);
      }
      Consume(LParen);
      if ok {
        PoutStart(fns, inFunction, a, View(), s, u);
      }
      ghost var b, did, rest := PrintOperands(a, es, u);
      ghost var c := View();
      EmitByte(OP_PRINT);
      ghost var d := View();
      if ok {
        PoutStep(fns, a, b, c, d, did, rest, es, u);
        PoutClean(fns, inFunction, a, s, u);
      }
      ghost var e := ClosePout(u);
      if ok {
        PoutDone(fns, a, d, e, View(), s, u);
      }
    }

    /** `);`, where the semicolon may be missing; `e` is the state before it. */
    method ClosePout(ghost u: seq<Token>) returns (ghost e: State)
      requires Valid()
      modifies this`p
      ensures Valid() && Left() <= old(Left())
      ensures Sees(old(View()), [RParen] + u) ==>
              Sees(e, u) && SameScope(old(View()), e) && e.ch == old(ch) && e.p.pre == RParen && SemiOr(e, View())
    {
      hide Valid, Sees;
      ghost var d, ok := View(), Sees(View(), [RParen] + u);
      if ok {
        PoutTokens(d, d, u);
      }
      Consume(RParen);
      e := View();
      if ok {
        PoutTokens(d, e, u);
      }
      Consume(Semi);
    }

    /** The operands of a `pout`, all but the last printed; `b` is the state before the last. */
    method PrintOperands(ghost a: State, ghost es: Exprs, ghost u: seq<Token>)
      returns (ghost b: State, ghost did: Exprs, ghost rest: Exprs)
      requires Valid()
      modifies this
      ensures Valid() && Left() <= old(Left()) && |ch.code| >= |old(ch.code)|
      ensures PoutLeft(fns, a, old(View()), Nil, es, u) && es.Cons? ==>
                && rest.Cons? && PoutLeft(fns, a, b, did, rest, u) && Joined(did, rest) == es
                && DidE(fns, b, View(), rest.head, PoutTail(rest, u)) && p.cur != Comma
      decreases Left(), 13
    {
      hide Valid, PrintArgs, ReadyE, DidE, EmittedPout, PoutLeft, PoutTail, Joined, Snoc;
      ghost var ok := PoutLeft(fns, a, View(), Nil, es, u) && es.Cons?;
      b, did, rest := View(), Nil, es;
      JoinedNone(es);
      var more := true;
      while more
        invariant Valid() && Left() <= old(Left()) && |ch.code| >= |old(ch.code)|
        invariant ok ==> rest.Cons? && PoutLeft(fns, a, b, did, rest, u) && Joined(did, rest) == es
        invariant ok && more ==> View() == b
        invariant ok && !more ==> DidE(fns, b, View(), rest.head, PoutTail(rest, u)) && p.cur != Comma
        decreases more, Left()
      {
        b := View();
        if ok {
          PoutReady(fns, a, b, did, rest, u);
        }
        Expression(if rest.Cons? then rest.head else Lit(Null), PoutTail(rest, u));
        ghost var c := View();
        if p.cur == Comma {
          EmitByte(OP_PRINT);
        }
        more := Match(Comma);
        if ok && more {
          PoutStep(fns, a, b, c, View(), did, rest, es, u);
          did, rest, b := Snoc(did, rest.head), rest.tail, View();
        }
      }
    }

    method IfStatement(ghost s: Stmt, ghost k: seq<Token>)
      requires Valid()
      modifies this
      ensures Valid() && Left() <= old(Left()) && |ch.code| >= |old(ch.code)|
      ensures ReadyRest(fns, inFunction, old(View()), s, AfterKeyword(s, k), k) && s.If? ==>
              DidS(fns, old(View()), View(), s, k)
      decreases Left(), 14
    {
      hide Valid, ReadyGuard, DidGuard, ReadyS, ReadyRest, DidS, AfterKeyword, ReadyArms, EmittedArms, PrintS,
           PrintArms, SizeS, SizeE, SizeArms, Pending, Sees, Extend, Short, Skipped;
      ghost var a, ok := View(), ReadyRest(fns, inFunction, View(), s, AfterKeyword(s, k), k) && s.If?;
      ghost var t := if s.If? then s else If(Lit(Null), s, End);
      ghost var ks := PrintArms(t.arms, k);
      if ok {
        IfReady(fns, inFunction, a, s, k);
      }
      var fi;
      ghost var b;
      fi, b := Guard(t.c, PrintS(t.then_, ks));
      ghost var b1 := View();
      if ok {
        IfThen(fns, inFunction, a, b, b1, s, k);
      }
      Statement(t.then_, ks);
      ghost var c := View();
      var exit := ThenEnd(fi);
      ghost var c2 := View();
      if ok {
        IfPatched(fns, inFunction, a, b, b1, c, c2, s, k);
      }
      ArmStatements(t.arms, k);
      ghost var d := View();
      AddCase();
      PatchJump(exit);
      if ok {
        IfClosed(fns, inFunction, a, b, b1, c, c2, d, View(), s, k);
      }
    }

    /** The jump over the arms, to which a false condition leads. */
    method ThenEnd(fi: nat) returns (exit: nat)
      requires Valid() && fi + 1 < |ch.code|
      modifies this`ch, this`p, this`caseLen
      ensures Valid() && |ch.code| == |old(ch.code)| + 3 && exit == |old(ch.code)| + 1
      ensures ch == Patch(Extend(old(ch), Pending(OP_JMP)), fi, |old(ch.code)| + 3 - fi - 2)
      ensures p == if |old(ch.code)| + 3 - fi - 2 >= 32767 then old(p).(flag := true) else old(p)
    {
      hide Valid;
      exit := EmitJump(OP_JMP);
      PatchJump(fi);
    }

    /** What follows the first arm: `elif_statement`, then `else`. */
    method ArmStatements(ghost s: Arms, ghost k: seq<Token>)
      requires Valid()
      modifies this
      ensures Valid() && Left() <= old(Left()) && |ch.code| >= |old(ch.code)|
      ensures ReadyArms(fns, inFunction, old(View()), s, k) ==>
              EmittedArms(fns, old(View()), View(), s) && Sees(View(), k)
      decreases Left(), 13
    {
      hide ReadyArms, EmittedArms, ReadyS, DidS, ElifsLeft, JoinArms, OnlyElifs, CaseState;
      ghost var a, ok := View(), ReadyArms(fns, inFunction, View(), s, k);
      ghost var done, rest := ElifStatement(s, k);
      ghost var b := View();
      if ok {
        ElifsEnd(fns, inFunction, a, b, done, rest, s, k);
      }
      var other := Match(ElseKw);
      if other {
        ghost var b1 := View();
        if ok {
          ElseReady(fns, inFunction, b, b1, rest, k);
        }
        Statement(if rest.Else? then rest.s else Eval(Lit(Null)), k);
        if ok {
          ElseDone(fns, a, b, b1, View(), done, rest, k);
        }
      }
    }

    method ElifStatement(ghost s: Arms, ghost k: seq<Token>) returns (ghost done: Arms, ghost rest: Arms)
      requires Valid()
      modifies this
      ensures Valid() && Left() <= old(Left()) && |ch.code| >= |old(ch.code)|
      ensures ReadyArms(fns, inFunction, old(View()), s, k) ==>
                ElifsLeft(fns, inFunction, old(View()), View(), done, rest, s, k) && p.cur != ElifKw
      decreases Left(), 12
    {
      hide ReadyArms, ElifsLeft, JoinArms, CaseState;
      ghost var a, ok := View(), ReadyArms(fns, inFunction, View(), s, k);
      done, rest := End, s;
      if ok {
        ElifsStart(fns, inFunction, a, s, k);
      }
      while p.cur == ElifKw
        invariant Valid() && Left() <= old(Left()) && |ch.code| >= |old(ch.code)|
        invariant ok ==> ElifsLeft(fns, inFunction, a, View(), done, rest, s, k)
        decreases Left()
      {
        ghost var b := View();
        Advance();
        ElifArm(a, b, done, rest, s, k);
        if ok {
          ElifsNext(fns, inFunction, a, b, b, done, rest, s, k);
          done, rest := JoinArms(done, Elif(rest.c, rest.s, End)), rest.rest;
        }
      }
    }

    /** One arm, after its keyword. */
    method ElifArm(ghost a: State, ghost b: State, ghost done: Arms, ghost rest: Arms, ghost s: Arms,
                   ghost k: seq<Token>)
      requires Valid()
      modifies this
      ensures Valid() && Left() <= old(Left()) && |ch.code| >= |old(ch.code)|
      ensures ElifsLeft(fns, inFunction, a, b, done, rest, s, k) && b.p.cur == ElifKw && Skipped(b, old(View())) ==>
                rest.Elif? && ElifsLeft(fns, inFunction, a, View(), JoinArms(done, Elif(rest.c, rest.s, End)),
                  rest.rest, s, k)
      decreases Left(), 11
    {
      hide Valid, ReadyArms, ReadyGuard, DidGuard, ReadyS, DidS, ElifsLeft, PrintS, PrintArms, JoinArms, Sees, Skipped;
      ghost var b1 := View();
      ghost var ok := ElifsLeft(fns, inFunction, a, b, done, rest, s, k) && b.p.cur == ElifKw && Skipped(b, b1);
      ghost var t := if rest.Elif? then rest else Elif(Lit(Null), Eval(Lit(Null)), End);
      ghost var ks := PrintArms(t.rest, k);
      if ok {
        ElifsNext(fns, inFunction, a, b, b1, done, rest, s, k);
      }
      var exit;
      ghost var c;
      exit, c := Guard(t.c, PrintS(t.s, ks));
      ghost var c1 := View();
      if ok {
        ElifBody(fns, inFunction, b, b1, c, c1, rest, k);
      }
      Statement(t.s, ks);
      ghost var d := View();
      ElifEnd(exit);
      if ok {
        ElifPatched(fns, inFunction, a, b, b1, c, c1, d, View(), done, rest, s, k);
      }
    }

    /** The jump to the chain's end, by its number among the `cases`, and the patch of the arm's exit. */
    method ElifEnd(exit: nat)
      requires Valid() && exit + 1 < |ch.code|
      modifies this`ch, this`p, this`caseLen
      ensures Valid() && |ch.code| == |old(ch.code)| + 3
      ensures ch == Patch(Extend(old(ch), [OP_JMPL] + Short(|old(ch.cases)|)), exit, |old(ch.code)| + 3 - exit - 2)
      ensures p == if |old(ch.code)| + 3 - exit - 2 >= 32767 then old(p).(flag := true) else old(p)
    {
      hide Valid;
      ghost var c := ch;
      EmitByte(OP_JMPL);
      EmitBytes(|ch.cases| / 256 % 256, |ch.cases| % 256);
      assert c.code + [OP_JMPL] + Short(|c.cases|) == c.code + ([OP_JMPL] + Short(|c.cases|));
      PatchJump(exit);
    }

    method BlockStatement(ghost s: Stmt, ghost k: seq<Token>)
      requires Valid()
      modifies this
      ensures Valid() && Left() <= old(Left()) && |ch.code| >= |old(ch.code)|
      ensures ReadyRest(fns, inFunction, old(View()), s, AfterKeyword(s, k), k) && s.Block? ==>
              DidS(fns, old(View()), View(), s, k)
      decreases Left(), 14
    {
      hide ReadyRest, DidS, AfterKeyword, ReadyD, EmittedD, Closed, CaseState;
      ghost var a, ok := View(), ReadyRest(fns, inFunction, View(), s, AfterKeyword(s, k), k) && s.Block?;
      BeginScope();
      ghost var a0 := View();
      if ok {
        BlockOpens(fns, inFunction, a, a0, s, k);
        BlockReady(fns, inFunction, a, a0, s, k);
      }
      ParseBlock(if s.Block? then s.ds else Done, k);
      ghost var b := View();
      if ok {
        BlockScope(fns, a, a0, b, s);
      }
      EndScope();
      if ok {
        BlockDone(fns, inFunction, a, a0, b, View(), s, k);
      }
    }

    method ParseBlock(ghost ds: Decls, ghost k: seq<Token>)
      requires Valid()
      modifies this
      ensures Valid() && Left() <= old(Left()) && |ch.code| >= |old(ch.code)|
      ensures ReadyD(fns, inFunction, old(View()), ds, k) ==> EmittedD(fns, old(View()), View(), ds) && Sees(View(), k)
      decreases Left(), 12
    {
      hide ReadyD, EmittedD, ReadyDecl, DidDecl, PrintD, JoinD, CaseState;
      ghost var a, ok := View(), ReadyD(fns, inFunction, View(), ds, k);
      ghost var done, rest := Done, ds;
      if ok {
        DStart(fns, a, ds);
      }
      while p.cur != RCurl && !p.cur.Eof?
        invariant Valid() && Left() <= old(Left()) && |ch.code| >= |old(ch.code)|
        invariant ok ==>
                  EmittedD(fns, a, View(), done) && JoinD(done, rest) == ds && ReadyD(fns, inFunction, View(), rest, k)
        decreases Left()
      {
        ghost var b := View();
        if ok {
          DReady(fns, inFunction, b, rest, k);
        }
        ghost var t := if rest.Then? then rest else Then(Do(Eval(Lit(Null))), Done);
        Declaration(t.d, PrintD(t.rest, [RCurl] + k));
        if ok {
          DStep(fns, inFunction, a, b, View(), done, rest, ds, k);
          done, rest := JoinD(done, Then(t.d, Done)), t.rest;
        }
      }
      ghost var b := View();
      Consume(RCurl);
      if ok {
        DEnd(fns, inFunction, a, b, View(), done, rest, ds, k);
      }
    }

    /** `declaration`, for a variable or a statement. If `torn`, the tokens `ts` stand where a
        semicolon should: the statement is compiled all the same, and the parser resumes behind the
        next boundary. */
    method Declaration(ghost d: Decl, ghost ts: seq<Token>, ghost torn: bool := false)
      requires Valid()
      modifies this
      ensures Valid() && Left() <= old(Left()) && |ch.code| >= |old(ch.code)|
              && (!old(p.cur).Eof? ==> Left() < old(Left()))
      ensures !torn && ReadyDecl(fns, inFunction, old(View()), d, ts) ==> DidDecl(fns, old(View()), View(), d, ts)
      ensures torn && d.Do? && ReadyTorn(fns, inFunction, old(View()), d.s, ts) ==>
              DidS(fns, old(View()), View(), d.s, Resume(ts))
      decreases Left(), 11
    {
      hide ReadyDecl, ReadyTorn, DidUpTo, DidDecl, ReadyVar, ReadyS, DidS, EmittedD, CaseState, Follows, Resume;
      ghost var a, ok := View(), !torn && ReadyDecl(fns, inFunction, View(), d, ts);
      ghost var cut := torn && d.Do? && ReadyTorn(fns, inFunction, View(), d.s, ts);
      if ok {
        DeclFirst(fns, inFunction, a, d, ts);
      }
      if cut {
        TornFirst(fns, inFunction, a, a, d.s, ts);
      }
      var isVar := Match(VarKw);
      if isVar {
        ghost var b := View();
        if ok {
          DeclVar(fns, inFunction, a, b, d, ts);
        }
        VarDec(if d.Var? then d.x else 0, if d.Var? then d.e else Lit(Null), ts);
        if ok {
          DeclVarDone(fns, a, b, View(), d, ts);
        }
      } else {
        if ok {
          DeclDo(fns, inFunction, a, d, ts);
        }
        Statement(if d.Do? then d.s else Eval(Lit(Null)), ts, torn);
        if ok {
          DeclDoDone(fns, a, View(), d, ts);
        }
      }
      Recover(a, d, ts, cut);
    }

    /** The end of `declaration`: if there was an error, `synchronize`. */
    method Recover(ghost a: State, ghost d: Decl, ghost ts: seq<Token>, ghost cut: bool)
      requires Valid()
      requires cut ==>
                 d.Do? && ReadyTorn(fns, inFunction, a, d.s, ts) && DidUpTo(fns, a, View(), d.s, ts)
      modifies this`p
      ensures Valid() && Left() <= old(Left())
      ensures !old(p.flag) ==> View() == old(View())
      ensures cut ==> DidS(fns, a, View(), d.s, Resume(ts))
    {
      hide ReadyTorn, DidUpTo, DidS, CaseState, Follows, Resume;
      ghost var b := View();
      Place();
      if cut {
        TornFlag(fns, inFunction, a, b, d.s, ts);
      }
      if p.flag {
        ghost var n := Synchronize();
        if cut {
          Recovered(fns, a, b, View(), n, d.s, ts);
        }
      }
    }

    /** Clears the error flag and skips tokens until the one before is a statement boundary,
        and no further. */
    method Synchronize() returns (ghost skipped: nat)
      requires Valid()
      modifies this`p
      ensures Valid() && Left() <= old(Left()) && !p.flag && p.crashed == old(p.crashed)
      ensures p.cur.Eof? || Boundary(p.pre)
      ensures SkippedTo(old(p), p, skipped)
    {
      hide Boundary, SkippedTo, CaseState;
      p := p.(flag := false);
      skipped := 0;
      ghost var was := old(p);
      NoneSkipped(was, p);
      while !p.cur.Eof?
        invariant Valid() && Left() <= old(Left()) && !p.flag && p.crashed == old(p.crashed)
        invariant SkippedTo(was, p, skipped)
        decreases Left()
      {
        if Boundary(p.pre) {
          return;
        }
        ghost var q := p;
        Advance();
        OneSkipped(was, q, p, skipped);
        skipped := skipped + 1;
      }
    }

    // -------------------------------------------------------------------- `for`

    method ForStatement(ghost s: Stmt, ghost k: seq<Token>)
      requires Valid()
      modifies this
      ensures Valid() && Left() <= old(Left()) && |ch.code| >= |old(ch.code)|
      ensures ReadyRest(fns, inFunction, old(View()), s, AfterKeyword(s, k), k) && s.For? ==>
              DidS(fns, old(View()), View(), s, k)
      decreases Left(), 14
    {
      hide Valid, ReadyRest, ForBegun, Opened, ReadyS, DidS, AfterKeyword, Closed, ForChunk, Extend, Short, EmittedD,
           EmittedCond, EmittedInc;
      ghost var a, ok := View(), ReadyRest(fns, inFunction, View(), s, AfterKeyword(s, k), k) && s.For?;
      var start, exit;
      ghost var a0, i1, b;
      start, exit, a0, i1, b := ForHeader(s, k);
      ghost var c := View();
      Statement(if s.For? then s.body else s, k);
      ghost var d := View();
      EmitLoop(start);
      ghost var l := View();
      if exit != -1 {
        PatchJump(exit);
      }
      ghost var f := View();
      if ok {
        ForParts(fns, inFunction, a, a0, i1, b, c, s, k, start, exit);
        ForJumps(fns, inFunction, a, a0, i1, b, c, d, l, f, s, k, start, exit);
      }
      EndScope();
      if ok {
        ForDone(fns, inFunction, a, a0, i1, b, c, d, f, View(), s, k);
      }
    }

    /** A `for` up to its body: where the body's back jump goes, and the exit jump's operand, or
        -1. The states in between are returned for the proof. */
    method ForHeader(ghost s: Stmt, ghost k: seq<Token>)
      returns (start: nat, exit: int, ghost a0: State, ghost i1: State, ghost b: State)
      requires Valid()
      modifies this
      ensures Valid() && Left() <= old(Left()) && |ch.code| >= |old(ch.code)|
      ensures start <= |ch.code| && (exit == -1 || 0 <= exit < exit + 1 < |ch.code|)
      ensures ReadyRest(fns, inFunction, old(View()), s, AfterKeyword(s, k), k) && s.For? ==>
                ForBegun(fns, inFunction, old(View()), a0, i1, b, View(), s, k, start, exit)
                  && ReadyS(fns, inFunction, View(), s.body, k)
      decreases Left(), 13
    {
      hide Valid, ReadyRest, ReadyInit, CanEmitOpt, EmittedD, EmittedCond, EmittedInc, ReadyS, AfterKeyword,
        ForHead, PrintS, PrintOpt, InitDecls, SizeInc, SizeCond, Opened;
      ghost var a, ok := View(), ReadyRest(fns, inFunction, View(), s, AfterKeyword(s, k), k) && s.For?;
      ghost var t := if s.For? then s else For(NoVar, NoExpr, NoExpr, s);
      BeginScope();
      a0 := View();
      if ok {
        ForOpens(fns, inFunction, a, a0, s, k);
      }
      Consume(LParen);
      ghost var a1 := View();
      if ok {
        ForStart(fns, inFunction, a, a0, a1, s, k);
      }
      ForInit(t.init, ForHead(t, k));
      i1 := View();
      if ok {
        InitDone(fns, a0, a1, i1, s.init);
        ForCondReady(fns, inFunction, a, a0, i1, s, k);
        ForHeadIs(s, k);
      }
      start := |ch.code|;
      exit := ForCond(t.cond, PrintOpt(t.inc, [RParen] + PrintS(t.body, k)));
      b := View();
      if ok {
        ForIncReady(fns, inFunction, a, a0, i1, b, s, k);
        ForIncFits(fns, inFunction, a, a0, i1, b, s, k);
      }
      start := ForInc(t.inc, PrintS(t.body, k), start);
      if ok {
        ForBodyReady(fns, inFunction, a, a0, i1, b, View(), s, k);
      }
    }

    method ForInit(ghost i: OptVar, ghost ts: seq<Token>)
      requires Valid()
      modifies this
      ensures Valid() && Left() <= old(Left()) && |ch.code| >= |old(ch.code)|
      ensures ReadyInit(fns, old(View()), i, ts) ==>
              EmittedD(fns, old(View()), View(), InitDecls(i)) && Sees(View(), ts)
      decreases Left(), 8
    {
      hide ReadyInit, EmittedD, ReadyVar, CaseState;
      ghost var a, ok := View(), ReadyInit(fns, View(), i, ts);
      if ok {
        InitFirst(fns, a, a, i, ts);
      }
      var none := Match(Semi);
      if none {
        if ok {
          InitFirst(fns, a, View(), i, ts);
        }
        return;
      }
      var isVar := Match(VarKw);
      if isVar {
        ghost var b := View();
        if ok {
          InitFirst(fns, a, b, i, ts);
        }
        VarDec(if i.SomeVar? then i.x else 0, if i.SomeVar? then i.e else Lit(Null), ts);
        if ok {
          InitDone(fns, a, b, View(), i);
        }
      } else {
        Id(Plain(Lit(Null)), ts);
      }
    }

    /** The condition of a `for`; the address of its exit jump's operand, or -1. */
    method ForCond(ghost c: OptExpr, ghost ts: seq<Token>) returns (exit: int)
      requires Valid()
      modifies this
      ensures Valid() && Left() <= old(Left()) && |ch.code| >= |old(ch.code)|
      ensures exit == -1 || 0 <= exit < exit + 1 < |ch.code|
      ensures Sees(old(View()), PrintOpt(c, [Semi] + ts)) && CanEmitOpt(fns, old(View()), c) ==>
                EmittedCond(fns, old(View()), View(), c) && Sees(View(), ts) && exit == if c.NoExpr? then -1
                  else |ch.code| - 2
      decreases Left(), 8
    {
      hide ReadyE, DidE, CanEmitOpt, EmittedCond, CaseState;
      ghost var a, ok := View(), Sees(View(), PrintOpt(c, [Semi] + ts)) && CanEmitOpt(fns, View(), c);
      exit := -1;
      if ok {
        OptFirst(a, c, Semi, ts);
        OptReady(fns, a, a, c, Semi, ts);
      }
      var none := Match(Semi);
      if none {
        if ok {
          OptReady(fns, a, View(), c, Semi, ts);
          NoCond(fns, a, View());
        }
        return;
      }
      ghost var e := if c.SomeExpr? then c.e else Lit(Null);
      Expression(e, [Semi] + ts);
      ghost var b := View();
      if ok {
        DidCurrent(fns, a, b, e, Semi, ts);
      }
      Consume(Semi);
      ghost var b1 := View();
      exit := EmitJump(OP_JMPF);
      if ok {
        CondDone(fns, a, b, b1, View(), e, ts);
      }
    }

    /** The increment of a `for` whose condition starts at `start`; where its body's back jump
        goes. */
    method ForInc(ghost n: OptExpr, ghost ts: seq<Token>, start: nat) returns (target: nat)
      requires Valid() && start <= |ch.code|
      modifies this
      ensures Valid() && Left() <= old(Left()) && |ch.code| >= |old(ch.code)| && target <= |ch.code|
      ensures var back := |old(ch.code)| - start;
              Sees(old(View()), PrintOpt(n, [RParen] + ts)) && CanEmitOpt(fns, old(View()), n)
                && back + SizeInc(n) < 32767 ==>
                EmittedInc(fns, old(View()), View(), n, back) && Sees(View(), ts) && target == if n.NoExpr? then start
                  else |old(ch.code)| + 3
      decreases Left(), 8
    {
      hide Valid, Print, PrintOpt, ReadyE, DidE, CanEmitOpt, EmittedInc, Sees, Short;
      ghost var a, back := View(), |ch.code| - start;
      ghost var ok := Sees(a, PrintOpt(n, [RParen] + ts)) && CanEmitOpt(fns, a, n) && back + SizeInc(n) < 32767;
      target := start;
      if ok {
        OptFirst(a, n, RParen, ts);
      }
      var none := Match(RParen);
      if none {
        if ok {
          OptReady(fns, a, View(), n, RParen, ts);
          NoCond(fns, a, View());
        }
        return;
      }
      var body := EmitJump(OP_JMP);
      target := |ch.code|;
      if ok {
        IncReady(fns, a, View(), n, ts);
      }
      Increment(a, n, ts, start, body);
    }

    /** The increment itself, after its forward jump: the value is dropped, and it jumps back to
        the condition. */
    method Increment(ghost a: State, ghost n: OptExpr, ghost ts: seq<Token>, start: nat, body: nat)
      requires Valid() && start <= |ch.code| && body + 1 < |ch.code|
      modifies this
      ensures Valid() && Left() <= old(Left()) && |ch.code| >= |old(ch.code)|
      ensures n.SomeExpr? && start <= |a.ch.code| && old(View()) == a.(ch := Extend(a.ch, Pending(OP_JMP)))
              && body == |a.ch.code| + 1
              && ReadyE(fns, old(View()), n.e, PREC_ASSIGNMENT, [RParen] + ts)
                   && |a.ch.code| - start + SizeInc(n) < 32767 ==>
                EmittedInc(fns, a, View(), n, |a.ch.code| - start) && Sees(View(), ts)
      decreases Left(), 7
    {
      hide Valid, Print, PrintOpt, ReadyE, DidE, EmittedInc, Sees, Short;
      ghost var a1 := View();
      ghost var ok := n.SomeExpr? && start <= |a.ch.code| && a1 == a.(ch := Extend(a.ch, Pending(OP_JMP)))
        && body == |a.ch.code| + 1
                      && ReadyE(fns, a1, n.e, PREC_ASSIGNMENT, [RParen] + ts)
                           && |a.ch.code| - start + SizeInc(n) < 32767;
      ghost var e := if n.SomeExpr? then n.e else Lit(Null);
      Expression(e, [RParen] + ts);
      ghost var b := View();
      EmitByte(OP_POP);
      ghost var b1 := View();
      if ok {
        DidCurrent(fns, a1, b, e, RParen, ts);
      }
      Consume(RParen);
      LoopEnd(start, body);
      if ok {
        IncSizes(fns, a, a1, b, e, ts);
        IncDone(fns, a, a1, b, b1, View(), e, ts, |a.ch.code| - start);
      }
    }

    // ---------------------------------------------------------------- functions

    /** The end of a function declaration in the enclosing compiler: its own fields come back,
        and the closure is stored as object `obj`. */
    method Closing(latest: Current, ch: Chunk, caseLen: nat, spilled: bool, obj: nat, fn: nat)
      requires Valid() && CaseState(ch.cases, |ch.code|, caseLen, spilled)
      modifies this
      ensures Valid() && p == old(p) && scope == old(scope) && locals == old(locals)
      ensures this.ch == Chunk(ch.code + [OP_CLOSURE, |ch.consts| % 256] + [obj % 256], ch.consts + [Closure(fn)],
              ch.cases)
    {
      hide CaseState;
      this.latest, this.ch, this.caseLen, this.spilled := latest, ch, caseLen, spilled;
      var n := AddConstant(Closure(fn));
      EmitBytes(OP_CLOSURE, n % 256);
      EmitByte(obj % 256);
    }

    /** One parameter: `func_var`. */
    method FuncVar()
      requires Valid()
      modifies this
      ensures Valid() && Left() <= old(Left()) && |ch.code| >= |old(ch.code)|
      ensures var x := NameOf(old(p.cur));
              old(p.cur.Id? && Clean(View()) && 0 < scope < 256 && MayDeclare(locals, scope, x)
                && Newest(Names(locals + [Variable(x, scope)]), x) == |locals|) ==>
                && Clean(View()) && scope == old(scope) && locals == old(locals) + [Variable(x, scope)]
                && ch == Extend(old(ch), [OP_SET_LOCAL_PARAM, |old(locals)|]) && [p.cur] + p.rest == old(p.rest)
      ensures old(p.flag) ==> p.flag
    {
      hide Clashes, Valid;
      var x, glob := NewVariable();
      var store := OP_SET_FUNC_VAR;
      if glob == -1 {
        glob := ResolveLocal(x);
        store := OP_SET_LOCAL_PARAM;
      }
      EmitBytes(store, glob % 256);
    }

    method Parameters(ghost a: State, ghost ps: seq<Name>, ghost k: seq<Token>) returns (arity: nat)
      requires Valid()
      modifies this
      ensures Valid() && Left() <= old(Left()) && |ch.code| >= |old(ch.code)|
      ensures ParamsLeft(a, old(View()), ps, 0, k) ==>
              ParamsDone(a, View(), ps, |ps|) && Sees(View(), [RParen] + k) && arity == |ps|
    {
      hide Valid, ParamsLeft, ParamsDone, MayDeclare;
      ghost var ok := ParamsLeft(a, View(), ps, 0, k);
      arity := 0;
      if ok {
        ParamsNone(a, View(), ps, k);
      }
      if p.cur != RParen {
        var more := true;
        while more
          invariant Valid() && Left() <= old(Left()) && |ch.code| >= |old(ch.code)|
          invariant ok && more ==> ParamsLeft(a, View(), ps, arity, k) && arity < |ps|
          invariant ok && !more ==> ParamsDone(a, View(), ps, |ps|) && Sees(View(), [RParen] + k) && arity == |ps|
          decreases more, Left()
        {
          arity := arity + 1;
          more := Parameter(a, ps, arity, k);
        }
      }
    }

    /** Parameter number `n`, and whether a comma follows. */
    method Parameter(ghost a: State, ghost ps: seq<Name>, n: nat, ghost k: seq<Token>) returns (more: bool)
      requires Valid() && n > 0
      modifies this
      ensures Valid() && Left() <= old(Left()) && |ch.code| >= |old(ch.code)| && (more ==> Left() < old(Left()))
      ensures ParamsLeft(a, old(View()), ps, n - 1, k) && n <= |ps| ==>
                && (more ==> ParamsLeft(a, View(), ps, n, k) && n < |ps|)
                && (!more ==> ParamsDone(a, View(), ps, |ps|) && Sees(View(), [RParen] + k) && n == |ps|)
      ensures n > 255 ==> p.flag
    {
      hide Valid, ParamsLeft, ParamsDone, MayDeclare;
      ghost var b, ok := View(), ParamsLeft(a, View(), ps, n - 1, k) && n <= |ps|;
      if ok {
        ParamFacts(a, b, ps, n - 1, k);
      }
      if n > 255 {
        Error();
      }
      FuncVar();
      ghost var c := View();
      more := Match(Comma);
      if ok {
        ParamDone(a, b, c, View(), ps, n - 1, k);
      }
    }

    /** The name after the keyword of a function. */
    method FunctionName() returns (x: Name)
      requires Valid()
      modifies this`p
      ensures Valid() && Left() <= old(Left())
      ensures old(p.cur).Id? ==> x == old(p.cur).name && p.flag == old(p.flag) && p.crashed == old(p.crashed)
                                 && [p.cur] + p.rest == old(p.rest)
      ensures !old(p.cur).Id? ==> p == old(p).(flag := true)
    {
      hide CaseState;
      if p.cur.Id? {
        Advance();
      } else {
        Error();
      }
      x := NameOf(p.pre);
    }

    /** A function's parameters and body, its final return, and the pops after it. */
    method FunctionCode(ghost d: FunDef, ghost k: seq<Token>) returns (arity: nat)
      requires Valid()
      modifies this
      ensures Valid() && Left() <= old(Left()) && |ch.code| >= |old(ch.code)|
      ensures ReadyFn(fns, old(View()), d, k) && inFunction ==> DidFn(fns, View(), d, k) && arity == |d.params|
    {
      hide Valid, ReadyFn, DidFn, ParamsDone, ReadyD, EmittedD, PrintD, Closed, Sees;
      ghost var a, ok := View(), ReadyFn(fns, View(), d, k) && inFunction;
      ghost var a0, b;
      arity, a0, b := FunctionHead(d, k);
      ghost var c := View();
      if ok {
        BodyReady(fns, a, a0, b, c, d, k);
      }
      ParseBlock(d.body, k);
      ghost var e := View();
      EmitByte(OP_RETURN);
      ghost var f := View();
      if ok {
        BodyScope(fns, a0, b, c, e, d);
      }
      EndScope();
      if ok {
        BodyDone(fns, a, a0, b, c, e, f, View(), d, k);
      }
    }

    /** The scope, the parameters and the brace before a body; `b` is the state after the
        parameters. */
    method FunctionHead(ghost d: FunDef, ghost k: seq<Token>) returns (arity: nat, ghost a0: State, ghost b: State)
      requires Valid()
      modifies this
      ensures Valid() && Left() <= old(Left()) && |ch.code| >= |old(ch.code)|
      ensures ReadyFn(fns, old(View()), d, k) ==>
                && a0 == old(View()).(scope := old(scope) + 1) && a0.scope < 256
                && ParamsDone(a0, b, d.params, |d.params|) && SameScope(b, View()) && ch == b.ch
                && Sees(View(), PrintD(d.body, [RCurl] + k)) && arity == |d.params|
    {
      hide Valid, ReadyFn, ParamsLeft, ParamsDone, PrintD, PrintParams, Sees, FnCode, ResolvesD, Names;
      ghost var a, ok := View(), ReadyFn(fns, View(), d, k);
      ghost var ks := PrintD(d.body, [RCurl] + k);
      BeginScope();
      a0 := View();
      if ok {
        ParamsStart(fns, a, a0, a0, d, k);
      }
      Consume(LParen);
      if ok {
        ParamsStart(fns, a, a0, View(), d, k);
      }
      arity := Parameters(a0, d.params, [LCurl] + ks);
      b := View();
      if ok {
        ParamsClean(a0, b, d.params);
      }
      BodyBrace(ks);
    }

    method BodyBrace(ghost ts: seq<Token>)
      requires Valid()
      modifies this
      ensures Valid() && Left() <= old(Left()) && |ch.code| >= |old(ch.code)|
      ensures Sees(old(View()), [RParen] + ([LCurl] + ts)) ==>
              Sees(View(), ts) && SameScope(old(View()), View()) && ch == old(ch)
    {
      hide Valid;
      ghost var b, ok := View(), Sees(View(), [RParen] + ([LCurl] + ts));
      if ok {
        TwoTokens(b, b, b, ts);
      }
      Consume(RParen);
      ghost var b1 := View();
      if ok {
        TwoTokens(b, b1, b1, ts);
      }
      Consume(LCurl);
      if ok {
        TwoTokens(b, b1, View(), ts);
      }
    }
  }

  // ----------------------------------------------------------------- scripts

  /** How a compilation ends. `Crashed` is an access outside an array or through NULL. */
  datatype Ending = Compiled | Errors | Exited | Crashed

  /** `func_declaration`, after the keyword. The table of functions is shared by all compilers
      of a script; each reads it as the value `fns`, so the script goes on with the record
      `next`. A second declaration of a name ends the program, and so does a name too many. */
  method FuncDeclaration(c: Compiler, lookup: T.Table, ghost natives: seq<Name>, obj: nat, fn: nat, blank: Name,
                         ghost f: Name, ghost d: FunDef, ghost k: seq<Token>)
    returns (next: Compiler, g: Machine.Function, end: Ending)
    requires c.Valid() && lookup.Valid() && lookup.Counted() && lookup.records.Length == T.INIT_SIZE
    requires Knows(lookup.records[..], c.fns, natives)
    modifies c, lookup, lookup.records
    ensures fresh(next) && next.Valid() && next.Left() <= old(c.Left()) && !next.inFunction
    ensures lookup.Valid() && lookup.Counted()
    ensures end == Compiled ==> lookup.count == old(lookup.count) + 1 && Knows(lookup.records[..], next.fns, natives)
    ensures old(c.p.cur).Id? ==> (end == Exited <==> old(c.p.cur).name in natives || old(c.p.cur).name in c.fns)
    ensures ReadyFun(c.fns, old(c.View()), obj, f, d, k) && f !in natives ==>
              if old(lookup.count) >= T.Capacity(T.INIT_SIZE) || BodySpills(d) then end == Crashed
              else end == Compiled && next.fns == c.fns[f := obj]
                     && DidFun(next.fns, old(c.View()), next.View(), obj, fn, blank, d, g, k)
  {
    hide ReadyFn, DidFn, ReadyFun, DidFun, Knows, T.Good, T.Total, T.PowerOfTwo, CaseState, BodySpills;
    ghost var a := c.View();
    ghost var ok := ReadyFun(c.fns, a, obj, f, d, k) && f !in natives;
    if ok {
      FunStarts(c.fns, a, a, a, obj, f, d, k);
    }
    var x := c.FunctionName();
    next := new Compiler(c.fns, c.p, c.scope, false, c.locals);
    g := Machine.Function(0, Chunk([], [], []));
    var was := Declare(lookup, c.fns, natives, x, obj);
    if was != Fresh {
      end := if was == Duplicate then Exited else Crashed;
      return;
    }
    if |c.locals| >= LOCAL_COUNT {
      end := Crashed;
      return;
    }
    var spilled;
    next, g, spilled := FunctionBody(c, a, obj, fn, blank, x, f, d, k, ok);
    end := if spilled then Crashed else Compiled;
  }

  /** `func_body`, and the end of the function's compiler. */
  method FunctionBody(c: Compiler, ghost a: State, obj: nat, fn: nat, blank: Name, x: Name, ghost f: Name,
                      ghost d: FunDef, ghost k: seq<Token>, ghost ok: bool)
    returns (next: Compiler, g: Machine.Function, spilled: bool)
    requires c.Valid() && |c.locals| < LOCAL_COUNT
    requires ok ==> ReadyFun(c.fns, a, obj, f, d, k) && x == f && Skipped(a, c.View()) && c.scope == 0
                    && c.locals == a.locals && c.ch == a.ch
    ensures fresh(next) && next.Valid() && next.Left() <= c.Left() && !next.inFunction && next.fns == c.fns[x := obj]
    ensures ok ==> DidFun(next.fns, a, next.View(), obj, fn, blank, d, g, k) && spilled == BodySpills(d)
  {
    hide ReadyFn, DidFn, ReadyFun, DidFun, CaseState, BodySpills, Follows;
    var table := c.fns[x := obj];
    var co := new Compiler(table, c.p, c.scope, true, []);
    if ok {
      FunStarts(c.fns, a, c.View(), co.View(), obj, f, d, k);
    }
    var arity := co.FunctionCode(d, k);
    g := Machine.Function(arity, co.ch);
    next := new Compiler(table, co.p, c.scope, false, c.locals + [Variable(blank, 0)]);
    next.Closing(c.latest, c.ch, c.caseLen, c.spilled, obj, fn);
    spilled := co.spilled;
    if ok {
      FnSpills(table, co.View(), co.caseLen, co.spilled, d, k);
      FunEnds(table, a, co.View(), next.View(), obj, fn, blank, d, g, k);
    }
  }

  lemma FnSpills(fns: Fns, b: State, len: nat, spilled: bool, d: FunDef, k: seq<Token>)
    requires DidFn(fns, b, d, k) && CaseState(b.ch.cases, |b.ch.code|, len, spilled)
    ensures spilled == BodySpills(d)
  {
    FnCases(d, fns, b.ch);
    hide FnCode, Spills, CasesD;
  }

  /** No function is named like a native. */
  predicate NewNames(items: seq<Item>, natives: seq<Name>) {
    forall i :: 0 <= i < |items| && items[i].Fun? ==> items[i].f !in natives
  }

  /** Natives and functions together fit into the table that they are declared in, which cannot
      grow, and no `if` ends behind the array of its chunk. */
  predicate Bearable(items: seq<Item>, natives: nat) {
    natives + FunCount(items) <= T.Capacity(T.INIT_SIZE) && !Overruns(items)
  }

  /** `compile_path`: a whole script. It goes through if and only if it is bearable. */
  method Compile(tokens: seq<Token>, natives: seq<Name>, blank: Name, ghost items: seq<Item>)
    returns (end: Ending, script: Chunk, funcs: seq<Machine.Function>)
    requires tokens != [] && tokens[|tokens| - 1].Eof? && forall i :: 0 <= i < |tokens| - 1 ==> !tokens[i].Eof?
    requires NoRepeats(natives)
    ensures tokens == PrintItems(items) && ScriptFits(items, blank, |natives|) && NewNames(items, natives) ==>
              if Bearable(items, |natives|)
              then end == Compiled && LaidScript(items, blank, |natives|, script, funcs)
              else end == Crashed
  {
    hide AtItem, ScriptFits, LaidScript, PrintItems, Knows, T.Good, T.Total, T.PowerOfTwo, FunCount, NewNames,
         CaseState;
    var obj := |natives|;
    ghost var ok := tokens == PrintItems(items) && ScriptFits(items, blank, obj) && NewNames(items, natives);
    var c := new Compiler(map[], Parser(tokens[0], Eof, tokens[1..], false, false), 0, false, [Variable(blank, 0)]);
    script, funcs, end := c.ch, [], Crashed;
    var lookup, room := NativeTable(natives);
    if !room {
      return;
    }
    ghost var i := 0;
    assert [tokens[0]] + tokens[1..] == tokens;
    if ok {
      ScriptStart(items, blank, obj, c.View());
    }
    while c.p.cur != Eof
      invariant fresh(c) && c.Valid() && !c.inFunction
      invariant fresh(lookup) && fresh(lookup.records) && lookup.Valid() && lookup.Counted()
      invariant lookup.records.Length == T.INIT_SIZE && Knows(lookup.records[..], c.fns, natives)
      invariant lookup.count == obj + |funcs| <= T.Capacity(T.INIT_SIZE)
      invariant ok ==> AtItem(items, i, blank, obj, c.fns, c.View(), funcs) && BodiesFit(items, i)
      decreases c.Left()
    {
      c, funcs, end := ScriptItem(c, lookup, natives, obj, funcs, blank, items, i, ok);
      if end != Compiled {
        return;
      }
      i := i + 1;
    }
    ghost var a := c.View();
    if ok {
      ItemFirst(items, i, blank, obj, c.fns, a, a, funcs);
      ItemClean(items, i, blank, obj, c.fns, a, funcs);
    }
    c.Advance();
    c.EmitByte(OP_RETURN);
    end, script := if c.p.crashed || c.spilled then Crashed else if c.p.flag then Errors else Compiled, c.ch;
    if ok {
      ScriptDone(items, blank, obj, c.fns, a, c.View(), funcs);
      ScriptCount(items, blank, obj, script, funcs);
      ScriptSpills(items, blank, obj, c.View(), c.caseLen, c.spilled, funcs);
    }
  }

  /** One turn of the loop: an item of the script, and `synchronize` after an error in it. */
  method ScriptItem(c: Compiler, lookup: T.Table, ghost natives: seq<Name>, obj: nat, funcs: seq<Machine.Function>,
                    blank: Name, ghost items: seq<Item>, ghost i: nat, ghost ok: bool)
    returns (next: Compiler, funcs': seq<Machine.Function>, end: Ending)
    requires c.Valid() && !c.inFunction && c.p.cur != Eof && lookup.Valid() && lookup.Counted()
    requires lookup.records.Length == T.INIT_SIZE && Knows(lookup.records[..], c.fns, natives)
    requires obj == |natives| && lookup.count == obj + |funcs| <= T.Capacity(T.INIT_SIZE)
    requires ok ==>
             AtItem(items, i, blank, obj, c.fns, c.View(), funcs) && NewNames(items, natives) && BodiesFit(items, i)
    modifies c, lookup, lookup.records
    ensures (next == c || fresh(next)) && next.Valid() && !next.inFunction && next.Left() < old(c.Left())
    ensures lookup.Valid() && lookup.Counted()
    ensures end == Compiled ==> Knows(lookup.records[..], next.fns, natives)
                                && lookup.count == obj + |funcs'| <= T.Capacity(T.INIT_SIZE)
    ensures ok && end == Compiled ==>
              AtItem(items, i + 1, blank, obj, next.fns, next.View(), funcs') && BodiesFit(items, i + 1)
    ensures ok && end != Compiled ==> end == Crashed && !Bearable(items, obj)
  {
    hide DidDecl, PrintS, PrintFn, AtItem, PrintItems, ReadyFun, DidS, ReadyS, ReadyTorn, Resume, Upcoming, Knows,
         T.Good, T.Total, T.PowerOfTwo,
         FunCount, NewNames, Newest, T.Capacity, CaseState;
    ghost var a := c.View();
    if ok {
      ItemFirst(items, i, blank, obj, c.fns, a, a, funcs);
      ItemClean(items, i, blank, obj, c.fns, a, funcs);
    }
    var isFn := c.Match(FuncKw);
    if isFn {
      if ok {
        FunReady(items, i, blank, obj, c.fns, a, c.View(), funcs);
      }
      next, funcs', end := FunctionItem(c, lookup, natives, obj, funcs, blank, items, i, a, ok);
    } else {
      ghost var s := if i < |items| && items[i].Stat? then items[i].s else Eval(Lit(Null));
      ghost var torn := ok && items[i].Stat? && items[i].end.Torn?;
      ghost var u := if ok then Upcoming(items, i) else [];
      c.Declaration(Do(s), u, torn);
      next, funcs', end := c, funcs, Compiled;
      if ok {
        StatEnds(items, i, blank, obj, c.fns, a, c.View(), funcs);
        StatDone(items, i, blank, obj, c.fns, a, c.View(), funcs);
      }
    }
  }

  method FunctionItem(c: Compiler, lookup: T.Table, ghost natives: seq<Name>, obj: nat, funcs: seq<Machine.Function>,
                      blank: Name, ghost items: seq<Item>, ghost i: nat, ghost a: State, ghost ok: bool)
    returns (next: Compiler, funcs': seq<Machine.Function>, end: Ending)
    requires c.Valid() && lookup.Valid() && lookup.Counted()
    requires lookup.records.Length == T.INIT_SIZE && Knows(lookup.records[..], c.fns, natives)
    requires obj == |natives| && lookup.count == obj + |funcs|
    requires ok ==> AtItem(items, i, blank, obj, c.fns, a, funcs) && NewNames(items, natives) && BodiesFit(items, i)
    requires ok ==> i < |items| && items[i].Fun? && c.View() == a.(p := c.p)
                    && ReadyFun(c.fns, c.View(), obj + |funcs|, items[i].f, items[i].d, PrintItems(items[i + 1..]))
    modifies c, lookup, lookup.records
    ensures fresh(next) && next.Valid() && !next.inFunction && next.Left() <= old(c.Left())
    ensures lookup.Valid() && lookup.Counted()
    ensures end == Compiled ==> Knows(lookup.records[..], next.fns, natives) && lookup.count == obj + |funcs'|
    ensures ok && end == Compiled ==>
              AtItem(items, i + 1, blank, obj, next.fns, next.View(), funcs') && BodiesFit(items, i + 1)
    ensures ok && end != Compiled ==> end == Crashed && !Bearable(items, obj)
  {
    hide PrintS, PrintFn, AtItem, PrintItems, ReadyFun, DidFun, Knows, T.Good, T.Total, T.PowerOfTwo, FunCount,
         NewNames, CaseState, BodiesFit, BodySpills, Bearable, T.Capacity;
    ghost var k := if i < |items| then PrintItems(items[i + 1..]) else [];
    ghost var x := if ok then items[i] else Fun(0, FunDef([], Done));
    ghost var b, fns := c.View(), c.fns;
    if ok {
      FunNew(items, i, natives, blank, obj, fns, a, funcs);
    }
    var g;
    next, g, end := FuncDeclaration(c, lookup, natives, obj + |funcs|, |funcs|, blank, x.f, x.d, k);
    funcs' := funcs + [g];
    if end != Compiled {
      return;
    }
    if ok {
      FunTokens(next.fns, a, b, next.View(), obj + |funcs|, |funcs|, blank, x.d, g, k);
      FunDone(items, i, blank, obj, fns, a, next.View(), funcs, g);
      ItemClean(items, i + 1, blank, obj, next.fns, next.View(), funcs');
    }
    if next.p.flag {
      ghost var _ := next.Synchronize();
    }
  }

  /** The first `i` items have no function that does not fit. */
  predicate BodiesFit(items: seq<Item>, i: nat) {
    forall j :: 0 <= j < i && j < |items| && items[j].Fun? ==> !BodySpills(items[j].d)
  }

  lemma ScriptSpills(items: seq<Item>, blank: Name, obj: nat, b: State, len: nat, spilled: bool,
                     funcs: seq<Machine.Function>)
    requires LaidScript(items, blank, obj, b.ch, funcs) && CaseState(b.ch.cases, |b.ch.code|, len, spilled)
    requires BodiesFit(items, |items|)
    ensures Overruns(items) == spilled
  {
    ScriptCases(items, blank, obj, b.ch, funcs);
    hide LaidScript, Spills, CasesItems, BodySpills;
  }

  /** A function about to be declared is not a native, and it is one more than there are. */
  lemma FunNew(items: seq<Item>, i: nat, natives: seq<Name>, blank: Name, obj: nat, fns: Fns, a: State,
               funcs: seq<Machine.Function>)
    requires AtItem(items, i, blank, obj, fns, a, funcs) && i < |items| && items[i].Fun? && NewNames(items, natives)
    ensures items[i].f !in natives && |funcs| < FunCount(items)
    ensures |natives| + |funcs| >= T.Capacity(T.INIT_SIZE) || BodySpills(items[i].d) ==> !Bearable(items, |natives|)
    ensures BodiesFit(items, i) && !BodySpills(items[i].d) ==> BodiesFit(items, i + 1)
  {
    NextSpot(items, i, blank, obj);
    PrefixBounds(items, i + 1);
  }

  lemma NoneSkipped(p: Parser, q: Parser)
    requires q == p.(flag := q.flag)
    ensures SkippedTo(p, q, 0)
  {
  }

  lemma OneSkipped(p: Parser, q: Parser, r: Parser, n: nat)
    requires SkippedTo(p, q, n) && !Boundary(q.pre) && q.rest != []
    requires r.pre == q.cur && [r.cur] + r.rest == q.rest
    ensures SkippedTo(p, r, n + 1)
  {
    hide Boundary, CaseState;
    var ts := [p.pre, p.cur] + p.rest;
    assert q.cur == ([q.cur] + q.rest)[0] == ts[n + 1];
    assert q.rest == ([q.cur] + q.rest)[1..] == ts[n + 1..][1..] == ts[n + 2..];
  }

  /** `parse_id` takes the spelling of whatever token was consumed last; what is not an
      identifier has the hash 0 here. */
  function NameOf(t: Token): Name {
    if t.Id? then t.name else 0
  }

  lemma NoPrefixAtEnd(t: Token)
    requires HasPrefix(t)
    ensures !t.Eof?
  {
  }

  lemma NoRuleAtEnd(t: Token)
    requires RulePrec(t) >= 1
    ensures !t.Eof?
  {
  }
}
