/** What the compiler emits for operators next to each other, said in tokens and instructions. */
module Precedence {
  import opened Values
  import opened Syntax
  import opened Bytecode
  import opened Layout
  import opened Emission
  import opened Spine
  import opened Prefixes
  import opened Cases
  import opened Compilation

  // ---------------------------------------------------------- instructions

  datatype Instr =
    | Load(v: Element)
    | Fetch(slot: int)
    | Object(index: nat)
    | Negate
    | Apply(op: BinOp)
    | Change(up: bool)
    | Store(slot: int)
    | Invoke(argc: nat)
    | Show
    | Halt

  function Width(i: Instr): nat {
    if i.Negate? || i.Apply? || i.Change? || i.Show? || i.Halt? then 1 else 2
  }

  /** The opcodes of the operators, one by one. */
  function Opcode(op: BinOp): Byte {
    match op
    case Add => OP_ADD
    case Sub => OP_SUB
    case Mul => OP_MUL
    case Div => OP_DIV
    case Mod => OP_MOD
    case Eq => OP_EQ
    case Ne => OP_NE
    case Lt => OP_LT
    case Le => OP_LE
    case Gt => OP_GT
    case Ge => OP_GE
  }

  predicate Stands(i: Instr, ch: Chunk, pc: nat) {
    && pc + Width(i) <= |ch.code|
    && match i
       case Load(v) => ch.code[pc] == OP_CONSTANT && ch.code[pc + 1] < |ch.consts| && ch.consts[ch.code[pc + 1]] == v
       case Fetch(k) => ch.code[pc] == OP_GET_LOCAL && ch.code[pc + 1] == k
       case Object(k) => ch.code[pc] == OP_GET_OBJ && ch.code[pc + 1] == k
       case Negate => ch.code[pc] == OP_NEG
       case Apply(op) => ch.code[pc] == Opcode(op)
       case Change(up) => ch.code[pc] == if up then OP_INC else OP_DEC
       case Store(k) => ch.code[pc] == OP_SET_LOCAL && ch.code[pc + 1] == k
       case Invoke(n) => ch.code[pc] == OP_CALL && ch.code[pc + 1] == n
       case Show => ch.code[pc] == OP_PRINT
       case Halt => ch.code[pc] == OP_RETURN
  }

  /** From `pc` to its end the code is these instructions. */
  predicate Reads(ch: Chunk, pc: nat, code: seq<Instr>)
    decreases |code|
  {
    if code == [] then pc == |ch.code| else Stands(code[0], ch, pc) && Reads(ch, pc + Width(code[0]), code[1..])
  }

  /** Operands first, from left to right, then the operator. */
  function Postfix(e: Expr, names: seq<Name>, fns: Fns): seq<Instr>
    requires ResolvesE(e, names, fns)
    decreases e
  {
    match e
    case Lit(v) => [Load(v)]
    case Local(x) => [Fetch(Newest(names, x))]
    case FuncRef(f) => [Object(fns[f])]
    case Assign(x, r) => Postfix(r, names, fns) + [Store(Newest(names, x))]
    case Compound(op, x, r) =>
      [Fetch(Newest(names, x))] + Postfix(r, names, fns) + [Apply(op), Store(Newest(names, Target(x, r)))]
    case Neg(_, r) => Postfix(r, names, fns) + [Negate]
    case Bump(x, inc, _) => [Fetch(Newest(names, x)), Change(inc), Store(Newest(names, x))]
    case Bin(op, l, r) => Postfix(l, names, fns) + Postfix(r, names, fns) + [Apply(op)]
    case Call(f, args) => Postfix(f, names, fns) + PostfixArgs(args, names, fns) + [Invoke(Count(args))]
    case Paren(r) => Postfix(r, names, fns)
  }

  function PostfixArgs(es: Exprs, names: seq<Name>, fns: Fns): seq<Instr>
    requires ResolvesArgs(es, names, fns)
    decreases es
  {
    match es case Nil => [] case Cons(e, t) => Postfix(e, names, fns) + PostfixArgs(t, names, fns)
  }

  lemma Opcodes(op: BinOp)
    ensures OpByte(op) == Opcode(op)
  {
  }

  lemma One(i: Instr, ch: Chunk, pc: nat, rest: seq<Instr>)
    requires Stands(i, ch, pc) && Reads(ch, pc + Width(i), rest)
    ensures Reads(ch, pc, [i] + rest)
  {
    assert ([i] + rest)[1..] == rest;
  }

  /** Laid-out code is the postfix form of its tree. */
  lemma {:induction false} LaidReads(e: Expr, names: seq<Name>, fns: Fns, ch: Chunk, pc: nat, rest: seq<Instr>)
    requires ResolvesE(e, names, fns) && LaidE(e, names, fns, ch, pc) && Reads(ch, pc + SizeE(e), rest)
    ensures Reads(ch, pc, Postfix(e, names, fns) + rest)
    decreases e, 1
  {
    hide Newest, Target, Reads, Stands, OpByte, LaidArgs, SizeArgs, Count;
    match e
    case Lit(_) => LeafReads(e, names, fns, ch, pc, rest);
    case Local(_) => LeafReads(e, names, fns, ch, pc, rest);
    case FuncRef(_) => LeafReads(e, names, fns, ch, pc, rest);
    case Assign(_, r) => AssignReads(e, names, fns, ch, pc, rest);
    case Compound(_, _, _) => CompoundReads(e, names, fns, ch, pc, rest);
    case Neg(_, r) => NegReads(e, names, fns, ch, pc, rest);
    case Bump(_, _, _) => BumpReads(e, names, fns, ch, pc, rest);
    case Bin(_, _, _) => BinReads(e, names, fns, ch, pc, rest);
    case Call(_, _) => CallReads(e, names, fns, ch, pc, rest);
    case Paren(r) => LaidReads(r, names, fns, ch, pc, rest);
  }

  lemma LeafReads(e: Expr, names: seq<Name>, fns: Fns, ch: Chunk, pc: nat, rest: seq<Instr>)
    requires e.Lit? || e.Local? || e.FuncRef?
    requires ResolvesE(e, names, fns) && LaidE(e, names, fns, ch, pc) && Reads(ch, pc + SizeE(e), rest)
    ensures Reads(ch, pc, Postfix(e, names, fns) + rest)
  {
    hide Newest, Reads;
    One(Postfix(e, names, fns)[0], ch, pc, rest);
  }

  lemma {:induction false} AssignReads(e: Expr, names: seq<Name>, fns: Fns, ch: Chunk, pc: nat, rest: seq<Instr>)
    requires e.Assign? && ResolvesE(e, names, fns) && LaidE(e, names, fns, ch, pc) && Reads(ch, pc + SizeE(e), rest)
    ensures Reads(ch, pc, Postfix(e, names, fns) + rest)
    decreases e, 0
  {
    hide Newest, Reads, Stands;
    var i, q := Store(Newest(names, e.x)), pc + SizeE(e.e);
    Two(i, ch, q);
    One(i, ch, q, rest);
    LaidReads(e.e, names, fns, ch, pc, [i] + rest);
    assert Postfix(e.e, names, fns) + ([i] + rest) == Postfix(e, names, fns) + rest;
  }

  lemma {:induction false} NegReads(e: Expr, names: seq<Name>, fns: Fns, ch: Chunk, pc: nat, rest: seq<Instr>)
    requires e.Neg? && ResolvesE(e, names, fns) && LaidE(e, names, fns, ch, pc) && Reads(ch, pc + SizeE(e), rest)
    ensures Reads(ch, pc, Postfix(e, names, fns) + rest)
    decreases e, 0
  {
    hide Reads, Stands;
    var q := pc + SizeE(e.e);
    Plainly(Negate, ch, q);
    One(Negate, ch, q, rest);
    LaidReads(e.e, names, fns, ch, pc, [Negate] + rest);
    assert Postfix(e.e, names, fns) + ([Negate] + rest) == Postfix(e, names, fns) + rest;
  }

  lemma {:induction false} BinReads(e: Expr, names: seq<Name>, fns: Fns, ch: Chunk, pc: nat, rest: seq<Instr>)
    requires e.Bin? && ResolvesE(e, names, fns) && LaidE(e, names, fns, ch, pc) && Reads(ch, pc + SizeE(e), rest)
    ensures Reads(ch, pc, Postfix(e, names, fns) + rest)
    decreases e, 0
  {
    hide Reads, Stands, OpByte, Opcode;
    var i, m := Apply(e.op), pc + SizeE(e.l);
    var q, right := m + SizeE(e.r), Postfix(e.r, names, fns);
    Opcodes(e.op);
    Plainly(i, ch, q);
    One(i, ch, q, rest);
    LaidReads(e.r, names, fns, ch, m, [i] + rest);
    LaidReads(e.l, names, fns, ch, pc, right + ([i] + rest));
    assert Postfix(e.l, names, fns) + (right + ([i] + rest)) == Postfix(e, names, fns) + rest;
  }

  lemma {:induction false} CallReads(e: Expr, names: seq<Name>, fns: Fns, ch: Chunk, pc: nat, rest: seq<Instr>)
    requires e.Call? && ResolvesE(e, names, fns) && LaidE(e, names, fns, ch, pc) && Reads(ch, pc + SizeE(e), rest)
    ensures Reads(ch, pc, Postfix(e, names, fns) + rest)
    decreases e, 0
  {
    hide Reads, Stands, Count;
    var i, m := Invoke(Count(e.args)), pc + SizeE(e.fn);
    var q, args := m + SizeArgs(e.args), PostfixArgs(e.args, names, fns);
    Two(i, ch, q);
    One(i, ch, q, rest);
    LaidArgsRead(e.args, names, fns, ch, m, [i] + rest);
    LaidReads(e.fn, names, fns, ch, pc, args + ([i] + rest));
    assert Postfix(e.fn, names, fns) + (args + ([i] + rest)) == Postfix(e, names, fns) + rest;
  }

  lemma {:induction false} LaidArgsRead(es: Exprs, names: seq<Name>, fns: Fns, ch: Chunk, pc: nat, rest: seq<Instr>)
    requires ResolvesArgs(es, names, fns) && LaidArgs(es, names, fns, ch, pc) && Reads(ch, pc + SizeArgs(es), rest)
    ensures Reads(ch, pc, PostfixArgs(es, names, fns) + rest)
    decreases es
  {
    hide Reads, Postfix;
    match es
    case Nil => assert PostfixArgs(es, names, fns) + rest == rest;
    case Cons(e, t) =>
      LaidArgsRead(t, names, fns, ch, pc + SizeE(e), rest);
      LaidReads(e, names, fns, ch, pc, PostfixArgs(t, names, fns) + rest);
      assert Postfix(e, names, fns) + (PostfixArgs(t, names, fns) + rest) == PostfixArgs(es, names, fns) + rest;
  }

  lemma {:induction false} CompoundReads(e: Expr, names: seq<Name>, fns: Fns, ch: Chunk, pc: nat, rest: seq<Instr>)
    requires e.Compound? && ResolvesE(e, names, fns) && LaidE(e, names, fns, ch, pc) && Reads(ch, pc + SizeE(e), rest)
    ensures Reads(ch, pc, Postfix(e, names, fns) + rest)
    decreases e, 0
  {
    hide Newest, Target, Reads, Stands, OpByte, Opcode, LaidE, SizeE, Postfix, ResolvesE;
    CompoundParts(e, names, fns, ch, pc);
    var v, a, s := Fetch(Newest(names, e.x)), Apply(e.op), Store(Newest(names, Target(e.x, e.e)));
    var q, right := pc + 2 + SizeE(e.e), Postfix(e.e, names, fns);
    One(s, ch, q + 1, rest);
    One(a, ch, q, [s] + rest);
    LaidReads(e.e, names, fns, ch, pc + 2, [a] + ([s] + rest));
    One(v, ch, pc, right + ([a] + ([s] + rest)));
    assert [v] + (right + ([a] + ([s] + rest))) == [v] + right + [a, s] + rest;
  }

  lemma CompoundParts(e: Expr, names: seq<Name>, fns: Fns, ch: Chunk, pc: nat)
    requires e.Compound? && ResolvesE(e, names, fns) && LaidE(e, names, fns, ch, pc)
    ensures
      var v, a, s := Fetch(Newest(names, e.x)), Apply(e.op), Store(Newest(names, Target(e.x, e.e)));
      var q := pc + 2 + SizeE(e.e);
      && ResolvesE(e.e, names, fns) && LaidE(e.e, names, fns, ch, pc + 2) && SizeE(e) == SizeE(e.e) + 5
      && Stands(v, ch, pc) && Stands(a, ch, q) && Stands(s, ch, q + 1)
      && Postfix(e, names, fns) == [v] + Postfix(e.e, names, fns) + [a, s]
  {
    hide Newest, Target, Opcode, OpByte;
    Opcodes(e.op);
  }

  lemma BumpReads(e: Expr, names: seq<Name>, fns: Fns, ch: Chunk, pc: nat, rest: seq<Instr>)
    requires e.Bump? && ResolvesE(e, names, fns) && LaidE(e, names, fns, ch, pc) && Reads(ch, pc + SizeE(e), rest)
    ensures Reads(ch, pc, Postfix(e, names, fns) + rest)
  {
    hide Newest, Reads, Stands;
    var v, s := Fetch(Newest(names, e.x)), Store(Newest(names, e.x));
    Two(s, ch, pc + 3);
    One(s, ch, pc + 3, rest);
    Plainly(Change(e.inc), ch, pc + 2);
    One(Change(e.inc), ch, pc + 2, [s] + rest);
    Two(v, ch, pc);
    One(v, ch, pc, [Change(e.inc)] + ([s] + rest));
    assert [v] + ([Change(e.inc)] + ([s] + rest)) == Postfix(e, names, fns) + rest;
  }

  lemma Two(i: Instr, ch: Chunk, pc: nat)
    requires i.Fetch? ==> At2(ch, pc, OP_GET_LOCAL, i.slot)
    requires i.Object? ==> At2(ch, pc, OP_GET_OBJ, i.index)
    requires i.Store? ==> At2(ch, pc, OP_SET_LOCAL, i.slot)
    requires i.Invoke? ==> At2(ch, pc, OP_CALL, i.argc)
    requires i.Fetch? || i.Object? || i.Store? || i.Invoke?
    ensures Stands(i, ch, pc)
  {
  }

  lemma Plainly(i: Instr, ch: Chunk, pc: nat)
    requires i.Negate? ==> At1(ch, pc, OP_NEG)
    requires i.Apply? ==> At1(ch, pc, Opcode(i.op))
    requires i.Change? ==> At1(ch, pc, BumpByte(i.up))
    requires i.Show? ==> At1(ch, pc, OP_PRINT)
    requires i.Halt? ==> At1(ch, pc, OP_RETURN)
    requires i.Negate? || i.Apply? || i.Change? || i.Show? || i.Halt?
    ensures Stands(i, ch, pc)
  {
  }

  // ------------------------------------------------------------- operands

  /** A literal, or a variable in scope. */
  predicate Atomic(t: Token, names: seq<Name>, fns: Fns) {
    t.Number? || t.True? || t.False? || t.NullTok? || (t.Id? && IsVariable(t.name, names, fns))
  }

  /** What the token of an operand becomes. */
  function Loads(t: Token, names: seq<Name>): Instr {
    match t
    case Number(x) => Load(Num(x))
    case True => Load(Bool(true))
    case False => Load(Bool(false))
    case Id(x) => Fetch(Newest(names, x))
    case _ => Load(Null)
  }

  function Leaf(t: Token): Expr {
    match t
    case Number(x) => Lit(Num(x))
    case True => Lit(Bool(true))
    case False => Lit(Bool(false))
    case Id(x) => Local(x)
    case _ => Lit(Null)
  }

  /** As an operand at precedence `p`, `e` is written `ts`, and `code` is its postfix form. */
  ghost predicate Spells(e: Expr, p: nat, ts: seq<Token>, code: seq<Instr>, names: seq<Name>, fns: Fns) {
    && (forall k :: Print(e, p, k) == ts + k)
    && ResolvesE(e, names, fns) && |LitsE(e)| <= |ts| && Postfix(e, names, fns) == code
  }

  /** The operators of each line bind more tightly than those of the lines below. */
  predicate Tighter(o: BinOp, q: BinOp) {
    var factor, term, comparison, equality := {Mul, Div, Mod}, {Add, Sub}, {Lt, Le, Gt, Ge}, {Eq, Ne};
    || (o in factor && q in term + comparison + equality)
    || (o in term && q in comparison + equality)
    || (o in comparison && q in equality)
  }

  /** The compiler is about to read `ts`, and there is room for the constants in it. */
  predicate Faces(a: State, ts: seq<Token>) {
    Sees(a, ts) && Clean(a) && |a.ch.consts| + |ts| <= 256
  }

  /** These instructions have been appended, and `k` is left to read. */
  predicate Emits(a: State, b: State, code: seq<Instr>, k: seq<Token>) {
    a.ch.code <= b.ch.code && Reads(b.ch, |a.ch.code|, code) && Sees(b, k) && Clean(b)
  }

  /** An expression up to its semicolon: its tree in postfix form is what the compiler emits. */
  method Parse(c: Compiler, ghost e: Expr, ghost ts: seq<Token>, ghost code: seq<Instr>, ghost k: seq<Token>)
    requires c.Valid() && Spells(e, PREC_ASSIGNMENT, ts, code, Names(c.locals), c.fns)
             && Faces(c.View(), ts + [Semi] + k)
    modifies c
    ensures c.Valid() && Emits(old(c.View()), c.View(), code, [Semi] + k)
  {
    hide LaidE, SizeE, LitsE, ResolvesE, Postfix, Print, CaseState;
    ghost var a := c.View();
    assert Print(e, PREC_ASSIGNMENT, [Semi] + k) == ts + [Semi] + k;
    c.Expression(e, [Semi] + k);
    LaidReads(e, Names(a.locals), c.fns, c.ch, |a.ch.code|, []);
    assert code + [] == code;
  }

  // ------------------------------------------------------- binary operators

  lemma SpellsLeaf(t: Token, p: nat, names: seq<Name>, fns: Fns)
    requires Atomic(t, names, fns) && p <= PREC_PRIMARY
    ensures Spells(Leaf(t), p, [t], [Loads(t, names)], names, fns)
  {
  }

  lemma SpellsBin(o: BinOp, l: Expr, r: Expr, p: nat, tl: seq<Token>, tr: seq<Token>, cl: seq<Instr>, cr: seq<Instr>,
                  names: seq<Name>, fns: Fns)
    requires p <= OpPrec(o) && Spells(l, OpPrec(o), tl, cl, names, fns) && Spells(r, OpPrec(o) + 1, tr, cr, names, fns)
    ensures Spells(Bin(o, l, r), p, tl + [BinTok(o)] + tr, cl + cr + [Apply(o)], names, fns)
  {
    hide OpPrec, Print, LitsE, ResolvesE, Postfix;
    forall k ensures Print(Bin(o, l, r), p, k) == tl + [BinTok(o)] + tr + k {
      BinPlain(o, l, r, p, k, names, fns);
      assert Print(l, OpPrec(o), [BinTok(o)] + (tr + k)) == tl + ([BinTok(o)] + (tr + k));
    }
    BinPlain(o, l, r, p, [], names, fns);
  }

  lemma BinPlain(o: BinOp, l: Expr, r: Expr, p: nat, k: seq<Token>, names: seq<Name>, fns: Fns)
    requires p <= OpPrec(o) && ResolvesE(l, names, fns) && ResolvesE(r, names, fns)
    ensures Print(Bin(o, l, r), p, k) == Print(l, OpPrec(o), [BinTok(o)] + Print(r, OpPrec(o) + 1, k))
    ensures ResolvesE(Bin(o, l, r), names, fns) && LitsE(Bin(o, l, r)) == LitsE(l) + LitsE(r)
            && Postfix(Bin(o, l, r), names, fns) == Postfix(l, names, fns) + Postfix(r, names, fns) + [Apply(o)]
  {
    hide OpPrec;
  }

  lemma SpellsParen(e: Expr, p: nat, ts: seq<Token>, code: seq<Instr>, names: seq<Name>, fns: Fns)
    requires p <= PREC_PRIMARY && Spells(e, PREC_ASSIGNMENT, ts, code, names, fns)
    ensures Spells(Paren(e), p, [LParen] + ts + [RParen], code, names, fns)
  {
    hide Print, LitsE, ResolvesE, Postfix;
    forall k ensures Print(Paren(e), p, k) == [LParen] + ts + [RParen] + k {
      ParenPlain(e, p, k, names, fns);
      assert Print(e, PREC_ASSIGNMENT, [RParen] + k) == ts + ([RParen] + k);
    }
    ParenPlain(e, p, [], names, fns);
  }

  lemma ParenPlain(e: Expr, p: nat, k: seq<Token>, names: seq<Name>, fns: Fns)
    requires p <= PREC_PRIMARY && ResolvesE(e, names, fns)
    ensures Print(Paren(e), p, k) == [LParen] + Print(e, PREC_ASSIGNMENT, [RParen] + k)
    ensures ResolvesE(Paren(e), names, fns) && LitsE(Paren(e)) == LitsE(e)
            && Postfix(Paren(e), names, fns) == Postfix(e, names, fns)
  {
  }

  /** The two signs of negation. */
  predicate Sign(n: Token) {
    n == Bang || n == BinTok(Sub)
  }

  lemma SpellsNeg(n: Token, e: Expr, p: nat, ts: seq<Token>, code: seq<Instr>, names: seq<Name>, fns: Fns)
    requires Sign(n) && p <= PREC_UNARY && Spells(e, PREC_UNARY, ts, code, names, fns)
    ensures Spells(Neg(n == Bang, e), p, [n] + ts, code + [Negate], names, fns)
  {
    forall k ensures Print(Neg(n == Bang, e), p, k) == [n] + ts + k {
      assert Print(e, PREC_UNARY, k) == ts + k;
    }
  }

  lemma SpellsAssign(x: Name, e: Expr, ts: seq<Token>, code: seq<Instr>, names: seq<Name>, fns: Fns)
    requires IsVariable(x, names, fns) && Spells(e, PREC_ASSIGNMENT, ts, code, names, fns)
    ensures Spells(Assign(x, e), PREC_ASSIGNMENT, [Id(x), AssignOp] + ts, code + [Store(Newest(names, x))], names, fns)
  {
    hide Newest;
    forall k ensures Print(Assign(x, e), PREC_ASSIGNMENT, k) == [Id(x), AssignOp] + ts + k {
      assert Print(e, PREC_ASSIGNMENT, k) == ts + k;
    }
  }

  /** A call of a function with two arguments. */
  lemma SpellsCall(f: Name, d: Expr, e: Expr, p: nat, td: seq<Token>, te: seq<Token>, cd: seq<Instr>, ce: seq<Instr>,
                   names: seq<Name>, fns: Fns)
    requires f in fns && fns[f] < 256 && p <= PREC_CALL
    requires Spells(d, PREC_ASSIGNMENT, td, cd, names, fns) && Spells(e, PREC_ASSIGNMENT, te, ce, names, fns)
    ensures Spells(Call(FuncRef(f), Cons(d, Cons(e, Nil))), p, [Id(f), LParen] + td + [Comma] + te + [RParen],
                   [Object(fns[f])] + cd + ce + [Invoke(2)], names, fns)
  {
    var args := Cons(d, Cons(e, Nil));
    TwoArguments(d, e, td, te, cd, ce, names, fns);
    forall k ensures Print(Call(FuncRef(f), args), p, k) == [Id(f), LParen] + td + [Comma] + te + [RParen] + k {
      hide PrintArgs;
      assert Print(FuncRef(f), PREC_CALL, [LParen] + PrintArgs(args, [RParen] + k)) ==
             [Id(f)] + ([LParen] + (td + [Comma] + te + ([RParen] + k)));
    }
    hide Postfix, PostfixArgs, Print;
    CallPostfix(f, args, names, fns);
  }

  lemma CallPostfix(f: Name, args: Exprs, names: seq<Name>, fns: Fns)
    requires f in fns && fns[f] < 256 && ResolvesArgs(args, names, fns) && Count(args) < 256
    ensures var e := Call(FuncRef(f), args);
            ResolvesE(e, names, fns) && LitsE(e) == LitsArgs(args)
              && Postfix(e, names, fns) == [Object(fns[f])] + PostfixArgs(args, names, fns) + [Invoke(Count(args))]
  {
  }

  lemma TwoArguments(d: Expr, e: Expr, td: seq<Token>, te: seq<Token>, cd: seq<Instr>, ce: seq<Instr>,
                     names: seq<Name>, fns: Fns)
    requires Spells(d, PREC_ASSIGNMENT, td, cd, names, fns) && Spells(e, PREC_ASSIGNMENT, te, ce, names, fns)
    ensures
      var args := Cons(d, Cons(e, Nil));
      && (forall k :: PrintArgs(args, k) == td + [Comma] + te + k)
      && Count(args) == 2 && ResolvesArgs(args, names, fns) && |LitsArgs(args)| <= |td| + |te|
      && PostfixArgs(args, names, fns) == cd + ce
  {
    hide Print, Postfix, LitsE, ResolvesE;
    var last := Cons(e, Nil);
    forall k ensures PrintArgs(Cons(d, last), k) == td + [Comma] + te + k {
      assert PrintArgs(last, k) == te + k;
      assert PrintArgs(Cons(d, last), k) == td + ([Comma] + (te + k));
    }
    assert LitsArgs(Nil) == [] && PostfixArgs(Nil, names, fns) == [];
    assert LitsE(e) + [] == LitsE(e) && ce + [] == ce;
    assert PostfixArgs(last, names, fns) == ce && LitsArgs(last) == LitsE(e) && ResolvesArgs(last, names, fns);
    assert Count(last) == 1;
  }

  lemma Precedences(o: BinOp)
    ensures PREC_ASSIGNMENT <= OpPrec(o) < PREC_UNARY
  {
  }

  lemma Compares(o: BinOp, q: BinOp)
    ensures PREC_ASSIGNMENT <= OpPrec(o) < PREC_UNARY && PREC_ASSIGNMENT <= OpPrec(q) < PREC_UNARY
    ensures Tighter(q, o) <==> OpPrec(o) < OpPrec(q)
  {
  }

  lemma TightFirst(t: Token, o: BinOp, u: Token, q: BinOp, v: Token, names: seq<Name>, fns: Fns)
    requires Atomic(t, names, fns) && Atomic(u, names, fns) && Atomic(v, names, fns) && Tighter(q, o)
    ensures Spells(Bin(o, Leaf(t), Bin(q, Leaf(u), Leaf(v))), PREC_ASSIGNMENT, [t, BinTok(o), u, BinTok(q), v],
                   [Loads(t, names), Loads(u, names), Loads(v, names), Apply(q), Apply(o)], names, fns)
  {
    hide Leaf, Loads, Atomic, OpPrec, Tighter, Spells, IsVariable;
    Compares(o, q);
    SpellsLeaf(t, OpPrec(o), names, fns);
    SpellsLeaf(u, OpPrec(q), names, fns);
    SpellsLeaf(v, OpPrec(q) + 1, names, fns);
    SpellsBin(q, Leaf(u), Leaf(v), OpPrec(o) + 1, [u], [v], [Loads(u, names)], [Loads(v, names)], names, fns);
    SpellsBin(o, Leaf(t), Bin(q, Leaf(u), Leaf(v)), PREC_ASSIGNMENT, [t], [u] + [BinTok(q)] + [v], [Loads(t, names)],
              [Loads(u, names)] + [Loads(v, names)] + [Apply(q)], names, fns);
    assert [t] + [BinTok(o)] + ([u] + [BinTok(q)] + [v]) == [t, BinTok(o), u, BinTok(q), v];
    assert [Loads(t, names)] + ([Loads(u, names)] + [Loads(v, names)] + [Apply(q)]) + [Apply(o)] ==
           [Loads(t, names), Loads(u, names), Loads(v, names), Apply(q), Apply(o)];
  }

  lemma LeftFirst(t: Token, o: BinOp, u: Token, q: BinOp, v: Token, names: seq<Name>, fns: Fns)
    requires Atomic(t, names, fns) && Atomic(u, names, fns) && Atomic(v, names, fns) && !Tighter(q, o)
    ensures Spells(Bin(q, Bin(o, Leaf(t), Leaf(u)), Leaf(v)), PREC_ASSIGNMENT, [t, BinTok(o), u, BinTok(q), v],
                   [Loads(t, names), Loads(u, names), Apply(o), Loads(v, names), Apply(q)], names, fns)
  {
    hide Leaf, Loads, Atomic, OpPrec, Tighter, Spells, IsVariable;
    Compares(o, q);
    SpellsLeaf(t, OpPrec(o), names, fns);
    SpellsLeaf(u, OpPrec(o) + 1, names, fns);
    SpellsLeaf(v, OpPrec(q) + 1, names, fns);
    SpellsBin(o, Leaf(t), Leaf(u), OpPrec(q), [t], [u], [Loads(t, names)], [Loads(u, names)], names, fns);
    SpellsBin(q, Bin(o, Leaf(t), Leaf(u)), Leaf(v), PREC_ASSIGNMENT, [t] + [BinTok(o)] + [u], [v],
              [Loads(t, names)] + [Loads(u, names)] + [Apply(o)], [Loads(v, names)], names, fns);
    assert [t] + [BinTok(o)] + [u] + [BinTok(q)] + [v] == [t, BinTok(o), u, BinTok(q), v];
    assert [Loads(t, names)] + [Loads(u, names)] + [Apply(o)] + [Loads(v, names)] + [Apply(q)] ==
           [Loads(t, names), Loads(u, names), Apply(o), Loads(v, names), Apply(q)];
  }

  /** `t o u q v;`: the tighter operator first; of two that bind alike, the left one. */
  method TwoOperators(c: Compiler, ghost t: Token, ghost o: BinOp, ghost u: Token, ghost q: BinOp, ghost v: Token,
                      ghost k: seq<Token>)
    requires c.Valid() && Faces(c.View(), [t, BinTok(o), u, BinTok(q), v, Semi] + k)
    requires forall x :: x in {t, u, v} ==> Atomic(x, Names(c.locals), c.fns)
    modifies c
    ensures
      var names := Names(old(c.locals));
      Emits(old(c.View()), c.View(),
            if Tighter(q, o) then [Loads(t, names), Loads(u, names), Loads(v, names), Apply(q), Apply(o)]
            else [Loads(t, names), Loads(u, names), Apply(o), Loads(v, names), Apply(q)], [Semi] + k)
  {
    hide Atomic, Loads, Leaf, Tighter, Spells, Emits, IsVariable;
    ghost var names, ts := Names(c.locals), [t, BinTok(o), u, BinTok(q), v];
    assert ts + [Semi] + k == [t, BinTok(o), u, BinTok(q), v, Semi] + k;
    ghost var e := if Tighter(q, o) then Bin(o, Leaf(t), Bin(q, Leaf(u), Leaf(v)))
      else Bin(q, Bin(o, Leaf(t), Leaf(u)), Leaf(v));
    if Tighter(q, o) {
      TightFirst(t, o, u, q, v, names, c.fns);
    } else {
      LeftFirst(t, o, u, q, v, names, c.fns);
    }
    ghost var code := if Tighter(q, o) then [Loads(t, names), Loads(u, names), Loads(v, names), Apply(q), Apply(o)]
      else [Loads(t, names), Loads(u, names), Apply(o), Loads(v, names), Apply(q)];
    Parse(c, e, ts, code, k);
  }

  // ------------------------------------------- parentheses, signs and calls

  /** `(t o u) q v;`: the parentheses decide. */
  method LeftGroup(c: Compiler, ghost t: Token, ghost o: BinOp, ghost u: Token, ghost q: BinOp, ghost v: Token,
                   ghost k: seq<Token>)
    requires c.Valid() && Faces(c.View(), [LParen, t, BinTok(o), u, RParen, BinTok(q), v, Semi] + k)
    requires forall x :: x in {t, u, v} ==> Atomic(x, Names(c.locals), c.fns)
    modifies c
    ensures var names := Names(old(c.locals));
            Emits(old(c.View()), c.View(),
                  [Loads(t, names), Loads(u, names), Apply(o), Loads(v, names), Apply(q)], [Semi] + k)
  {
    hide Atomic, Loads, Leaf, Spells, Emits, IsVariable, OpPrec;
    ghost var names, ts := Names(c.locals), [LParen, t, BinTok(o), u, RParen, BinTok(q), v];
    ghost var e := Bin(q, Paren(Bin(o, Leaf(t), Leaf(u))), Leaf(v));
    LeftGroupSpells(t, o, u, q, v, names, c.fns);
    assert ts + [Semi] + k == [LParen, t, BinTok(o), u, RParen, BinTok(q), v, Semi] + k;
    Parse(c, e, ts, [Loads(t, names), Loads(u, names), Apply(o), Loads(v, names), Apply(q)], k);
  }

  lemma PairSpells(t: Token, o: BinOp, u: Token, p: nat, names: seq<Name>, fns: Fns)
    requires Atomic(t, names, fns) && Atomic(u, names, fns) && p <= OpPrec(o)
    ensures Spells(Bin(o, Leaf(t), Leaf(u)), p, [t, BinTok(o), u], [Loads(t, names), Loads(u, names), Apply(o)],
                   names, fns)
  {
    hide Leaf, Loads, Atomic, OpPrec, Spells;
    Precedences(o);
    SpellsLeaf(t, OpPrec(o), names, fns);
    SpellsLeaf(u, OpPrec(o) + 1, names, fns);
    SpellsBin(o, Leaf(t), Leaf(u), p, [t], [u], [Loads(t, names)], [Loads(u, names)], names, fns);
    assert [t] + [BinTok(o)] + [u] == [t, BinTok(o), u];
    assert [Loads(t, names)] + [Loads(u, names)] + [Apply(o)] == [Loads(t, names), Loads(u, names), Apply(o)];
  }

  lemma LeftGroupSpells(t: Token, o: BinOp, u: Token, q: BinOp, v: Token, names: seq<Name>, fns: Fns)
    requires Atomic(t, names, fns) && Atomic(u, names, fns) && Atomic(v, names, fns)
    ensures Spells(Bin(q, Paren(Bin(o, Leaf(t), Leaf(u))), Leaf(v)), PREC_ASSIGNMENT,
                   [LParen, t, BinTok(o), u, RParen, BinTok(q), v],
                   [Loads(t, names), Loads(u, names), Apply(o), Loads(v, names), Apply(q)], names, fns)
  {
    hide Leaf, Loads, Atomic, OpPrec, Spells;
    Precedences(o);
    Precedences(q);
    PairSpells(t, o, u, PREC_ASSIGNMENT, names, fns);
    var ts, code := [t, BinTok(o), u], [Loads(t, names), Loads(u, names), Apply(o)];
    SpellsParen(Bin(o, Leaf(t), Leaf(u)), OpPrec(q), ts, code, names, fns);
    SpellsLeaf(v, OpPrec(q) + 1, names, fns);
    SpellsBin(q, Paren(Bin(o, Leaf(t), Leaf(u))), Leaf(v), PREC_ASSIGNMENT, [LParen] + ts + [RParen], [v], code,
              [Loads(v, names)], names, fns);
    assert [LParen] + ts + [RParen] + [BinTok(q)] + [v] == [LParen, t, BinTok(o), u, RParen, BinTok(q), v];
    assert code + [Loads(v, names)] + [Apply(q)] ==
           [Loads(t, names), Loads(u, names), Apply(o), Loads(v, names), Apply(q)];
  }

  lemma RightGroupSpells(t: Token, o: BinOp, u: Token, q: BinOp, v: Token, names: seq<Name>, fns: Fns)
    requires Atomic(t, names, fns) && Atomic(u, names, fns) && Atomic(v, names, fns)
    ensures Spells(Bin(o, Leaf(t), Paren(Bin(q, Leaf(u), Leaf(v)))), PREC_ASSIGNMENT,
                   [t, BinTok(o), LParen, u, BinTok(q), v, RParen],
                   [Loads(t, names), Loads(u, names), Loads(v, names), Apply(q), Apply(o)], names, fns)
  {
    hide Leaf, Loads, Atomic, OpPrec, Spells;
    Precedences(o);
    Precedences(q);
    PairSpells(u, q, v, PREC_ASSIGNMENT, names, fns);
    var ts, code := [u, BinTok(q), v], [Loads(u, names), Loads(v, names), Apply(q)];
    SpellsParen(Bin(q, Leaf(u), Leaf(v)), OpPrec(o) + 1, ts, code, names, fns);
    SpellsLeaf(t, OpPrec(o), names, fns);
    SpellsBin(o, Leaf(t), Paren(Bin(q, Leaf(u), Leaf(v))), PREC_ASSIGNMENT, [t], [LParen] + ts + [RParen],
              [Loads(t, names)], code, names, fns);
    assert [t] + [BinTok(o)] + ([LParen] + ts + [RParen]) == [t, BinTok(o), LParen, u, BinTok(q), v, RParen];
    assert [Loads(t, names)] + code + [Apply(o)] ==
           [Loads(t, names), Loads(u, names), Loads(v, names), Apply(q), Apply(o)];
  }

  /** `t o (u q v);`. */
  method RightGroup(c: Compiler, ghost t: Token, ghost o: BinOp, ghost u: Token, ghost q: BinOp, ghost v: Token,
                    ghost k: seq<Token>)
    requires c.Valid() && Faces(c.View(), [t, BinTok(o), LParen, u, BinTok(q), v, RParen, Semi] + k)
    requires forall x :: x in {t, u, v} ==> Atomic(x, Names(c.locals), c.fns)
    modifies c
    ensures var names := Names(old(c.locals));
            Emits(old(c.View()), c.View(),
                  [Loads(t, names), Loads(u, names), Loads(v, names), Apply(q), Apply(o)], [Semi] + k)
  {
    hide Atomic, Loads, Leaf, Spells, Emits, IsVariable, OpPrec;
    ghost var names, ts := Names(c.locals), [t, BinTok(o), LParen, u, BinTok(q), v, RParen];
    ghost var e := Bin(o, Leaf(t), Paren(Bin(q, Leaf(u), Leaf(v))));
    RightGroupSpells(t, o, u, q, v, names, c.fns);
    assert ts + [Semi] + k == [t, BinTok(o), LParen, u, BinTok(q), v, RParen, Semi] + k;
    Parse(c, e, ts, [Loads(t, names), Loads(u, names), Loads(v, names), Apply(q), Apply(o)], k);
  }

  lemma SignedSpells(n: Token, t: Token, o: BinOp, u: Token, names: seq<Name>, fns: Fns)
    requires Atomic(t, names, fns) && Atomic(u, names, fns) && Sign(n)
    ensures Spells(Bin(o, Neg(n == Bang, Leaf(t)), Leaf(u)), PREC_ASSIGNMENT, [n, t, BinTok(o), u],
                   [Loads(t, names), Negate, Loads(u, names), Apply(o)], names, fns)
    ensures Spells(Bin(o, Leaf(u), Neg(n == Bang, Leaf(t))), PREC_ASSIGNMENT, [u, BinTok(o), n, t],
                   [Loads(u, names), Loads(t, names), Negate, Apply(o)], names, fns)
  {
    hide Leaf, Loads, Atomic, OpPrec, Spells;
    Precedences(o);
    SpellsLeaf(t, PREC_UNARY, names, fns);
    var e, ts, code := Neg(n == Bang, Leaf(t)), [n] + [t], [Loads(t, names)] + [Negate];
    SpellsNeg(n, Leaf(t), OpPrec(o), [t], [Loads(t, names)], names, fns);
    SpellsNeg(n, Leaf(t), OpPrec(o) + 1, [t], [Loads(t, names)], names, fns);
    SpellsLeaf(u, OpPrec(o), names, fns);
    SpellsLeaf(u, OpPrec(o) + 1, names, fns);
    SpellsBin(o, e, Leaf(u), PREC_ASSIGNMENT, ts, [u], code, [Loads(u, names)], names, fns);
    SpellsBin(o, Leaf(u), e, PREC_ASSIGNMENT, [u], ts, [Loads(u, names)], code, names, fns);
    assert ts + [BinTok(o)] + [u] == [n, t, BinTok(o), u] && [u] + [BinTok(o)] + ts == [u, BinTok(o), n, t];
    assert code + [Loads(u, names)] + [Apply(o)] == [Loads(t, names), Negate, Loads(u, names), Apply(o)];
    assert [Loads(u, names)] + code + [Apply(o)] == [Loads(u, names), Loads(t, names), Negate, Apply(o)];
  }

  /** `-t o u;` and `!t o u;`: a sign binds more tightly than any operator between operands. */
  method SignedLeft(c: Compiler, ghost n: Token, ghost t: Token, ghost o: BinOp, ghost u: Token, ghost k: seq<Token>)
    requires c.Valid() && Faces(c.View(), [n, t, BinTok(o), u, Semi] + k) && Sign(n)
    requires Atomic(t, Names(c.locals), c.fns) && Atomic(u, Names(c.locals), c.fns)
    modifies c
    ensures var names := Names(old(c.locals));
            Emits(old(c.View()), c.View(), [Loads(t, names), Negate, Loads(u, names), Apply(o)], [Semi] + k)
  {
    hide Atomic, Loads, Leaf, Spells, Emits, IsVariable, OpPrec;
    ghost var names, ts := Names(c.locals), [n, t, BinTok(o), u];
    ghost var e := Bin(o, Neg(n == Bang, Leaf(t)), Leaf(u));
    SignedSpells(n, t, o, u, names, c.fns);
    assert ts + [Semi] + k == [n, t, BinTok(o), u, Semi] + k;
    Parse(c, e, ts, [Loads(t, names), Negate, Loads(u, names), Apply(o)], k);
  }

  /** `u o -t;` and `u o !t;`. */
  method SignedRight(c: Compiler, ghost u: Token, ghost o: BinOp, ghost n: Token, ghost t: Token, ghost k: seq<Token>)
    requires c.Valid() && Faces(c.View(), [u, BinTok(o), n, t, Semi] + k) && Sign(n)
    requires Atomic(t, Names(c.locals), c.fns) && Atomic(u, Names(c.locals), c.fns)
    modifies c
    ensures var names := Names(old(c.locals));
            Emits(old(c.View()), c.View(), [Loads(u, names), Loads(t, names), Negate, Apply(o)], [Semi] + k)
  {
    hide Atomic, Loads, Leaf, Spells, Emits, IsVariable, OpPrec;
    ghost var names, ts := Names(c.locals), [u, BinTok(o), n, t];
    ghost var e := Bin(o, Leaf(u), Neg(n == Bang, Leaf(t)));
    SignedSpells(n, t, o, u, names, c.fns);
    assert ts + [Semi] + k == [u, BinTok(o), n, t, Semi] + k;
    Parse(c, e, ts, [Loads(u, names), Loads(t, names), Negate, Apply(o)], k);
  }

  lemma CalledSpells(n: Token, f: Name, t: Token, u: Token, names: seq<Name>, fns: Fns)
    requires Sign(n) && Atomic(t, names, fns) && Atomic(u, names, fns) && f in fns && fns[f] < 256
    ensures Spells(Neg(n == Bang, Call(FuncRef(f), Cons(Leaf(t), Cons(Leaf(u), Nil)))), PREC_ASSIGNMENT,
                   [n, Id(f), LParen, t, Comma, u, RParen],
                   [Object(fns[f]), Loads(t, names), Loads(u, names), Invoke(2), Negate], names, fns)
  {
    hide Leaf, Loads, Atomic, OpPrec, Spells;
    SpellsLeaf(t, PREC_ASSIGNMENT, names, fns);
    SpellsLeaf(u, PREC_ASSIGNMENT, names, fns);
    SpellsCall(f, Leaf(t), Leaf(u), PREC_UNARY, [t], [u], [Loads(t, names)], [Loads(u, names)], names, fns);
    var ts := [Id(f), LParen] + [t] + [Comma] + [u] + [RParen];
    var code := [Object(fns[f])] + [Loads(t, names)] + [Loads(u, names)] + [Invoke(2)];
    SpellsNeg(n, Call(FuncRef(f), Cons(Leaf(t), Cons(Leaf(u), Nil))), PREC_ASSIGNMENT, ts, code, names, fns);
    assert [n] + ts == [n, Id(f), LParen, t, Comma, u, RParen];
    assert code + [Negate] == [Object(fns[f]), Loads(t, names), Loads(u, names), Invoke(2), Negate];
  }

  /** `-f(t, u);`: a call binds more tightly than a sign, and arguments go from left to right. */
  method SignedCall(c: Compiler, ghost n: Token, ghost f: Name, ghost t: Token, ghost u: Token, ghost k: seq<Token>)
    requires c.Valid() && Faces(c.View(), [n, Id(f), LParen, t, Comma, u, RParen, Semi] + k) && Sign(n)
    requires f in c.fns && c.fns[f] < 256
    requires Atomic(t, Names(c.locals), c.fns) && Atomic(u, Names(c.locals), c.fns)
    modifies c
    ensures var names := Names(old(c.locals));
            Emits(old(c.View()), c.View(),
                  [Object(c.fns[f]), Loads(t, names), Loads(u, names), Invoke(2), Negate], [Semi] + k)
  {
    hide Atomic, Loads, Leaf, Spells, Emits, IsVariable, OpPrec;
    ghost var names, ts := Names(c.locals), [n, Id(f), LParen, t, Comma, u, RParen];
    ghost var e := Neg(n == Bang, Call(FuncRef(f), Cons(Leaf(t), Cons(Leaf(u), Nil))));
    CalledSpells(n, f, t, u, names, c.fns);
    assert ts + [Semi] + k == [n, Id(f), LParen, t, Comma, u, RParen, Semi] + k;
    Parse(c, e, ts, [Object(c.fns[f]), Loads(t, names), Loads(u, names), Invoke(2), Negate], k);
  }

  lemma OperandCallSpells(v: Token, o: BinOp, f: Name, t: Token, u: Token, names: seq<Name>, fns: Fns)
    requires Atomic(t, names, fns) && Atomic(u, names, fns) && Atomic(v, names, fns) && f in fns && fns[f] < 256
    ensures Spells(Bin(o, Leaf(v), Call(FuncRef(f), Cons(Leaf(t), Cons(Leaf(u), Nil)))), PREC_ASSIGNMENT,
                   [v, BinTok(o), Id(f), LParen, t, Comma, u, RParen],
                   [Loads(v, names), Object(fns[f]), Loads(t, names), Loads(u, names), Invoke(2), Apply(o)], names, fns)
  {
    hide Leaf, Loads, Atomic, OpPrec, Spells;
    Precedences(o);
    SpellsLeaf(t, PREC_ASSIGNMENT, names, fns);
    SpellsLeaf(u, PREC_ASSIGNMENT, names, fns);
    SpellsCall(f, Leaf(t), Leaf(u), OpPrec(o) + 1, [t], [u], [Loads(t, names)], [Loads(u, names)], names, fns);
    var ts := [Id(f), LParen] + [t] + [Comma] + [u] + [RParen];
    var code := [Object(fns[f])] + [Loads(t, names)] + [Loads(u, names)] + [Invoke(2)];
    SpellsLeaf(v, OpPrec(o), names, fns);
    SpellsBin(o, Leaf(v), Call(FuncRef(f), Cons(Leaf(t), Cons(Leaf(u), Nil))), PREC_ASSIGNMENT, [v], ts,
              [Loads(v, names)], code, names, fns);
    assert [v] + [BinTok(o)] + ts == [v, BinTok(o), Id(f), LParen, t, Comma, u, RParen];
    assert [Loads(v, names)] + code + [Apply(o)] ==
           [Loads(v, names), Object(fns[f]), Loads(t, names), Loads(u, names), Invoke(2), Apply(o)];
  }

  /** `v o f(t, u);`: the callee is loaded after the left operand, before its arguments. */
  method OperandCall(c: Compiler, ghost v: Token, ghost o: BinOp, ghost f: Name, ghost t: Token, ghost u: Token,
                     ghost k: seq<Token>)
    requires c.Valid() && Faces(c.View(), [v, BinTok(o), Id(f), LParen, t, Comma, u, RParen, Semi] + k)
    requires f in c.fns && c.fns[f] < 256
    requires forall x :: x in {t, u, v} ==> Atomic(x, Names(c.locals), c.fns)
    modifies c
    ensures var names := Names(old(c.locals));
            Emits(old(c.View()), c.View(),
                  [Loads(v, names), Object(c.fns[f]), Loads(t, names), Loads(u, names), Invoke(2), Apply(o)],
                  [Semi] + k)
  {
    hide Atomic, Loads, Leaf, Spells, Emits, IsVariable, OpPrec;
    ghost var names, ts := Names(c.locals), [v, BinTok(o), Id(f), LParen, t, Comma, u, RParen];
    ghost var e := Bin(o, Leaf(v), Call(FuncRef(f), Cons(Leaf(t), Cons(Leaf(u), Nil))));
    OperandCallSpells(v, o, f, t, u, names, c.fns);
    assert ts + [Semi] + k == [v, BinTok(o), Id(f), LParen, t, Comma, u, RParen, Semi] + k;
    Parse(c, e, ts, [Loads(v, names), Object(c.fns[f]), Loads(t, names), Loads(u, names), Invoke(2), Apply(o)], k);
  }

  // ------------------------------------------------------------ assignments

  lemma AssignedSpells(x: Name, y: Name, t: Token, o: BinOp, u: Token, names: seq<Name>, fns: Fns)
    requires IsVariable(x, names, fns) && IsVariable(y, names, fns) && Atomic(t, names, fns) && Atomic(u, names, fns)
    ensures Spells(Assign(x, Assign(y, Bin(o, Leaf(t), Leaf(u)))), PREC_ASSIGNMENT,
                   [Id(x), AssignOp, Id(y), AssignOp, t, BinTok(o), u],
                   [Loads(t, names), Loads(u, names), Apply(o), Store(Newest(names, y)), Store(Newest(names, x))],
                   names, fns)
  {
    hide Leaf, Loads, Atomic, OpPrec, Spells, Newest, IsVariable;
    Precedences(o);
    PairSpells(t, o, u, PREC_ASSIGNMENT, names, fns);
    var e, ts, code := Bin(o, Leaf(t), Leaf(u)), [t, BinTok(o), u], [Loads(t, names), Loads(u, names), Apply(o)];
    SpellsAssign(y, e, ts, code, names, fns);
    SpellsAssign(x, Assign(y, e), [Id(y), AssignOp] + ts, code + [Store(Newest(names, y))], names, fns);
    assert [Id(x), AssignOp] + ([Id(y), AssignOp] + ts) == [Id(x), AssignOp, Id(y), AssignOp, t, BinTok(o), u];
    assert code + [Store(Newest(names, y))] + [Store(Newest(names, x))] ==
           [Loads(t, names), Loads(u, names), Apply(o), Store(Newest(names, y)), Store(Newest(names, x))];
  }

  /** `x = y = t o u;`: assignments bind least, and from the right. */
  method Assigned(c: Compiler, ghost x: Name, ghost y: Name, ghost t: Token, ghost o: BinOp, ghost u: Token,
                  ghost k: seq<Token>)
    requires c.Valid() && Faces(c.View(), [Id(x), AssignOp, Id(y), AssignOp, t, BinTok(o), u, Semi] + k)
    requires IsVariable(x, Names(c.locals), c.fns) && IsVariable(y, Names(c.locals), c.fns)
    requires Atomic(t, Names(c.locals), c.fns) && Atomic(u, Names(c.locals), c.fns)
    modifies c
    ensures var names := Names(old(c.locals));
            Emits(old(c.View()), c.View(),
                  [Loads(t, names), Loads(u, names), Apply(o), Store(Newest(names, y)), Store(Newest(names, x))],
                  [Semi] + k)
  {
    hide Atomic, Loads, Leaf, Spells, Emits, IsVariable, OpPrec, Newest;
    ghost var names, ts := Names(c.locals), [Id(x), AssignOp, Id(y), AssignOp, t, BinTok(o), u];
    AssignedSpells(x, y, t, o, u, names, c.fns);
    assert ts + [Semi] + k == [Id(x), AssignOp, Id(y), AssignOp, t, BinTok(o), u, Semi] + k;
    Parse(c, Assign(x, Assign(y, Bin(o, Leaf(t), Leaf(u)))), ts,
      [Loads(t, names), Loads(u, names), Apply(o), Store(Newest(names, y)), Store(Newest(names, x))], k);
  }

  lemma CompoundSpells(x: Name, op: BinOp, t: Token, names: seq<Name>, fns: Fns)
    requires IsVariable(x, names, fns) && Arithmetic(op) && Atomic(t, names, fns)
    ensures Spells(Compound(op, x, Leaf(t)), PREC_ASSIGNMENT, [Id(x), CompoundOp(op), t],
                   [Fetch(Newest(names, x)), Loads(t, names), Apply(op),
                    Store(Newest(names, if t.Id? then t.name else x))], names, fns)
  {
    hide Newest, Arithmetic;
    SpellsLeaf(t, PREC_ASSIGNMENT, names, fns);
    forall k ensures Print(Compound(op, x, Leaf(t)), PREC_ASSIGNMENT, k) == [Id(x), CompoundOp(op), t] + k {
      assert Print(Leaf(t), PREC_ASSIGNMENT, k) == [t] + k;
    }
  }

  /** `x op= t;`: the result goes to the identifier that was read last, which is `t` if it is one. */
  method Compounded(c: Compiler, ghost x: Name, ghost op: BinOp, ghost t: Token, ghost k: seq<Token>)
    requires c.Valid() && Faces(c.View(), [Id(x), CompoundOp(op), t, Semi] + k) && Arithmetic(op)
    requires IsVariable(x, Names(c.locals), c.fns) && Atomic(t, Names(c.locals), c.fns)
    modifies c
    ensures var names := Names(old(c.locals));
            Emits(old(c.View()), c.View(),
                  [Fetch(Newest(names, x)), Loads(t, names), Apply(op),
                   Store(Newest(names, if t.Id? then t.name else x))], [Semi] + k)
  {
    hide Atomic, Loads, Leaf, Spells, Emits, IsVariable, Newest;
    ghost var names, ts := Names(c.locals), [Id(x), CompoundOp(op), t];
    CompoundSpells(x, op, t, names, c.fns);
    assert ts + [Semi] + k == [Id(x), CompoundOp(op), t, Semi] + k;
    Parse(c, Compound(op, x, Leaf(t)), ts, [Fetch(Newest(names, x)), Loads(t, names), Apply(op),
      Store(Newest(names, if t.Id? then t.name else x))], k);
  }

  lemma BumpSpells(x: Name, inc: bool, p: nat, names: seq<Name>, fns: Fns)
    requires IsVariable(x, names, fns) && p <= PREC_TERM
    ensures Spells(Bump(x, inc, true), p, [if inc then IncOp else DecOp, Id(x)],
                   [Fetch(Newest(names, x)), Change(inc), Store(Newest(names, x))], names, fns)
    ensures Spells(Bump(x, inc, false), p, [Id(x), if inc then IncOp else DecOp],
                   [Fetch(Newest(names, x)), Change(inc), Store(Newest(names, x))], names, fns)
  {
    hide Newest;
    var t := if inc then IncOp else DecOp;
    forall k ensures Print(Bump(x, inc, true), p, k) == [t, Id(x)] + k
                     && Print(Bump(x, inc, false), p, k) == [Id(x), t] + k {
    }
    assert Postfix(Bump(x, inc, true), names, fns) == Postfix(Bump(x, inc, false), names, fns) ==
           [Fetch(Newest(names, x)), Change(inc), Store(Newest(names, x))];
  }

  /** `++x;`, `--x;`, and with `after` the sign behind the variable: all of them leave the new value. */
  method Bumped(c: Compiler, ghost x: Name, ghost inc: bool, ghost after: bool, ghost k: seq<Token>)
    requires c.Valid() && IsVariable(x, Names(c.locals), c.fns)
    requires var s := if inc then IncOp else DecOp;
             Faces(c.View(), (if after then [Id(x), s, Semi] else [s, Id(x), Semi]) + k)
    modifies c
    ensures var names := Names(old(c.locals));
            Emits(old(c.View()), c.View(), [Fetch(Newest(names, x)), Change(inc), Store(Newest(names, x))], [Semi] + k)
  {
    hide Spells, Emits, IsVariable, Newest;
    ghost var names, s := Names(c.locals), if inc then IncOp else DecOp;
    ghost var ts := if after then [Id(x), s] else [s, Id(x)];
    BumpSpells(x, inc, PREC_ASSIGNMENT, names, c.fns);
    assert ts + [Semi] + k == (if after then [Id(x), s, Semi] else [s, Id(x), Semi]) + k;
    Parse(c, Bump(x, inc, !after), ts, [Fetch(Newest(names, x)), Change(inc), Store(Newest(names, x))], k);
  }

  // ------------------------------------------------------------------ errors

  /** Tokens that no expression begins with. */
  predicate Foreign(t: Token) {
    || t.RParen? || t.LCurl? || t.RCurl? || t.Comma? || t.Semi? || t.Eof?
    || t.AssignOp? || t.CompoundOp? || (t.BinTok? && t.bop != Sub)
    || t.FuncKw? || t.VarKw? || t.IfKw? || t.ElifKw? || t.ElseKw? || t.WhileKw? || t.ForKw? || t.PoutKw? || t.ReturnKw?
  }

  /** Where an expression should begin: an error, nothing emitted, and the token is gone. */
  method NoExpression(c: Compiler)
    requires c.Valid() && Foreign(c.p.cur)
    modifies c
    ensures c.p.flag && c.p.crashed == old(c.p.crashed) && c.p.pre == old(c.p.cur)
    ensures c.View() == old(c.View()).(p := c.p)
  {
    c.Expression(Lit(Null), []);
  }

  /** `1 =`, `1 !` and `1 elif`: an entry of the rule table with a precedence and no function. */
  method Dangling(c: Compiler, ghost x: real, ghost t: Token, ghost k: seq<Token>)
    requires c.Valid() && Sees(c.View(), [Number(x), t] + k) && (t.AssignOp? || t.Bang? || t.ElifKw?)
    modifies c
    ensures c.p.crashed
  {
    assert [c.p.cur] + c.p.rest == [Number(x)] + ([t] + k);
    assert c.p.cur == ([c.p.cur] + c.p.rest)[0] && c.p.rest == ([c.p.cur] + c.p.rest)[1..] == [t] + k;
    c.Expression(Lit(Null), []);
  }
}
