/** Every jump of a compiled chunk goes to the start of an instruction, and none was left
    unpatched. */
module Jumps {
  import opened Values
  import opened Syntax
  import opened Bytecode
  import opened Layout

  /** Reading instruction after instruction from `lo` arrives exactly at `hi`. */
  predicate Decodes(ch: Chunk, lo: nat, hi: nat)
    decreases hi - lo
  {
    lo == hi || (lo < hi <= |ch.code| && lo + Length(ch.code[lo]) <= hi && Decodes(ch, lo + Length(ch.code[lo]), hi))
  }

  /** `q` starts an instruction of the code between `lo` and `hi`, or ends it. */
  predicate Inside(ch: Chunk, lo: nat, q: nat, hi: nat) {
    lo <= q <= hi && Decodes(ch, lo, q) && Decodes(ch, q, hi)
  }

  predicate IsJump(op: Byte) {
    op == OP_JMP || op == OP_JMPF || op == OP_LOOP || op == OP_JMPL
  }

  /** The jump at `a` is patched and stays between `lo` and `hi`. */
  predicate JumpFine(ch: Chunk, a: nat, lo: nat, hi: nat)
    requires a + 3 <= |ch.code|
  {
    var op, d := ch.code[a], Operand(ch, a + 1);
    && d != 65535
    && (op == OP_JMP || op == OP_JMPF ==> Inside(ch, lo, a + 3 + d, hi))
    && (op == OP_LOOP ==> d <= a + 3 && Inside(ch, lo, a + 3 - d, hi))
    && (op == OP_JMPL ==> d < |ch.cases| && Inside(ch, lo, ch.cases[d], hi))
  }

  /** The code from `from` to `to` decodes, and its jumps stay between `lo` and `hi`. */
  predicate Good(ch: Chunk, from: nat, to: nat, lo: nat, hi: nat)
    decreases to - from
  {
    from == to ||
    (&& from < to <= |ch.code| && from + Length(ch.code[from]) <= to
     && (IsJump(ch.code[from]) ==> JumpFine(ch, from, lo, hi))
     && Good(ch, from + Length(ch.code[from]), to, lo, hi))
  }

  predicate CasesInside(ch: Chunk, nc: nat, n: nat, lo: nat, hi: nat) {
    nc + n <= |ch.cases| && forall k :: nc <= k < nc + n ==> Inside(ch, lo, ch.cases[k], hi)
  }

  // ---------------------------------------------------------------- joining

  lemma {:induction false} Join(ch: Chunk, a: nat, b: nat, c: nat)
    requires a <= b <= c && Decodes(ch, a, b) && Decodes(ch, b, c)
    ensures Decodes(ch, a, c)
    decreases b - a
  {
    if a < b && b < c {
      Join(ch, a + Length(ch.code[a]), b, c);
    }
  }

  lemma {:induction false} GoodDecodes(ch: Chunk, a: nat, b: nat, lo: nat, hi: nat)
    requires a <= b && Good(ch, a, b, lo, hi)
    ensures Decodes(ch, a, b)
    decreases b - a
  {
    hide JumpFine;
    if a < b {
      GoodDecodes(ch, a + Length(ch.code[a]), b, lo, hi);
    }
  }

  lemma {:induction false} GoodJoin(ch: Chunk, a: nat, b: nat, c: nat, lo: nat, hi: nat)
    requires a <= b <= c && Good(ch, a, b, lo, hi) && Good(ch, b, c, lo, hi)
    ensures Good(ch, a, c, lo, hi)
    decreases b - a
  {
    hide JumpFine;
    if a < b && b < c {
      GoodJoin(ch, a + Length(ch.code[a]), b, c, lo, hi);
    }
  }

  lemma WideInside(ch: Chunk, q: nat, lo: nat, hi: nat, lo': nat, hi': nat)
    requires Inside(ch, lo, q, hi) && lo' <= lo && hi <= hi' && Decodes(ch, lo', lo) && Decodes(ch, hi, hi')
    ensures Inside(ch, lo', q, hi')
  {
    Join(ch, lo', lo, q);
    Join(ch, q, hi, hi');
  }

  lemma {:induction false} Widen(ch: Chunk, a: nat, b: nat, lo: nat, hi: nat, lo': nat, hi': nat)
    requires a <= b && Good(ch, a, b, lo, hi) && lo' <= lo && hi <= hi' && Decodes(ch, lo', lo) && Decodes(ch, hi, hi')
    ensures Good(ch, a, b, lo', hi')
    decreases b - a
  {
    hide Inside, Decodes;
    if a < b {
      if IsJump(ch.code[a]) {
        var op, d := ch.code[a], Operand(ch, a + 1);
        if op == OP_JMP || op == OP_JMPF {
          WideInside(ch, a + 3 + d, lo, hi, lo', hi');
        } else if op == OP_LOOP {
          WideInside(ch, a + 3 - d, lo, hi, lo', hi');
        } else {
          WideInside(ch, ch.cases[d], lo, hi, lo', hi');
        }
      }
      Widen(ch, a + Length(ch.code[a]), b, lo, hi, lo', hi');
    }
  }

  lemma WideCases(ch: Chunk, nc: nat, n: nat, lo: nat, hi: nat, lo': nat, hi': nat)
    requires CasesInside(ch, nc, n, lo, hi) && lo' <= lo && hi <= hi' && Decodes(ch, lo', lo) && Decodes(ch, hi, hi')
    ensures CasesInside(ch, nc, n, lo', hi')
  {
    forall k | nc <= k < nc + n ensures Inside(ch, lo', ch.cases[k], hi') {
      WideInside(ch, ch.cases[k], lo, hi, lo', hi');
    }
  }

  /** Consecutive pieces of code decode together, from any boundary to any later one. */
  lemma {:induction false} Pieces(ch: Chunk, ps: seq<nat>, i: nat, j: nat)
    requires i <= j < |ps| && forall k :: i <= k < j ==> ps[k] <= ps[k + 1] && Decodes(ch, ps[k], ps[k + 1])
    ensures ps[i] <= ps[j] && Decodes(ch, ps[i], ps[j])
    decreases j - i
  {
    hide Decodes;
    if i == j {
      Here(ch, ps[i]);
    } else {
      Pieces(ch, ps, i + 1, j);
      Join(ch, ps[i], ps[i + 1], ps[j]);
    }
  }

  lemma Here(ch: Chunk, p: nat)
    ensures Decodes(ch, p, p)
  {
  }

  lemma {:induction false} GoodPieces(ch: Chunk, ps: seq<nat>, i: nat, lo: nat, hi: nat)
    requires i < |ps| && forall k :: i <= k < |ps| - 1 ==> ps[k] <= ps[k + 1] && Good(ch, ps[k], ps[k + 1], lo, hi)
    ensures ps[i] <= ps[|ps| - 1] && Good(ch, ps[i], ps[|ps| - 1], lo, hi)
    decreases |ps| - i
  {
    hide Good;
    if i == |ps| - 1 {
      GoodHere(ch, ps[i], lo, hi);
    } else {
      GoodPieces(ch, ps, i + 1, lo, hi);
      GoodJoin(ch, ps[i], ps[i + 1], ps[|ps| - 1], lo, hi);
    }
  }

  lemma GoodHere(ch: Chunk, p: nat, lo: nat, hi: nat)
    ensures Good(ch, p, p, lo, hi)
  {
  }

  /** All boundaries between pieces lie inside the whole. */
  lemma Boundaries(ch: Chunk, ps: seq<nat>)
    requires |ps| > 0 && forall k :: 0 <= k < |ps| - 1 ==> ps[k] <= ps[k + 1] && Decodes(ch, ps[k], ps[k + 1])
    ensures forall k :: 0 <= k < |ps| ==> Inside(ch, ps[0], ps[k], ps[|ps| - 1])
  {
    forall k | 0 <= k < |ps| ensures Inside(ch, ps[0], ps[k], ps[|ps| - 1]) {
      Pieces(ch, ps, 0, k);
      Pieces(ch, ps, k, |ps| - 1);
    }
  }

  // ------------------------------------------------------ single instructions

  lemma Plain(ch: Chunk, pc: nat, n: nat, lo: nat, hi: nat)
    requires pc < |ch.code| && n == Length(ch.code[pc]) && pc + n <= |ch.code| && !IsJump(ch.code[pc])
    ensures Good(ch, pc, pc + n, lo, hi)
  {
    GoodHere(ch, pc + n, lo, hi);
  }

  lemma Forward(ch: Chunk, pc: nat, op: Byte, d: nat, lo: nat, hi: nat)
    requires At3(ch, pc, op, d) && (op == OP_JMP || op == OP_JMPF) && d < 65535 && Inside(ch, lo, pc + 3 + d, hi)
    ensures Good(ch, pc, pc + 3, lo, hi)
  {
    hide Inside;
    GoodHere(ch, pc + 3, lo, hi);
  }

  lemma Backward(ch: Chunk, pc: nat, d: nat, lo: nat, hi: nat)
    requires At3(ch, pc, OP_LOOP, d) && d < 65535 && d <= pc + 3 && Inside(ch, lo, pc + 3 - d, hi)
    ensures Good(ch, pc, pc + 3, lo, hi)
  {
    hide Inside;
    GoodHere(ch, pc + 3, lo, hi);
  }

  lemma ByCase(ch: Chunk, pc: nat, k: nat, lo: nat, hi: nat)
    requires At3(ch, pc, OP_JMPL, k) && k < 65535 && k < |ch.cases| && Inside(ch, lo, ch.cases[k], hi)
    ensures Good(ch, pc, pc + 3, lo, hi)
  {
    hide Inside;
    GoodHere(ch, pc + 3, lo, hi);
  }

  lemma JumpDecodes(ch: Chunk, pc: nat, op: Byte, d: int)
    requires At3(ch, pc, op, d) && IsJump(op)
    ensures Decodes(ch, pc, pc + 3)
  {
    Here(ch, pc + 3);
  }

  // ------------------------------------------------------------- expressions

  lemma {:induction false} GoodE(e: Expr, names: seq<Name>, fns: Fns, ch: Chunk, pc: nat, lo: nat, hi: nat)
    requires LaidE(e, names, fns, ch, pc)
    ensures Good(ch, pc, pc + SizeE(e), lo, hi)
    decreases e, 1
  {
    hide Good, Newest, Target;
    match e
    case Lit(_) => Plain(ch, pc, 2, lo, hi);
    case Local(_) => Plain(ch, pc, 2, lo, hi);
    case FuncRef(_) => Plain(ch, pc, 2, lo, hi);
    case Assign(_, r) =>
      GoodE(r, names, fns, ch, pc, lo, hi);
      Plain(ch, pc + SizeE(r), 2, lo, hi);
      GoodJoin(ch, pc, pc + SizeE(r), pc + SizeE(e), lo, hi);
    case Compound(_, _, _) => GoodCompound(e, names, fns, ch, pc, lo, hi);
    case Neg(_, r) =>
      GoodE(r, names, fns, ch, pc, lo, hi);
      Plain(ch, pc + SizeE(r), 1, lo, hi);
      GoodJoin(ch, pc, pc + SizeE(r), pc + SizeE(e), lo, hi);
    case Paren(r) => GoodE(r, names, fns, ch, pc, lo, hi);
    case Bump(_, _, _) => GoodBump(e, names, fns, ch, pc, lo, hi);
    case Bin(_, _, _) => GoodBin(e, names, fns, ch, pc, lo, hi);
    case Call(_, _) => GoodCall(e, names, fns, ch, pc, lo, hi);
  }

  lemma GoodBump(e: Expr, names: seq<Name>, fns: Fns, ch: Chunk, pc: nat, lo: nat, hi: nat)
    requires e.Bump? && LaidE(e, names, fns, ch, pc)
    ensures Good(ch, pc, pc + SizeE(e), lo, hi)
  {
    hide Good, Newest;
    Plain(ch, pc, 2, lo, hi);
    Plain(ch, pc + 2, 1, lo, hi);
    Plain(ch, pc + 3, 2, lo, hi);
    GoodPieces(ch, [pc, pc + 2, pc + 3, pc + 5], 0, lo, hi);
  }

  lemma {:induction false} GoodBin(e: Expr, names: seq<Name>, fns: Fns, ch: Chunk, pc: nat, lo: nat, hi: nat)
    requires e.Bin? && LaidE(e, names, fns, ch, pc)
    ensures Good(ch, pc, pc + SizeE(e), lo, hi)
    decreases e, 0
  {
    hide *;
    var p := pc + SizeE(e.l);
    var q := p + SizeE(e.r);
    BinParts(e, names, fns, ch, pc);
    GoodE(e.l, names, fns, ch, pc, lo, hi);
    GoodE(e.r, names, fns, ch, p, lo, hi);
    PlainOp(ch, q, e.op, lo, hi);
    GoodJoin(ch, pc, p, q, lo, hi);
    GoodJoin(ch, pc, q, q + 1, lo, hi);
  }

  lemma BinParts(e: Expr, names: seq<Name>, fns: Fns, ch: Chunk, pc: nat)
    requires e.Bin? && LaidE(e, names, fns, ch, pc)
    ensures SizeE(e) == SizeE(e.l) + SizeE(e.r) + 1
    ensures LaidE(e.l, names, fns, ch, pc) && LaidE(e.r, names, fns, ch, pc + SizeE(e.l))
    ensures At1(ch, pc + SizeE(e.l) + SizeE(e.r), OpByte(e.op))
  {
    hide Newest, Target;
  }

  lemma PlainOp(ch: Chunk, pc: nat, op: BinOp, lo: nat, hi: nat)
    requires At1(ch, pc, OpByte(op))
    ensures Good(ch, pc, pc + 1, lo, hi)
  {
    hide Good;
    Plain(ch, pc, 1, lo, hi);
  }

  lemma {:induction false} GoodCall(e: Expr, names: seq<Name>, fns: Fns, ch: Chunk, pc: nat, lo: nat, hi: nat)
    requires e.Call? && LaidE(e, names, fns, ch, pc)
    ensures Good(ch, pc, pc + SizeE(e), lo, hi)
    decreases e, 0
  {
    hide Good, Newest, Decodes, Inside;
    var p := pc + SizeE(e.fn);
    var q := p + SizeArgs(e.args);
    GoodE(e.fn, names, fns, ch, pc, lo, hi);
    GoodArgs(e.args, names, fns, ch, p, lo, hi);
    Plain(ch, q, 2, lo, hi);
    GoodPieces(ch, [pc, p, q, q + 2], 0, lo, hi);
  }

  lemma {:induction false} GoodCompound(e: Expr, names: seq<Name>, fns: Fns, ch: Chunk, pc: nat, lo: nat, hi: nat)
    requires e.Compound? && LaidE(e, names, fns, ch, pc)
    ensures Good(ch, pc, pc + SizeE(e), lo, hi)
    decreases e, 0
  {
    hide Good, Newest, Target;
    var q := pc + 2 + SizeE(e.e);
    Plain(ch, pc, 2, lo, hi);
    GoodE(e.e, names, fns, ch, pc + 2, lo, hi);
    Plain(ch, q, 1, lo, hi);
    Plain(ch, q + 1, 2, lo, hi);
    GoodPieces(ch, [pc, pc + 2, q, q + 1, q + 3], 0, lo, hi);
  }

  lemma {:induction false} GoodArgs(es: Exprs, names: seq<Name>, fns: Fns, ch: Chunk, pc: nat, lo: nat, hi: nat)
    requires LaidArgs(es, names, fns, ch, pc)
    ensures Good(ch, pc, pc + SizeArgs(es), lo, hi)
    decreases es, 1
  {
    hide Good, LaidE, SizeE;
    match es
    case Nil => GoodHere(ch, pc, lo, hi);
    case Cons(e, t) =>
      GoodE(e, names, fns, ch, pc, lo, hi);
      GoodArgs(t, names, fns, ch, pc + SizeE(e), lo, hi);
      GoodJoin(ch, pc, pc + SizeE(e), pc + SizeArgs(es), lo, hi);
  }

  lemma {:induction false} GoodPout(es: Exprs, names: seq<Name>, fns: Fns, ch: Chunk, pc: nat, lo: nat, hi: nat)
    requires LaidPout(es, names, fns, ch, pc)
    ensures Good(ch, pc, pc + SizePout(es), lo, hi)
    decreases es, 1
  {
    hide Good, LaidE, SizeE;
    match es
    case Nil => GoodHere(ch, pc, lo, hi);
    case Cons(e, t) =>
      var q := pc + SizeE(e);
      GoodE(e, names, fns, ch, pc, lo, hi);
      Plain(ch, q, 1, lo, hi);
      GoodPout(t, names, fns, ch, q + 1, lo, hi);
      GoodJoin(ch, q, q + 1, pc + SizePout(es), lo, hi);
      GoodJoin(ch, pc, q, pc + SizePout(es), lo, hi);
  }

  lemma GoodPops(n: nat, ch: Chunk, pc: nat, lo: nat, hi: nat)
    requires LaidPops(n, ch, pc)
    ensures Good(ch, pc, pc + SizePops(n), lo, hi)
  {
    hide Good;
    if n == 0 {
      GoodHere(ch, pc, lo, hi);
    } else {
      Plain(ch, pc, SizePops(n), lo, hi);
    }
  }

  // -------------------------------------------------------------- statements

  /** The code from `pc` to `end` is good, with the cases it adds. */
  predicate Sealed(ch: Chunk, pc: nat, end: nat, nc: nat, n: nat) {
    pc <= end && Good(ch, pc, end, pc, end) && CasesInside(ch, nc, n, pc, end)
  }

  lemma SealedWide(ch: Chunk, pc: nat, end: nat, nc: nat, n: nat, lo: nat, hi: nat)
    requires Sealed(ch, pc, end, nc, n) && lo <= pc && end <= hi && Decodes(ch, lo, pc) && Decodes(ch, end, hi)
    ensures Good(ch, pc, end, lo, hi) && CasesInside(ch, nc, n, lo, hi)
  {
    Widen(ch, pc, end, pc, end, lo, hi);
    WideCases(ch, nc, n, pc, end, lo, hi);
  }

  lemma SealedDecodes(ch: Chunk, pc: nat, end: nat, nc: nat, n: nat)
    requires Sealed(ch, pc, end, nc, n)
    ensures Decodes(ch, pc, end)
  {
    GoodDecodes(ch, pc, end, pc, end);
  }

  lemma {:induction false} SealedS(s: Stmt, names: seq<Name>, fns: Fns, ch: Chunk, pc: nat, nc: nat)
    requires LaidS(s, names, fns, ch, pc, nc) && SizeS(s) < 65535 && |ch.cases| < 65536 && nc + IfsS(s) <= |ch.cases|
    ensures Sealed(ch, pc, pc + SizeS(s), nc, IfsS(s))
    decreases s, 1
  {
    hide Good, LaidE, SizeE, LaidPout, SizePout, Inside, LaidPops;
    var end := pc + SizeS(s);
    match s
    case Eval(e) => GoodE(e, names, fns, ch, pc, pc, end);
    case Pout(es) => GoodPout(es, names, fns, ch, pc, pc, end);
    case Return(e) =>
      GoodE(e, names, fns, ch, pc, pc, end);
      Plain(ch, pc + SizeE(e), 1, pc, end);
      GoodJoin(ch, pc, pc + SizeE(e), end, pc, end);
    case Back => Plain(ch, pc, 1, pc, end);
    case While(_, _) => SealedWhile(s, names, fns, ch, pc, nc);
    case If(_, _, _) => SealedIf(s, names, fns, ch, pc, nc);
    case Block(ds) =>
      var q := pc + SizeD(ds);
      SealedD(ds, names, fns, ch, pc, nc);
      GoodPops(|Declared(ds)|, ch, q, pc, end);
      GoodDecodes(ch, q, end, pc, end);
      Here(ch, pc);
      SealedWide(ch, pc, q, nc, IfsD(ds), pc, end);
      GoodJoin(ch, pc, q, end, pc, end);
    case For(_, _, _, _) => SealedFor(s, names, fns, ch, pc, nc);
  }

  lemma {:induction false} SealedWhile(s: Stmt, names: seq<Name>, fns: Fns, ch: Chunk, pc: nat, nc: nat)
    requires s.While? && LaidS(s, names, fns, ch, pc, nc) && SizeS(s) < 65535 && |ch.cases| < 65536
             && nc + IfsS(s) <= |ch.cases|
    ensures Sealed(ch, pc, pc + SizeS(s), nc, IfsS(s))
    decreases s, 0
  {
    hide Good, LaidE, SizeE, Decodes, CasesInside;
    var j, end := pc + SizeE(s.c), pc + SizeS(s);
    var k := j + 3 + SizeS(s.body);
    GoodE(s.c, names, fns, ch, pc, pc, end);
    SealedS(s.body, names, fns, ch, j + 3, nc);
    GoodDecodes(ch, pc, j, pc, end);
    JumpDecodes(ch, j, OP_JMPF, SizeS(s.body) + 3);
    SealedDecodes(ch, j + 3, k, nc, IfsS(s.body));
    JumpDecodes(ch, k, OP_LOOP, SizeS(s));
    var ps := [pc, j, j + 3, k, end];
    Boundaries(ch, ps);
    assert Inside(ch, ps[0], ps[0], ps[4]) && Inside(ch, ps[0], ps[2], ps[4]) && Inside(ch, ps[0], ps[3], ps[4])
           && Inside(ch, ps[0], ps[4], ps[4]);
    Forward(ch, j, OP_JMPF, SizeS(s.body) + 3, pc, end);
    Backward(ch, k, SizeS(s), pc, end);
    SealedWide(ch, j + 3, k, nc, IfsS(s.body), pc, end);
    GoodPieces(ch, ps, 0, pc, end);
  }

  lemma IfParts(s: Stmt, names: seq<Name>, fns: Fns, ch: Chunk, pc: nat, nc: nat)
    requires s.If? && LaidS(s, names, fns, ch, pc, nc)
    ensures
      var j, k := pc + SizeE(s.c), pc + SizeE(s.c) + 3 + SizeS(s.then_);
      && LaidE(s.c, names, fns, ch, pc) && At3(ch, j, OP_JMPF, SizeS(s.then_) + 3)
      && LaidS(s.then_, names, fns, ch, j + 3, nc) && At3(ch, k, OP_JMP, SizeArms(s.arms))
      && LaidArms(s.arms, names, fns, ch, k + 3, nc + IfsS(s.then_))
    ensures SizeS(s) == SizeE(s.c) + 3 + SizeS(s.then_) + 3 + SizeArms(s.arms)
            && IfsS(s) == IfsS(s.then_) + IfsArms(s.arms) + 1
    ensures nc + IfsS(s) <= |ch.cases| && ch.cases[nc + IfsS(s) - 1] == pc + SizeS(s)
  {
    hide LaidE, SizeE, LaidArms, SizeArms, IfsArms, At3;
  }

  lemma {:induction false} SealedIf(s: Stmt, names: seq<Name>, fns: Fns, ch: Chunk, pc: nat, nc: nat)
    requires s.If? && LaidS(s, names, fns, ch, pc, nc) && SizeS(s) < 65535 && |ch.cases| < 65536
             && nc + IfsS(s) <= |ch.cases|
    ensures Sealed(ch, pc, pc + SizeS(s), nc, IfsS(s))
    decreases s, 0
  {
    hide Good, LaidE, SizeE, Decodes, LaidArms, SizeArms, IfsArms, Inside, At3, LaidS, SizeS, IfsS;
    IfParts(s, names, fns, ch, pc, nc);
    var j, end := pc + SizeE(s.c), pc + SizeS(s);
    var k := j + 3 + SizeS(s.then_);
    GoodE(s.c, names, fns, ch, pc, pc, end);
    SealedS(s.then_, names, fns, ch, j + 3, nc);
    SealedArms(s.arms, names, fns, ch, k + 3, nc + IfsS(s.then_));
    GoodDecodes(ch, pc, j, pc, end);
    JumpDecodes(ch, j, OP_JMPF, SizeS(s.then_) + 3);
    SealedDecodes(ch, j + 3, k, nc, IfsS(s.then_));
    JumpDecodes(ch, k, OP_JMP, SizeArms(s.arms));
    SealedDecodes(ch, k + 3, end, nc + IfsS(s.then_), IfsArms(s.arms));
    var ps := [pc, j, j + 3, k, k + 3, end];
    Boundaries(ch, ps);
    Spread6(ch, ps);
    Forward(ch, j, OP_JMPF, SizeS(s.then_) + 3, pc, end);
    Forward(ch, k, OP_JMP, SizeArms(s.arms), pc, end);
    SealedWide(ch, j + 3, k, nc, IfsS(s.then_), pc, end);
    SealedWide(ch, k + 3, end, nc + IfsS(s.then_), IfsArms(s.arms), pc, end);
    GoodPieces(ch, ps, 0, pc, end);
  }

  lemma Spread6(ch: Chunk, ps: seq<nat>)
    requires |ps| == 6 && forall k :: 0 <= k < |ps| ==> Inside(ch, ps[0], ps[k], ps[5])
    ensures Inside(ch, ps[0], ps[4], ps[5]) && Inside(ch, ps[0], ps[5], ps[5])
    ensures Decodes(ch, ps[0], ps[2]) && Decodes(ch, ps[3], ps[5]) && Decodes(ch, ps[0], ps[4])
            && Decodes(ch, ps[5], ps[5])
  {
    hide Decodes;
    assert Inside(ch, ps[0], ps[2], ps[5]) && Inside(ch, ps[0], ps[3], ps[5]) && Inside(ch, ps[0], ps[4], ps[5])
           && Inside(ch, ps[0], ps[5], ps[5]);
  }

  lemma {:induction false} SealedArms(a: Arms, names: seq<Name>, fns: Fns, ch: Chunk, pc: nat, nc: nat)
    requires LaidArms(a, names, fns, ch, pc, nc) && SizeArms(a) < 65535 && |ch.cases| < 65536
    requires nc + IfsArms(a) < |ch.cases| && ch.cases[nc + IfsArms(a)] == pc + SizeArms(a)
    ensures Sealed(ch, pc, pc + SizeArms(a), nc, IfsArms(a))
    decreases a, 1
  {
    hide Good, LaidE, SizeE, LaidS, SizeS, IfsS;
    match a
    case End => GoodHere(ch, pc, pc, pc);
    case Else(s) => SealedS(s, names, fns, ch, pc, nc);
    case Elif(_, _, _) => SealedElif(a, names, fns, ch, pc, nc);
  }

  lemma {:induction false} SealedElif(a: Arms, names: seq<Name>, fns: Fns, ch: Chunk, pc: nat, nc: nat)
    requires a.Elif? && LaidArms(a, names, fns, ch, pc, nc) && SizeArms(a) < 65535 && |ch.cases| < 65536
    requires nc + IfsArms(a) < |ch.cases| && ch.cases[nc + IfsArms(a)] == pc + SizeArms(a)
    ensures Sealed(ch, pc, pc + SizeArms(a), nc, IfsArms(a))
    decreases a, 0
  {
    hide Good, LaidE, SizeE, LaidS, SizeS, IfsS, Decodes, Inside, At3, Operand;
    var j, end := pc + SizeE(a.c), pc + SizeArms(a);
    var k := j + 3 + SizeS(a.s);
    var nc' := nc + IfsS(a.s);
    GoodE(a.c, names, fns, ch, pc, pc, end);
    SealedS(a.s, names, fns, ch, j + 3, nc);
    SealedArms(a.rest, names, fns, ch, k + 3, nc');
    GoodDecodes(ch, pc, j, pc, end);
    JumpDecodes(ch, j, OP_JMPF, SizeS(a.s) + 3);
    SealedDecodes(ch, j + 3, k, nc, IfsS(a.s));
    JumpDecodes(ch, k, OP_JMPL, nc');
    SealedDecodes(ch, k + 3, end, nc', IfsArms(a.rest));
    var ps := [pc, j, j + 3, k, k + 3, end];
    Boundaries(ch, ps);
    Spread6(ch, ps);
    SealedWide(ch, j + 3, k, nc, IfsS(a.s), pc, end);
    SealedWide(ch, k + 3, end, nc', IfsArms(a.rest), pc, end);
    assert Inside(ch, pc, ch.cases[nc'], end) by {
      hide LaidArms, SizeArms;
    }
    Forward(ch, j, OP_JMPF, SizeS(a.s) + 3, pc, end);
    ByCase(ch, k, nc', pc, end);
    GoodPieces(ch, ps, 0, pc, end);
  }

  lemma {:induction false} SealedD(ds: Decls, names: seq<Name>, fns: Fns, ch: Chunk, pc: nat, nc: nat)
    requires LaidD(ds, names, fns, ch, pc, nc) && SizeD(ds) < 65535 && |ch.cases| < 65536 && nc + IfsD(ds) <= |ch.cases|
    ensures Sealed(ch, pc, pc + SizeD(ds), nc, IfsD(ds))
    decreases ds, 0
  {
    hide Good, LaidE, SizeE, LaidS, SizeS, IfsS, Decodes, Inside;
    var end := pc + SizeD(ds);
    match ds
    case Done => GoodHere(ch, pc, pc, pc);
    case Then(Var(x, e), t) =>
      var q := pc + SizeE(e);
      GoodE(e, names + [x], fns, ch, pc, pc, end);
      Plain(ch, q, 2, pc, end);
      GoodJoin(ch, pc, q, q + 2, pc, end);
      GoodDecodes(ch, pc, q + 2, pc, end);
      SealedD(t, names + [x], fns, ch, q + 2, nc);
      Here(ch, end);
      SealedWide(ch, q + 2, end, nc, IfsD(t), pc, end);
      GoodJoin(ch, pc, q + 2, end, pc, end);
    case Then(Do(s), t) =>
      var q := pc + SizeS(s);
      SealedS(s, names, fns, ch, pc, nc);
      SealedD(t, names, fns, ch, q, nc + IfsS(s));
      SealedDecodes(ch, pc, q, nc, IfsS(s));
      SealedDecodes(ch, q, end, nc + IfsS(s), IfsD(t));
      Here(ch, pc);
      Here(ch, end);
      SealedWide(ch, pc, q, nc, IfsS(s), pc, end);
      SealedWide(ch, q, end, nc + IfsS(s), IfsD(t), pc, end);
      GoodJoin(ch, pc, q, end, pc, end);
  }

  // ----------------------------------------------------------------- `for`

  lemma InitGood(i: OptVar, names: seq<Name>, fns: Fns, ch: Chunk, pc: nat, slot: nat, lo: nat, hi: nat)
    requires i.SomeVar? ==> LaidE(i.e, names, fns, ch, pc) && At2(ch, pc + SizeE(i.e), OP_SET_LOCAL, slot)
    ensures Good(ch, pc, pc + SizeInit(i), lo, hi)
  {
    hide Good, LaidE, SizeE;
    if i.SomeVar? {
      GoodE(i.e, names, fns, ch, pc, lo, hi);
      Plain(ch, pc + SizeE(i.e), 2, lo, hi);
      GoodJoin(ch, pc, pc + SizeE(i.e), pc + SizeInit(i), lo, hi);
    } else {
      GoodHere(ch, pc, lo, hi);
    }
  }

  lemma CondDecodes(c: OptExpr, names: seq<Name>, fns: Fns, ch: Chunk, pc: nat, d: nat)
    requires LaidCond(c, names, fns, ch, pc, d)
    ensures Decodes(ch, pc, pc + SizeCond(c))
  {
    hide Good, LaidE, SizeE, Decodes;
    if c.SomeExpr? {
      var q := pc + SizeE(c.e);
      GoodE(c.e, names, fns, ch, pc, pc, q);
      GoodDecodes(ch, pc, q, pc, q);
      JumpDecodes(ch, q, OP_JMPF, d);
      Join(ch, pc, q, q + 3);
    } else {
      Here(ch, pc);
    }
  }

  lemma CondGood(c: OptExpr, names: seq<Name>, fns: Fns, ch: Chunk, pc: nat, d: nat, lo: nat, hi: nat)
    requires LaidCond(c, names, fns, ch, pc, d) && d < 65535 && Inside(ch, lo, pc + SizeCond(c) + d, hi)
    ensures Good(ch, pc, pc + SizeCond(c), lo, hi)
  {
    hide Good, LaidE, SizeE, Inside;
    if c.SomeExpr? {
      var q := pc + SizeE(c.e);
      GoodE(c.e, names, fns, ch, pc, lo, hi);
      Forward(ch, q, OP_JMPF, d, lo, hi);
      GoodJoin(ch, pc, q, q + 3, lo, hi);
    } else {
      GoodHere(ch, pc, lo, hi);
    }
  }

  /** Where the increment itself starts. */
  function IncStart(n: OptExpr, pc: nat): nat {
    if n.SomeExpr? then pc + 3 else pc
  }

  lemma IncDecodes(n: OptExpr, names: seq<Name>, fns: Fns, ch: Chunk, pc: nat, back: nat)
    requires LaidInc(n, names, fns, ch, pc, back)
    ensures Decodes(ch, pc, IncStart(n, pc)) && Decodes(ch, IncStart(n, pc), pc + SizeInc(n))
  {
    hide Good, LaidE, SizeE, Decodes;
    Here(ch, pc);
    if n.SomeExpr? {
      var q := pc + 3 + SizeE(n.e);
      JumpDecodes(ch, pc, OP_JMP, SizeE(n.e) + 4);
      GoodE(n.e, names, fns, ch, pc + 3, pc, q);
      Plain(ch, q, 1, pc, q);
      GoodJoin(ch, pc + 3, q, q + 1, pc, q);
      GoodDecodes(ch, pc + 3, q + 1, pc, q);
      JumpDecodes(ch, q + 1, OP_LOOP, back + 3 + SizeE(n.e) + 1 + 3);
      Join(ch, pc + 3, q + 1, q + 4);
    }
  }

  lemma IncGood(n: OptExpr, names: seq<Name>, fns: Fns, ch: Chunk, pc: nat, back: nat, lo: nat, hi: nat)
    requires LaidInc(n, names, fns, ch, pc, back) && back + SizeInc(n) < 65535 && back <= pc
    requires Inside(ch, lo, pc + SizeInc(n), hi) && Inside(ch, lo, pc - back, hi)
    ensures Good(ch, pc, pc + SizeInc(n), lo, hi)
  {
    hide Good, LaidE, SizeE, Inside;
    if n.SomeExpr? {
      var q := pc + 3 + SizeE(n.e);
      Forward(ch, pc, OP_JMP, SizeE(n.e) + 4, lo, hi);
      GoodE(n.e, names, fns, ch, pc + 3, lo, hi);
      Plain(ch, q, 1, lo, hi);
      Backward(ch, q + 1, back + SizeInc(n), lo, hi);
      GoodPieces(ch, [pc, pc + 3, q, q + 1, q + 4], 0, lo, hi);
    } else {
      GoodHere(ch, pc, lo, hi);
    }
  }

  /** The places a `for` is made of. */
  function ForPlaces(s: Stmt, pc: nat): (ps: seq<nat>)
    requires s.For?
    ensures |ps| == 8
  {
    var q := pc + SizeInit(s.init);
    var r := q + SizeCond(s.cond);
    var t := r + SizeInc(s.inc);
    var u := t + SizeS(s.body);
    [pc, q, r, IncStart(s.inc, r), t, u, u + 3, pc + SizeS(s)]
  }

  lemma {:induction false} ForDecodes(s: Stmt, names: seq<Name>, fns: Fns, ch: Chunk, pc: nat, nc: nat)
    requires s.For? && LaidS(s, names, fns, ch, pc, nc)
    requires Sealed(ch, ForPlaces(s, pc)[4], ForPlaces(s, pc)[5], nc, IfsS(s))
    ensures var ps := ForPlaces(s, pc); forall k :: 0 <= k < 8 ==> Inside(ch, ps[0], ps[k], ps[7])
    decreases s, 0
  {
    hide Good, LaidE, SizeE, Decodes, Inside, Sealed, LaidCond, LaidInc, LaidPops;
    var ps := ForPlaces(s, pc);
    var inner := match s.init case NoVar => names case SomeVar(x, _) => names + [x];
    InitGood(s.init, inner, fns, ch, pc, |names|, pc, pc);
    GoodDecodes(ch, pc, ps[1], pc, pc);
    CondDecodes(s.cond, inner, fns, ch, ps[1], SizeInc(s.inc) + SizeS(s.body) + 3);
    IncDecodes(s.inc, inner, fns, ch, ps[2], SizeCond(s.cond));
    SealedDecodes(ch, ps[4], ps[5], nc, IfsS(s));
    JumpDecodes(ch, ps[5], OP_LOOP, BackFor(s.cond, s.inc, s.body));
    GoodPops(InitCount(s.init), ch, ps[6], pc, pc);
    GoodDecodes(ch, ps[6], ps[7], pc, pc);
    Boundaries(ch, ps);
  }

  lemma {:induction false} SealedFor(s: Stmt, names: seq<Name>, fns: Fns, ch: Chunk, pc: nat, nc: nat)
    requires s.For? && LaidS(s, names, fns, ch, pc, nc) && SizeS(s) < 65535 && |ch.cases| < 65536
             && nc + IfsS(s) <= |ch.cases|
    ensures Sealed(ch, pc, pc + SizeS(s), nc, IfsS(s))
    decreases s, 0
  {
    hide Good, LaidE, SizeE, Decodes, LaidCond, LaidInc, LaidPops, CasesInside, At3, Operand;
    var ps := ForPlaces(s, pc);
    var inner := match s.init case NoVar => names case SomeVar(x, _) => names + [x];
    SealedS(s.body, inner, fns, ch, ps[4], nc);
    ForDecodes(s, names, fns, ch, pc, nc);
    ForGood(s, names, inner, fns, ch, pc, nc, ps);
    assert Inside(ch, pc, ps[4], ps[7]) && Inside(ch, pc, ps[5], ps[7]);
    SealedWide(ch, ps[4], ps[5], nc, IfsS(s.body), pc, ps[7]);
    GoodPieces(ch, [pc, ps[1], ps[2], ps[4], ps[5], ps[6], ps[7]], 0, pc, ps[7]);
  }

  /** The pieces of a `for` other than its body. */
  lemma ForGood(s: Stmt, names: seq<Name>, inner: seq<Name>, fns: Fns, ch: Chunk, pc: nat, nc: nat, ps: seq<nat>)
    requires s.For? && LaidS(s, names, fns, ch, pc, nc) && SizeS(s) < 65535 && ps == ForPlaces(s, pc)
    requires inner == match s.init case NoVar => names case SomeVar(x, _) => names + [x]
    requires forall k :: 0 <= k < 8 ==> Inside(ch, ps[0], ps[k], ps[7])
    ensures Good(ch, pc, ps[1], pc, ps[7]) && Good(ch, ps[1], ps[2], pc, ps[7]) && Good(ch, ps[2], ps[4], pc, ps[7])
    ensures Good(ch, ps[5], ps[6], pc, ps[7]) && Good(ch, ps[6], ps[7], pc, ps[7])
  {
    hide Good, LaidE, SizeE, Inside, LaidCond, LaidInc, LaidPops, At3, Operand;
    var end := ps[7];
    assert Inside(ch, pc, ps[1], end) && Inside(ch, pc, ps[3], end) && Inside(ch, pc, ps[4], end)
           && Inside(ch, pc, ps[6], end);
    InitGood(s.init, inner, fns, ch, pc, |names|, pc, end);
    CondGood(s.cond, inner, fns, ch, ps[1], SizeInc(s.inc) + SizeS(s.body) + 3, pc, end);
    IncGood(s.inc, inner, fns, ch, ps[2], SizeCond(s.cond), pc, end);
    Backward(ch, ps[5], BackFor(s.cond, s.inc, s.body), pc, end);
    GoodPops(InitCount(s.init), ch, ps[6], pc, end);
  }
}
