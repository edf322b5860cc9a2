/** Programs written out token by token, and what they print. */
module Examples {
  import opened Values
  import opened Syntax
  import opened Bytecode
  import opened Layout
  import opened Semantics
  import opened ExprSimulation
  import opened Simulation
  import opened Emission
  import opened Spine
  import opened StmtEmission
  import opened Recovery
  import opened Functions
  import opened Cases
  import opened Scripts
  import opened Preservation
  import opened Fragment
  import opened Precedence
  import Compilation
  import Interpreter
  import M = Machine
  import T = Tables

  /** The run ended with this output, or the turns, the stack or the frames did not suffice. */
  predicate Prints(status: M.Status, out: seq<Element>, expected: seq<Element>) {
    status in {M.Running, M.StackFull, M.FramesFull} || (status == M.Finished && out == expected)
  }

  /** A script that `Interpret` runs through, and its output. */
  ghost predicate Runs(items: seq<Item>, tokens: seq<Token>, blank: Name, natives: seq<Name>, out: Output, fuel: nat) {
    && tokens == PrintItems(items)
    && ScriptFits(items, blank, |natives|) && ModestScript(items, blank) && High(items)
    && Compilation.NewNames(items, natives) && Compilation.Bearable(items, |natives|)
    && var r := RunItems(items, 0, blank, [Closure(FunCount(items))], [], fuel);
       r == SStop(Timeout) || (r.Norm? && r.out == out)
  }

  // ------------------------------------------------------------ one statement

  lemma OneItem(x: Item, blank: Name, obj: nat)
    requires x.Stat?
    ensures
      var items := [x];
      && SizeItems(items) == SizeS(x.s) && LitsItems(items) == LitsS(x.s) && IfsItems(items) == IfsS(x.s)
      && FunCount(items) == 0 && SpotOf(items, 0, blank, obj) == Spot([Variable(blank, 0)], map[], obj, 0, 0, 0)
      && CasesItems(items) == CasesS(x.s, 0)
  {
    hide SizeS, LitsS, IfsS, CasesS;
    var none: seq<Item> := [];
    assert [x][..0] == none;
    assert Blanks(blank, 0) == [Variable(blank, 0)];
    assert SizeItems(none) == 0 && LitsItems(none) == [] && IfsItems(none) == 0;
    assert CasesItems(none) == [];
  }

  lemma TwoItems(x: Item, y: Item, blank: Name, obj: nat)
    requires x.Stat? && y.Stat?
    ensures
      var items := [x, y];
      && SizeItems(items) == SizeS(x.s) + SizeS(y.s) && LitsItems(items) == LitsS(x.s) + LitsS(y.s)
      && IfsItems(items) == IfsS(x.s) + IfsS(y.s) && FunCount(items) == 0
      && items[..0] == [] && items[..1] == [x] && SizeItems([]) == 0 && SizeItems([x]) == SizeS(x.s)
      && SpotOf(items, 0, blank, obj) == Spot([Variable(blank, 0)], map[], obj, 0, 0, 0)
      && SpotOf(items, 1, blank, obj) == Spot([Variable(blank, 0)], map[], obj, 0, SizeS(x.s), IfsS(x.s))
      && FunCount(items[..0]) == 0 && FunCount(items[..1]) == 0
      && |CasesItems(items)| == IfsS(x.s) + IfsS(y.s)
  {
    hide SizeS, LitsS, IfsS, CasesS;
    var items := [x, y];
    OneItem(x, blank, obj);
    OneItem(y, blank, obj);
    assert items[..1] == [x] && items[..|items| - 1] == [x];
    var none: seq<Item> := [];
    assert [x][..0] == none && items[..0] == none;
    assert Blanks(blank, 0) == [Variable(blank, 0)];
    assert FnsOf([x], obj) == map[];
  }

  /** A function, and a statement without variables. */
  lemma OneFunction(f: Name, d: FunDef, s: Stmt, blank: Name, natives: seq<Name>)
    requires f !in natives && |natives| <= 11
    requires FnFits(d, map[f := |natives|]) && ModestD(d.body, 2 * |d.params|) && IfsD(d.body) <= 16
    requires ResolvesS(s, Blanks(blank, 1), 0, map[f := |natives|], false) && NoLocals(s)
    requires Modest(s, 3) && SizeS(s) < 1000 && |LitsS(s)| <= 250 && IfsS(s) <= 16
    ensures var items := [Fun(f, d), Stat(s, Whole)];
            && ScriptFits(items, blank, |natives|) && ModestScript(items, blank) && High(items) && FunCount(items) == 1
            && Compilation.NewNames(items, natives) && Compilation.Bearable(items, |natives|)
  {
    hide ResolvesS, Modest, ModestD, SizeS, LitsS, IfsS, CasesS, CasesD, Spills, FnFits, NoLocals;
    var items := [Fun(f, d), Stat(s, Whole)];
    FunctionItems(f, d, s, blank, |natives|);
    FewCases(CasesItems(items));
    FewCases(CasesD(d.body, 2 * |d.params|));
    hide SizeItems, LitsItems, IfsItems, CasesItems, FunCount, SpotOf, FnsOf, PrintItems;
    forall i | 0 <= i < 2 ensures EndFits(items, i) && ItemFits(items[i], SpotOf(items, i, blank, |natives|))
                                  && ModestItem(items, i, blank) {
    }
  }

  lemma FunctionItems(f: Name, d: FunDef, s: Stmt, blank: Name, obj: nat)
    ensures
      var items := [Fun(f, d), Stat(s, Whole)];
      && items[..0] == [] && items[..1] == [Fun(f, d)]
      && SizeItems(items) == 3 + SizeS(s) && |LitsItems(items)| == 1 + |LitsS(s)| && IfsItems(items) == IfsS(s)
      && FunCount(items) == 1 && |CasesItems(items)| == IfsS(s) && SizeItems(items[..1]) == 3
      && FnsOf(items[..1], obj) == map[f := obj] && DefsOf(items[..1]) == [d]
      && SpotOf(items, 0, blank, obj) == Spot([Variable(blank, 0)], map[], obj, 0, 0, 0)
      && SpotOf(items, 1, blank, obj) == Spot(Blanks(blank, 1), map[f := obj], obj + 1, 1, 3, 0)
  {
    hide SizeS, LitsS, IfsS, CasesS;
    var items, first, none: seq<Item> := [Fun(f, d), Stat(s, Whole)], [Fun(f, d)], [];
    assert items[..1] == first && items[..|items| - 1] == first && first[..0] == none && items[..0] == none
           && first[..|first| - 1] == none;
    assert Blanks(blank, 0) == [Variable(blank, 0)];
    assert SizeItems(none) == 0 && LitsItems(none) == [] && IfsItems(none) == 0 && FunCount(none) == 0
           && FnsOf(none, obj) == map[] && DefsOf(none) == [];
    assert SizeItems(first) == 3 && |LitsItems(first)| == 1 && IfsItems(first) == 0 && FunCount(first) == 1;
    assert FnsOf(first, obj) == map[][f := obj] && DefsOf(first) == [] + [d];
  }

  lemma FunctionMeans(f: Name, d: FunDef, s: Stmt, blank: Name, c: Element, r: SR, fuel: nat)
    requires Exec(Program([d], map[f := 0]), s, [blank], [c], [], fuel) == r
    ensures var items := [Fun(f, d), Stat(s, Whole)];
            && (r.Norm? ==> RunItems(items, 0, blank, [c], [], fuel) == r)
            && (r == SStop(Timeout) ==> RunItems(items, 0, blank, [c], [], fuel) == r)
  {
    hide Exec;
    var items := [Fun(f, d), Stat(s, Whole)];
    FunctionItems(f, d, s, blank, 0);
    assert Known(items, 1) == Program([d], map[f := 0]);
    if r.Norm? {
      assert RunItems(items, 2, blank, r.vals, r.out, fuel) == Norm(r.vals, r.out);
    }
    assert RunItems(items, 0, blank, [c], [], fuel) == RunItems(items, 1, blank, [c], [], fuel);
  }

  lemma FunctionPrinted(f: Name, d: FunDef, s: Stmt)
    ensures PrintItems([Fun(f, d), Stat(s, Whole)]) == [FuncKw, Id(f)] + PrintFn(d, PrintS(s, [Eof]))
  {
    hide PrintS, PrintFn;
    assert [Fun(f, d), Stat(s, Whole)][1..] == [Stat(s, Whole)];
    OnePrinted(s);
  }

  /** A script of one statement. */
  lemma OneStatement(s: Stmt, blank: Name, natives: seq<Name>)
    requires ResolvesS(s, [Variable(blank, 0)], 0, map[], false) && Modest(s, 0)
    requires SizeS(s) < 32767 && |LitsS(s)| <= 256 && IfsS(s) <= 16 && |natives| <= 12
    ensures var items := [Stat(s, Whole)];
            && ScriptFits(items, blank, |natives|) && ModestScript(items, blank) && High(items)
            && Compilation.NewNames(items, natives) && Compilation.Bearable(items, |natives|)
  {
    hide ResolvesS, Modest, SizeS, LitsS, IfsS, CasesS, Spills;
    var items := [Stat(s, Whole)];
    OneItem(items[0], blank, |natives|);
    FewCases(CasesS(s, 0));
    assert items[..0] == [];
  }

  lemma OnePrinted(s: Stmt)
    ensures PrintItems([Stat(s, Whole)]) == PrintS(s, [Eof])
  {
    hide PrintS;
    assert [Stat(s, Whole)][1..] == [];
  }

  lemma OneMeans(s: Stmt, blank: Name, c: Element, out: Output, fuel: nat)
    requires Exec(Program([], map[]), s, [blank], [c], [], fuel) == Norm([c], out)
    ensures RunItems([Stat(s, Whole)], 0, blank, [c], [], fuel) == Norm([c], out)
  {
    hide Exec;
    var items := [Stat(s, Whole)];
    assert items[..0] == [];
    assert Known(items, 0) == Program([], map[]);
    assert RunItems(items, 1, blank, [c], out, fuel) == Norm([c], out);
  }

  // ------------------------------------------------------------------- `pout`

  lemma PoutOne(e: Expr, ts: seq<Token>, code: seq<Instr>, locals: seq<Variable>, fns: Fns, k: seq<Token>)
    requires Spells(e, PREC_ASSIGNMENT, ts, code, Names(locals), fns) && SoundE(e)
    ensures var s := Pout(Cons(e, Nil));
            && PrintS(s, k) == [PoutKw, LParen] + ts + [RParen, Semi] + k && ResolvesS(s, locals, 0, fns, false)
            && Modest(s, 0) && SizeS(s) == SizeE(e) + 1 && LitsS(s) == LitsE(e) && IfsS(s) == 0
  {
    hide Print, LitsE, ResolvesE, Postfix, SizeE;
    var es := Cons(e, Nil);
    assert PrintArgs(es, [RParen] + ([Semi] + k)) == ts + ([RParen] + ([Semi] + k));
    assert ResolvesArgs(Nil, Names(locals), fns) && SoundArgs(Nil);
    assert SizePout(Nil) == 0 && LitsArgs(Nil) == [] && LitsE(e) + [] == LitsE(e);
  }

  lemma PoutMeans(p: Program, e: Expr, names: seq<Name>, vals: Vals, out: Output, fuel: nat, v: Element)
    requires EvalE(p, e, names, vals, out, fuel) == Val(v, vals, out)
    ensures Exec(p, Pout(Cons(e, Nil)), names, vals, out, fuel) == Norm(vals, out + [v])
  {
    hide EvalE;
    assert ExecPout(p, Nil, names, vals, out + [v], fuel) == Norm(vals, out + [v]);
  }

  lemma Evaluates(p: Program, op: BinOp, l: Expr, r: Expr, names: seq<Name>, vals: Vals, out: Output, fuel: nat,
                  x: Element, y: Element, v: Element)
    requires EvalE(p, l, names, vals, out, fuel) == Val(x, vals, out)
    requires EvalE(p, r, names, vals, out, fuel) == Val(y, vals, out) && BinValue(op, x, y) == Fine(v)
    ensures EvalE(p, Bin(op, l, r), names, vals, out, fuel) == Val(v, vals, out)
  {
    hide BinValue;
  }

  lemma Numeric(p: Program, x: real, names: seq<Name>, vals: Vals, out: Output, fuel: nat)
    ensures EvalE(p, Leaf(Number(x)), names, vals, out, fuel) == Val(Num(x), vals, out)
    ensures SoundE(Leaf(Number(x))) && SizeE(Leaf(Number(x))) == 2 && |LitsE(Leaf(Number(x)))| == 1
  {
  }

  // ---------------------------------------------------------- `pout(a + b * c);`

  function Sum(a: real, b: real, c: real): Expr {
    Bin(Add, Leaf(Number(a)), Bin(Mul, Leaf(Number(b)), Leaf(Number(c))))
  }

  lemma SumSizes(a: real, b: real, c: real)
    ensures SizeE(Sum(a, b, c)) == 8 && |LitsE(Sum(a, b, c))| == 3 && SoundE(Sum(a, b, c))
  {
    var m := Bin(Mul, Leaf(Number(b)), Leaf(Number(c)));
    assert SoundE(m.l) && SoundE(m.r);
    assert SizeE(m) == 5 && |LitsE(m)| == 2 && SoundE(m);
  }

  lemma Product(b: real, c: real, a: real)
    requires a == b * c
    ensures BinValue(Mul, Num(b), Num(c)) == Fine(Num(a))
  {
    var r := BinValue(Mul, Num(b), Num(c));
    assert r.v.num == b * c;
  }

  lemma SumMeans(a: real, b: real, c: real, blank: Name, v: Element, fuel: nat)
    ensures EvalE(Program([], map[]), Sum(a, b, c), [blank], [v], [], fuel) == Val(Num(a + b * c), [v], [])
  {
    var p, x, y, z := Program([], map[]), Leaf(Number(a)), Leaf(Number(b)), Leaf(Number(c));
    Numeric(p, a, [blank], [v], [], fuel);
    Numeric(p, b, [blank], [v], [], fuel);
    Numeric(p, c, [blank], [v], [], fuel);
    Product(b, c, b * c);
    Evaluates(p, Mul, y, z, [blank], [v], [], fuel, Num(b), Num(c), Num(b * c));
    Evaluates(p, Add, x, Bin(Mul, y, z), [blank], [v], [], fuel, Num(a), Num(b * c), Num(a + b * c));
  }

  /** `pout(a + b * c);` prints a + bc. */
  method PrintSum(a: real, b: real, c: real, names: seq<Name>, natives: seq<Element>, blank: Name, limit: nat,
                  turns: nat)
    returns (status: M.Status, out: seq<Element>)
    requires |names| == |natives| <= 12 && NoRepeats(names) && 1 <= limit <= 256
    ensures Prints(status, out, [Num(a + b * c)])
  {
    var tokens := [PoutKw, LParen, Number(a), BinTok(Add), Number(b), BinTok(Mul), Number(c), RParen, Semi, Eof];
    ghost var s := Pout(Cons(Sum(a, b, c), Nil));
    SumRuns(a, b, c, blank, names, turns + 1);
    hide PrintItems, ScriptFits, ModestScript, High, Compilation.NewNames, Compilation.Bearable, RunItems, FunCount,
         Sum;
    status, out := Interpreter.Interpret(tokens, names, natives, blank, limit, turns, [Stat(s, Whole)]);
  }

  lemma SumRuns(a: real, b: real, c: real, blank: Name, natives: seq<Name>, fuel: nat)
    requires |natives| <= 12
    ensures Runs([Stat(Pout(Cons(Sum(a, b, c), Nil)), Whole)],
                 [PoutKw, LParen, Number(a), BinTok(Add), Number(b), BinTok(Mul), Number(c), RParen, Semi, Eof],
                 blank, natives, [Num(a + b * c)], fuel)
  {
    hide Print, LitsE, ResolvesE, Postfix, SizeE, SoundE, EvalE, Modest, ResolvesS, ScriptFits, ModestScript, High,
         Exec, Compilation.NewNames, Compilation.Bearable, RunItems, Sum;
    var e, locals := Sum(a, b, c), [Variable(blank, 0)];
    var s, ts := Pout(Cons(e, Nil)), [Number(a), BinTok(Add), Number(b), BinTok(Mul), Number(c)];
    SumSpells(a, b, c, Names(locals));
    SumSizes(a, b, c);
    PoutOne(e, ts, Code(a, b, c), locals, map[], [Eof]);
    OnePrinted(s);
    assert [PoutKw, LParen] + ts + [RParen, Semi] + [Eof] ==
           [PoutKw, LParen, Number(a), BinTok(Add), Number(b), BinTok(Mul), Number(c), RParen, Semi, Eof];
    OneStatement(s, blank, natives);
    OneItem(Stat(s, Whole), blank, 0);
    SumMeans(a, b, c, blank, Closure(0), fuel);
    PoutMeans(Program([], map[]), e, [blank], [Closure(0)], [], fuel, Num(a + b * c));
    OneMeans(s, blank, Closure(0), [Num(a + b * c)], fuel);
  }

  function Code(a: real, b: real, c: real): seq<Instr> {
    [Load(Num(a)), Load(Num(b)), Load(Num(c)), Apply(Mul), Apply(Add)]
  }

  lemma SumSpells(a: real, b: real, c: real, names: seq<Name>)
    ensures Spells(Sum(a, b, c), PREC_ASSIGNMENT, [Number(a), BinTok(Add), Number(b), BinTok(Mul), Number(c)],
                   Code(a, b, c), names, map[])
  {
    hide Spells;
    TightFirst(Number(a), Add, Number(b), Mul, Number(c), names, map[]);
  }

  // ------------------------------------------------- `pout(a) pout(b);`

  function Shown(a: real): Stmt {
    Pout(Cons(Leaf(Number(a)), Nil))
  }

  function Remains(b: real): Stmt {
    Eval(Paren(Leaf(Number(b))))
  }

  function TornItems(a: real, b: real): seq<Item> {
    [Stat(Shown(a), Torn([PoutKw])), Stat(Remains(b), Whole)]
  }

  /** The first semicolon is missing. */
  function TornTokens(a: real, b: real): seq<Token> {
    [PoutKw, LParen, Number(a), RParen, PoutKw, LParen, Number(b), RParen, Semi, Eof]
  }

  lemma TornPrinted(a: real, b: real)
    ensures PrintItems(TornItems(a, b)) == TornTokens(a, b)
    ensures PrintItems(TornItems(a, b)[1..]) == [LParen, Number(b), RParen, Semi, Eof]
  {
    var items := TornItems(a, b);
    var last := [Stat(Remains(b), Whole)];
    assert items[1..] == last;
    OnePrinted(last[0].s);
    assert Print(Leaf(Number(b)), PREC_ASSIGNMENT, [RParen, Semi, Eof]) == [Number(b), RParen, Semi, Eof];
    ParenPlain(Leaf(Number(b)), PREC_ASSIGNMENT, [Semi] + [Eof], [], map[]);
    assert PrintS(last[0].s, [Eof]) == [LParen] + Print(Leaf(Number(b)), PREC_ASSIGNMENT, [RParen] + ([Semi] + [Eof]));
    var u := [PoutKw] + PrintItems(last);
    assert Print(Leaf(Number(a)), PREC_ASSIGNMENT, [RParen] + u) == [Number(a)] + ([RParen] + u);
    assert PrintItems(items) == [PoutKw, LParen] + ([Number(a)] + ([RParen] + u));
  }

  lemma TornFits(a: real, b: real, blank: Name, natives: seq<Name>)
    requires |natives| <= 12
    ensures var items := TornItems(a, b);
            && ScriptFits(items, blank, |natives|) && ModestScript(items, blank) && High(items)
            && Compilation.NewNames(items, natives) && Compilation.Bearable(items, |natives|)
            && SizeItems(items) == 5 && FunCount(items) == 0
  {
    var items := TornItems(a, b);
    TwoItems(items[0], items[1], blank, |natives|);
    TornPrinted(a, b);
    TornSizes(a, b);
    assert items == [items[0], items[1]];
    hide SizeItems, LitsItems, IfsItems, CasesItems, FunCount, SpotOf, FnsOf, PrintItems, ResolvesS, Modest, SizeS,
         LitsS, IfsS, Spills, Resume, NoLocals, TornItems;
    FewCases(CasesItems(items));
    TornEnds(a, b);
    TornResolves(a, b, [Variable(blank, 0)]);
    forall i | 0 <= i < 2 ensures EndFits(items, i) && ItemFits(items[i], SpotOf(items, i, blank, |natives|))
                                  && ModestItem(items, i, blank) && FunCount(items[..i]) == 0 && items[i].Stat? {
    }
  }

  lemma TornEnds(a: real, b: real)
    ensures EndFits(TornItems(a, b), 0) && EndFits(TornItems(a, b), 1)
  {
    var items := TornItems(a, b);
    TornPrinted(a, b);
    hide PrintItems;
    assert Upcoming(items, 0) == [PoutKw] + [LParen, Number(b), RParen, Semi, Eof];
    assert Resume(Upcoming(items, 0)) == Upcoming(items, 0)[1..] == PrintItems(items[1..]);
  }

  lemma TornResolves(a: real, b: real, locals: seq<Variable>)
    ensures ResolvesS(Shown(a), locals, 0, map[], false) && ResolvesS(Remains(b), locals, 0, map[], false)
    ensures forall pc :: Modest(Shown(a), pc) && Modest(Remains(b), pc)
  {
    hide Leaf, ResolvesE, SoundE, ResolvesS, Modest;
    NumberResolves(a, Names(locals));
    NumberResolves(b, Names(locals));
    PoutResolves(Leaf(Number(a)), locals, map[]);
    EvalResolves(Paren(Leaf(Number(b))), locals, map[]);
  }

  lemma NumberResolves(x: real, names: seq<Name>)
    ensures var e := Leaf(Number(x));
            ResolvesE(e, names, map[]) && ResolvesE(Paren(e), names, map[]) && SoundE(e) && SoundE(Paren(e))
  {
    var e := Leaf(Number(x));
    assert ResolvesE(e, names, map[]) && SoundE(e);
  }

  lemma PoutResolves(e: Expr, locals: seq<Variable>, fns: Fns)
    requires ResolvesE(e, Names(locals), fns) && SoundE(e)
    ensures ResolvesS(Pout(Cons(e, Nil)), locals, 0, fns, false) && forall pc :: Modest(Pout(Cons(e, Nil)), pc)
  {
    hide ResolvesE, SoundE;
    assert ResolvesArgs(Nil, Names(locals), fns) && SoundArgs(Nil);
    assert ResolvesArgs(Cons(e, Nil), Names(locals), fns) && SoundArgs(Cons(e, Nil));
  }

  lemma EvalResolves(e: Expr, locals: seq<Variable>, fns: Fns)
    requires ResolvesE(e, Names(locals), fns) && SoundE(e)
    ensures ResolvesS(Eval(e), locals, 0, fns, false) && forall pc :: Modest(Eval(e), pc)
  {
    hide ResolvesE, SoundE;
  }

  lemma TornSizes(a: real, b: real)
    ensures var items := TornItems(a, b);
            && SizeS(items[0].s) == 3 && SizeS(items[1].s) == 2 && IfsS(items[0].s) == 0 && IfsS(items[1].s) == 0
            && LitsS(items[0].s) == [Num(a)] && LitsS(items[1].s) == [Num(b)]
  {
    var x, y := Leaf(Number(a)), Leaf(Number(b));
    assert SizeE(x) == 2 && LitsE(x) == [Num(a)] && SizePout(Nil) == 0 && LitsArgs(Nil) == [];
    assert SizeE(y) == 2 && LitsE(y) == [Num(b)] && SizeE(Paren(y)) == 2 && LitsE(Paren(y)) == [Num(b)];
    assert LitsArgs(Cons(x, Nil)) == [Num(a)] + [] == [Num(a)];
  }

  /** After the first `pout` the parser goes on behind the second one: the code prints once. */
  method CompileTorn(a: real, b: real, natives: seq<Name>, blank: Name) returns (script: Chunk)
    requires |natives| <= 12 && NoRepeats(natives)
    ensures Reads(script, 0, [Load(Num(a)), Show, Load(Num(b)), Halt]) && |script.code| == 6
  {
    var tokens := [PoutKw, LParen, Number(a), RParen, PoutKw, LParen, Number(b), RParen, Semi, Eof];
    TornPrinted(a, b);
    TornFits(a, b, blank, natives);
    hide PrintItems, ScriptFits, Compilation.NewNames, Compilation.Bearable, LaidScript, Reads, TornItems;
    var end, code, funcs := Compilation.Compile(tokens, natives, blank, TornItems(a, b));
    script := code;
    TornLaid(a, b, blank, |natives|, script, funcs);
  }

  lemma TornLaid(a: real, b: real, blank: Name, obj: nat, ch: Chunk, funcs: seq<M.Function>)
    requires LaidScript(TornItems(a, b), blank, obj, ch, funcs)
    ensures Reads(ch, 0, [Load(Num(a)), Show, Load(Num(b)), Halt]) && |ch.code| == 6
  {
    hide Reads, Stands, SpotOf, CasesItems, FnsOf, Blanks, LaidAt;
    var items := TornItems(a, b);
    TwoItems(items[0], items[1], blank, obj);
    TornSizes(a, b);
    assert items == [items[0], items[1]];
    TornParts(a, b, blank, obj, ch, funcs);
    Last(ch, 5);
    var h := [Halt];
    One(Load(Num(b)), ch, 3, h);
    One(Show, ch, 2, [Load(Num(b))] + h);
    One(Load(Num(a)), ch, 0, [Show] + ([Load(Num(b))] + h));
    assert [Load(Num(a))] + ([Show] + ([Load(Num(b))] + h)) == [Load(Num(a)), Show, Load(Num(b)), Halt];
  }

  lemma Last(ch: Chunk, pc: nat)
    requires At1(ch, pc, OP_RETURN) && |ch.code| == pc + 1
    ensures Reads(ch, pc, [Halt])
  {
    assert [Halt][1..] == [];
  }

  lemma TornParts(a: real, b: real, blank: Name, obj: nat, ch: Chunk, funcs: seq<M.Function>)
    requires LaidScript(TornItems(a, b), blank, obj, ch, funcs)
    ensures Stands(Load(Num(a)), ch, 0) && Stands(Show, ch, 2) && Stands(Load(Num(b)), ch, 3)
  {
    var items, x, y := TornItems(a, b), Leaf(Number(a)), Leaf(Number(b));
    TwoItems(items[0], items[1], blank, obj);
    TornSizes(a, b);
    assert items == [items[0], items[1]];
    assert items[0].s == Pout(Cons(x, Nil)) && items[1].s == Eval(Paren(y));
    hide LaidScript, SpotOf, LaidS, TornItems, Stands, SizeItems, LitsItems, IfsItems, FunCount, CasesItems;
    StatementLaid(items, 0, blank, obj, ch, funcs);
    StatementLaid(items, 1, blank, obj, ch, funcs);
    assert Names([Variable(blank, 0)]) == [blank];
    PoutLaid(a, [blank], map[], ch, 0, 0);
    ParenLaid(b, [blank], map[], ch, 3, 0);
  }

  lemma StatementLaid(items: seq<Item>, i: nat, blank: Name, obj: nat, ch: Chunk, funcs: seq<M.Function>)
    requires i < |items| && items[i].Stat? && LaidScript(items, blank, obj, ch, funcs)
    ensures var p := SpotOf(items, i, blank, obj); LaidS(items[i].s, Names(p.names), p.fns, ch, p.pc, p.nc)
  {
    hide SpotOf, LaidS, SizeItems, LitsItems, IfsItems;
    assert LaidAt(items, i, blank, obj, ch, funcs);
  }

  lemma PoutLaid(a: real, names: seq<Name>, fns: Fns, ch: Chunk, pc: nat, nc: nat)
    requires LaidS(Pout(Cons(Leaf(Number(a)), Nil)), names, fns, ch, pc, nc)
    ensures Stands(Load(Num(a)), ch, pc) && Stands(Show, ch, pc + 2)
  {
    var x := Leaf(Number(a));
    assert LaidPout(Cons(x, Nil), names, fns, ch, pc);
    assert LaidE(x, names, fns, ch, pc) && SizeE(x) == 2;
  }

  lemma ParenLaid(b: real, names: seq<Name>, fns: Fns, ch: Chunk, pc: nat, nc: nat)
    requires LaidS(Eval(Paren(Leaf(Number(b)))), names, fns, ch, pc, nc)
    ensures Stands(Load(Num(b)), ch, pc)
  {
    var y := Leaf(Number(b));
    assert LaidE(Paren(y), names, fns, ch, pc);
    assert LaidE(y, names, fns, ch, pc);
  }

  lemma TornMeans(a: real, b: real, blank: Name, c: Element, fuel: nat)
    ensures RunItems(TornItems(a, b), 0, blank, [c], [], fuel) == Norm([c], [Num(a)])
  {
    var items, x, y := TornItems(a, b), Leaf(Number(a)), Leaf(Number(b));
    Numeric(Known(items, 0), a, [blank], [c], [], fuel);
    PoutMeans(Known(items, 0), x, [blank], [c], [], fuel, Num(a));
    Numeric(Known(items, 1), b, [blank], [c], [Num(a)], fuel);
    hide EvalE;
    assert Perform(Known(items, 1), y, [blank], [c], [Num(a)], fuel) == Norm([c], [Num(a)]);
    assert Exec(Known(items, 1), Eval(Paren(y)), [blank], [c], [Num(a)], fuel) == Norm([c], [Num(a)]);
    assert RunItems(items, 2, blank, [c], [Num(a)], fuel) == Norm([c], [Num(a)]);
    assert [] + [Num(a)] == [Num(a)];
  }

  /** `pout(a) pout(b);` prints a, and b is never printed. */
  method PrintTorn(a: real, b: real, names: seq<Name>, natives: seq<Element>, blank: Name, limit: nat, turns: nat)
    returns (status: M.Status, out: seq<Element>)
    requires |names| == |natives| <= 12 && NoRepeats(names) && 1 <= limit <= 256
    ensures Prints(status, out, [Num(a)])
  {
    var tokens := [PoutKw, LParen, Number(a), RParen, PoutKw, LParen, Number(b), RParen, Semi, Eof];
    TornPrinted(a, b);
    TornFits(a, b, blank, names);
    TornMeans(a, b, blank, Closure(0), turns + 1);
    hide PrintItems, ScriptFits, ModestScript, High, Compilation.NewNames, Compilation.Bearable, RunItems, FunCount,
         TornItems;
    status, out := Interpreter.Interpret(tokens, names, natives, blank, limit, turns, TornItems(a, b));
  }

  // ------------------------------------------------------------- a case split

  function Test(op: BinOp, a: real, b: real): Expr {
    Bin(op, Leaf(Number(a)), Leaf(Number(b)))
  }

  function Choice(a: real, b: real): Stmt {
    If(Test(Lt, a, b), Shown(1.0), Elif(Test(Eq, a, b), Shown(2.0), Else(Shown(3.0))))
  }

  lemma TestFacts(op: BinOp, a: real, b: real, names: seq<Name>, fns: Fns)
    requires op == Lt || op == Eq
    ensures Spells(Test(op, a, b), PREC_ASSIGNMENT, [Number(a), BinTok(op), Number(b)],
                   [Load(Num(a)), Load(Num(b)), Apply(op)], names, fns)
    ensures SizeE(Test(op, a, b)) == 5 && |LitsE(Test(op, a, b))| == 2 && SoundE(Test(op, a, b))
  {
    PairSpells(Number(a), op, Number(b), PREC_ASSIGNMENT, names, fns);
    assert SoundE(Leaf(Number(a))) && SoundE(Leaf(Number(b)));
    hide Spells, Print, Postfix;
  }

  lemma ShownFacts(a: real, locals: seq<Variable>, fns: Fns, pc: nat, k: seq<Token>)
    ensures PrintS(Shown(a), k) == [PoutKw, LParen, Number(a), RParen, Semi] + k
    ensures ResolvesS(Shown(a), locals, 0, fns, false) && Modest(Shown(a), pc) && !Open(Shown(a))
            && FirstEnd(Shown(a), pc) == Nowhere
    ensures SizeS(Shown(a)) == 3 && |LitsS(Shown(a))| == 1 && IfsS(Shown(a)) == 0
  {
    hide ResolvesE, Leaf;
    var e := Leaf(Number(a));
    SpellsLeaf(Number(a), PREC_ASSIGNMENT, Names(locals), fns);
    Numeric(Program([], map[]), a, [], [], [], 0);
    PoutOne(e, [Number(a)], [Load(Num(a))], locals, fns, k);
    PoutResolves(e, locals, fns);
    assert [PoutKw, LParen] + [Number(a)] + [RParen, Semi] + k == [PoutKw, LParen, Number(a), RParen, Semi] + k;
  }

  function LastArm(): seq<Token> {
    [ElseKw, PoutKw, LParen, Number(3.0), RParen, Semi, Eof]
  }

  function NextArm(a: real, b: real): seq<Token> {
    [ElifKw, LParen, Number(a), BinTok(Eq), Number(b), RParen, PoutKw, LParen, Number(2.0), RParen, Semi] + LastArm()
  }

  function ChoiceTokens(a: real, b: real): seq<Token> {
    [IfKw, LParen, Number(a), BinTok(Lt), Number(b), RParen] + [PoutKw, LParen, Number(1.0), RParen, Semi]
    + NextArm(a, b)
  }

  lemma LastPrinted()
    ensures PrintArms(Else(Shown(3.0)), [Eof]) == LastArm()
  {
    hide Shown, PrintS;
    ShownFacts(3.0, [], map[], 0, [Eof]);
    assert PrintArms(Else(Shown(3.0)), [Eof]) == [ElseKw] + PrintS(Shown(3.0), [Eof]);
  }

  lemma NextPrinted(a: real, b: real)
    ensures PrintArms(Elif(Test(Eq, a, b), Shown(2.0), Else(Shown(3.0))), [Eof]) == NextArm(a, b)
  {
    hide Print, Shown, Test, LastArm;
    LastPrinted();
    var k := [PoutKw, LParen, Number(2.0), RParen, Semi] + LastArm();
    ShownFacts(2.0, [], map[], 0, LastArm());
    TestPrinted(Eq, a, b, [RParen] + k);
    assert [ElifKw, LParen] + ([Number(a), BinTok(Eq), Number(b)] + ([RParen] + k)) == NextArm(a, b);
  }

  lemma IfFlat(t: Token, o: Token, u: Token, s: seq<Token>, k: seq<Token>)
    ensures [IfKw, LParen] + ([t, o, u] + ([RParen] + (s + k))) == [IfKw, LParen, t, o, u, RParen] + s + k
  {
  }

  lemma IfPrinted(c: Expr, t: Stmt, arms: Arms, k: seq<Token>)
    ensures PrintS(If(c, t, arms), k) ==
            [IfKw, LParen] + Print(c, PREC_ASSIGNMENT, [RParen] + PrintS(t, PrintArms(arms, k)))
  {
    hide Print;
  }

  lemma ChoicePrinted(a: real, b: real)
    ensures PrintItems([Stat(Choice(a, b), Whole)]) == ChoiceTokens(a, b)
  {
    hide Print, Shown, Test, NextArm, PrintItems, PrintArms, PrintS;
    OnePrinted(Choice(a, b));
    IfPrinted(Test(Lt, a, b), Shown(1.0), Elif(Test(Eq, a, b), Shown(2.0), Else(Shown(3.0))), [Eof]);
    NextPrinted(a, b);
    var k := [PoutKw, LParen, Number(1.0), RParen, Semi] + NextArm(a, b);
    ShownFacts(1.0, [], map[], 0, NextArm(a, b));
    TestPrinted(Lt, a, b, [RParen] + k);
    IfFlat(Number(a), BinTok(Lt), Number(b), [PoutKw, LParen, Number(1.0), RParen, Semi], NextArm(a, b));
  }

  lemma TestPrinted(op: BinOp, a: real, b: real, k: seq<Token>)
    requires op == Lt || op == Eq
    ensures Print(Test(op, a, b), PREC_ASSIGNMENT, k) == [Number(a), BinTok(op), Number(b)] + k
  {
    TestFacts(op, a, b, [], map[]);
    hide Print, Test;
  }

  lemma ChoiceFits(a: real, b: real, locals: seq<Variable>)
    ensures var s := Choice(a, b);
            && ResolvesS(s, locals, 0, map[], false) && Modest(s, 0)
            && SizeS(s) == 31 && |LitsS(s)| == 7 && IfsS(s) == 1
  {
    hide Shown, Test, Spells, SoundE, SizeE, LitsE, Print;
    TestFacts(Lt, a, b, Names(locals), map[]);
    TestFacts(Eq, a, b, Names(locals), map[]);
    TestResolves(Lt, a, b, Names(locals));
    TestResolves(Eq, a, b, Names(locals));
    ShownFacts(1.0, locals, map[], 8, []);
    ShownFacts(2.0, locals, map[], 22, []);
    ShownFacts(3.0, locals, map[], 28, []);
    var last := Else(Shown(3.0));
    assert SizeArms(last) == 3 && |LitsArms(last)| == 1 && IfsArms(last) == 0 && FirstArmsEnd(last, 28) == Nowhere;
    assert ModestArms(last, 28) && ArmsLand(last, 28, 31) && ResolvesArms(last, locals, 0, map[], false);
    var arms := Elif(Test(Eq, a, b), Shown(2.0), last);
    assert SizeArms(arms) == 17 && |LitsArms(arms)| == 4 && IfsArms(arms) == 0;
    assert ModestArms(arms, 14) && ArmsLand(arms, 14, 31) && ResolvesArms(arms, locals, 0, map[], false);
  }

  lemma TestResolves(op: BinOp, a: real, b: real, names: seq<Name>)
    requires op == Lt || op == Eq
    ensures ResolvesE(Test(op, a, b), names, map[])
  {
    TestFacts(op, a, b, names, map[]);
    hide Test, Print;
  }

  /** What the split prints. */
  function Chosen(a: real, b: real): Element {
    if a < b then Num(1.0) else if a == b then Num(2.0) else Num(3.0)
  }

  lemma ChoiceMeans(a: real, b: real, blank: Name, c: Element, fuel: nat)
    ensures Exec(Program([], map[]), Choice(a, b), [blank], [c], [], fuel) == Norm([c], [Chosen(a, b)])
  {
    hide Shown;
    var p, names, vals := Program([], map[]), [blank], [c];
    TestMeans(p, Lt, a, b, names, vals, fuel);
    TestMeans(p, Eq, a, b, names, vals, fuel);
    ShownMeans(p, 1.0, names, vals, fuel);
    ShownMeans(p, 2.0, names, vals, fuel);
    ShownMeans(p, 3.0, names, vals, fuel);
    hide EvalE, Test;
    var last := Else(Shown(3.0));
    assert ExecArms(p, last, names, vals, [], fuel) == Norm(vals, [Num(3.0)]);
    var arms := Elif(Test(Eq, a, b), Shown(2.0), last);
    assert ExecArms(p, arms, names, vals, [], fuel) == Norm(vals, [if a == b then Num(2.0) else Num(3.0)]);
  }

  lemma ShownMeans(p: Program, a: real, names: seq<Name>, vals: Vals, fuel: nat)
    ensures Exec(p, Shown(a), names, vals, [], fuel) == Norm(vals, [Num(a)])
  {
    Numeric(p, a, names, vals, [], fuel);
    PoutMeans(p, Leaf(Number(a)), names, vals, [], fuel, Num(a));
    assert [] + [Num(a)] == [Num(a)];
  }

  lemma TestMeans(p: Program, op: BinOp, a: real, b: real, names: seq<Name>, vals: Vals, fuel: nat)
    requires op == Lt || op == Eq
    ensures EvalE(p, Test(op, a, b), names, vals, [], fuel) == Val(Bool(if op == Lt then a < b else a == b), vals, [])
  {
    Numeric(p, a, names, vals, [], fuel);
    Numeric(p, b, names, vals, [], fuel);
    Evaluates(p, op, Leaf(Number(a)), Leaf(Number(b)), names, vals, [], fuel, Num(a), Num(b),
              Bool(if op == Lt then a < b else a == b));
  }

  lemma WellFormed(a: real, b: real)
    ensures var ts := ChoiceTokens(a, b);
            ts != [] && ts[|ts| - 1].Eof? && forall i :: 0 <= i < |ts| - 1 ==> !ts[i].Eof?
  {
  }

  /** `if (a < b) pout(1); elif (a == b) pout(2); else pout(3);` */
  method PrintChoice(a: real, b: real, names: seq<Name>, natives: seq<Element>, blank: Name, limit: nat, turns: nat)
    returns (status: M.Status, out: seq<Element>)
    requires |names| == |natives| <= 12 && NoRepeats(names) && 1 <= limit <= 256
    ensures Prints(status, out, [if a < b then Num(1.0) else if a == b then Num(2.0) else Num(3.0)])
  {
    ghost var s := Choice(a, b);
    ChoicePrinted(a, b);
    ChoiceFits(a, b, [Variable(blank, 0)]);
    WellFormed(a, b);
    hide PrintItems, ScriptFits, ModestScript, High, Compilation.NewNames, Compilation.Bearable, RunItems, FunCount,
         Choice, ChoiceTokens, ResolvesS, Modest, SizeS, LitsS, IfsS, Exec;
    OneStatement(s, blank, names);
    OneItem(Stat(s, Whole), blank, 0);
    ChoiceMeans(a, b, blank, Closure(0), turns + 1);
    OneMeans(s, blank, Closure(0), [Chosen(a, b)], turns + 1);
    status, out := Interpreter.Interpret(ChoiceTokens(a, b), names, natives, blank, limit, turns, [Stat(s, Whole)]);
  }

  // ---------------------------------------------------------------- recursion

  /** `func f(n, m) { if (n < 1) return m; return f(n - 1, n * m); }` */
  function Recursive(f: Name, n: Name, m: Name): FunDef {
    FunDef([n, m], Then(Do(Ends(n, m)), Then(Do(Goes(f, n, m)), Done)))
  }

  function Ends(n: Name, m: Name): Stmt {
    If(Bin(Lt, Local(n), Leaf(Number(1.0))), Return(Local(m)), End)
  }

  function Less(n: Name): Expr {
    Bin(Sub, Local(n), Leaf(Number(1.0)))
  }

  function Again(f: Name, n: Name, m: Name): Expr {
    Call(FuncRef(f), Cons(Less(n), Cons(Bin(Mul, Local(n), Local(m)), Nil)))
  }

  function Goes(f: Name, n: Name, m: Name): Stmt {
    Return(Again(f, n, m))
  }

  function First(f: Name, k: nat): Expr {
    Call(FuncRef(f), Cons(Leaf(Number(k as real)), Cons(Leaf(Number(1.0)), Nil)))
  }

  function EndsTokens(n: Name, m: Name): seq<Token> {
    [IfKw, LParen, Id(n), BinTok(Lt), Number(1.0), RParen, ReturnKw, Id(m), Semi]
  }

  function GoesTokens(f: Name, n: Name, m: Name): seq<Token> {
    [ReturnKw, Id(f), LParen, Id(n), BinTok(Sub), Number(1.0), Comma, Id(n), BinTok(Mul), Id(m), RParen, Semi, RCurl]
  }

  function FirstTokens(f: Name, k: nat): seq<Token> {
    [PoutKw, LParen, Id(f), LParen, Number(k as real), Comma, Number(1.0), RParen, RParen, Semi, Eof]
  }

  function FactorialTokens(f: Name, n: Name, m: Name, k: nat): seq<Token> {
    [FuncKw, Id(f), LParen, Id(n), Comma, Id(m), RParen, LCurl] + EndsTokens(n, m) + GoesTokens(f, n, m)
    + FirstTokens(f, k)
  }

  lemma Names3(f: Name, n: Name, m: Name, obj: nat)
    requires f != n && f != m && n != m
    ensures Newest([n, m], n) == 0 && Newest([n, m], m) == 1
    ensures Atomic(Id(n), [n, m], map[f := obj]) && Atomic(Id(m), [n, m], map[f := obj])
  {
  }

  lemma AgainSpells(f: Name, n: Name, m: Name, obj: nat)
    requires f != n && f != m && n != m && obj < 256
    ensures Spells(Again(f, n, m), PREC_ASSIGNMENT,
                   [Id(f), LParen, Id(n), BinTok(Sub), Number(1.0), Comma, Id(n), BinTok(Mul), Id(m), RParen],
                   [Object(obj), Fetch(0), Load(Num(1.0)), Apply(Sub), Fetch(0), Fetch(1), Apply(Mul), Invoke(2)],
                   [n, m], map[f := obj])
  {
    hide Spells, Newest, Atomic;
    var names, fns := [n, m], map[f := obj];
    Names3(f, n, m, obj);
    PairSpells(Id(n), Sub, Number(1.0), PREC_ASSIGNMENT, names, fns) by { NumberOperand(1.0, names, fns); }
    PairSpells(Id(n), Mul, Id(m), PREC_ASSIGNMENT, names, fns);
    var td, te := [Id(n), BinTok(Sub), Number(1.0)], [Id(n), BinTok(Mul), Id(m)];
    var cd := [Loads(Id(n), names), Loads(Number(1.0), names), Apply(Sub)];
    var ce := [Loads(Id(n), names), Loads(Id(m), names), Apply(Mul)];
    SpellsCall(f, Less(n), Bin(Mul, Local(n), Local(m)), PREC_ASSIGNMENT, td, te, cd, ce, names, fns);
    assert [Id(f), LParen] + td + [Comma] + te + [RParen] ==
           [Id(f), LParen, Id(n), BinTok(Sub), Number(1.0), Comma, Id(n), BinTok(Mul), Id(m), RParen];
    assert [Object(obj)] + cd + ce + [Invoke(2)] ==
           [Object(obj), Fetch(0), Load(Num(1.0)), Apply(Sub), Fetch(0), Fetch(1), Apply(Mul), Invoke(2)];
  }

  lemma NumberOperand(x: real, names: seq<Name>, fns: Fns)
    ensures Atomic(Number(x), names, fns)
  {
  }

  lemma EndsSpells(f: Name, n: Name, m: Name, obj: nat)
    requires f != n && f != m && n != m
    ensures Spells(Bin(Lt, Local(n), Leaf(Number(1.0))), PREC_ASSIGNMENT, [Id(n), BinTok(Lt), Number(1.0)],
                   [Fetch(0), Load(Num(1.0)), Apply(Lt)], [n, m], map[f := obj])
    ensures Spells(Local(m), PREC_ASSIGNMENT, [Id(m)], [Fetch(1)], [n, m], map[f := obj])
  {
    hide Spells, Newest, Atomic;
    Names3(f, n, m, obj);
    NumberOperand(1.0, [n, m], map[f := obj]);
    PairSpells(Id(n), Lt, Number(1.0), PREC_ASSIGNMENT, [n, m], map[f := obj]);
    SpellsLeaf(Id(m), PREC_ASSIGNMENT, [n, m], map[f := obj]);
  }

  /** `return e;`. */
  lemma ReturnFacts(e: Expr, ts: seq<Token>, code: seq<Instr>, locals: seq<Variable>, scope: nat, fns: Fns, pc: nat,
                    k: seq<Token>)
    requires Spells(e, PREC_ASSIGNMENT, ts, code, Names(locals), fns) && SoundE(e)
    ensures PrintS(Return(e), k) == [ReturnKw] + ts + [Semi] + k && ResolvesS(Return(e), locals, scope, fns, true)
    ensures Modest(Return(e), pc) && SizeS(Return(e)) == SizeE(e) + 1 && LitsS(Return(e)) == LitsE(e)
            && IfsS(Return(e)) == 0 && !Open(Return(e))
  {
    hide Print, LitsE, ResolvesE, Postfix, SizeE, SoundE;
    assert Print(e, PREC_ASSIGNMENT, [Semi] + k) == ts + ([Semi] + k);
  }

  lemma RecursiveSizes(f: Name, n: Name, m: Name)
    ensures SizeE(Again(f, n, m)) == 14 && |LitsE(Again(f, n, m))| == 1 && SoundE(Again(f, n, m))
    ensures SizeE(Local(m)) == 2 && LitsE(Local(m)) == [] && SoundE(Local(m))
    ensures SizeE(Ends(n, m).c) == 5 && |LitsE(Ends(n, m).c)| == 1 && SoundE(Ends(n, m).c)
  {
    var one, d, e := Leaf(Number(1.0)), Less(n), Bin(Mul, Local(n), Local(m));
    assert SizeE(one) == 2 && |LitsE(one)| == 1 && SoundE(one) && SoundE(Local(n)) && SoundE(Local(m));
    assert SizeE(d) == 5 && |LitsE(d)| == 1 && SoundE(d) && SizeE(e) == 5 && LitsE(e) == [] && SoundE(e);
    var last := Cons(e, Nil);
    assert SizeArgs(Nil) == 0 && LitsArgs(Nil) == [] && SoundArgs(Nil);
    assert SizeArgs(last) == 5 && LitsArgs(last) == [] && SoundArgs(last);
    assert SizeArgs(Cons(d, last)) == 10 && |LitsArgs(Cons(d, last))| == 1 && SoundArgs(Cons(d, last));
  }

  lemma EndsFacts(f: Name, n: Name, m: Name, obj: nat, locals: seq<Variable>, k: seq<Token>)
    requires f != n && f != m && n != m && Names(locals) == [n, m]
    ensures var s := Ends(n, m);
            && PrintS(s, k) == EndsTokens(n, m) + k && ResolvesS(s, locals, 1, map[f := obj], true) && Modest(s, 4)
            && SizeS(s) == 14 && |LitsS(s)| == 1 && IfsS(s) == 1
  {
    hide Print, LitsE, Postfix, SizeE, SoundE, Names, Newest;
    var c, r, fns := Ends(n, m).c, Return(Local(m)), map[f := obj];
    EndsSpells(f, n, m, obj);
    RecursiveSizes(f, n, m);
    ReturnFacts(Local(m), [Id(m)], [Fetch(1)], locals, 1, fns, 12, k);
    assert PrintArms(End, k) == k && SizeArms(End) == 0 && LitsArms(End) == [] && IfsArms(End) == 0;
    assert ModestArms(End, 18) && ArmsLand(End, 18, 18) && ResolvesArms(End, locals, 1, fns, true);
    hide ResolvesE;
    var t := PrintS(r, k);
    assert Print(c, PREC_ASSIGNMENT, [RParen] + t) == [Id(n), BinTok(Lt), Number(1.0)] + ([RParen] + t);
    IfFlat(Id(n), BinTok(Lt), Number(1.0), [ReturnKw, Id(m), Semi], k);
    assert t == [ReturnKw, Id(m), Semi] + k;
    assert [IfKw, LParen, Id(n), BinTok(Lt), Number(1.0), RParen] + [ReturnKw, Id(m), Semi] == EndsTokens(n, m);
  }

  lemma GoesFacts(f: Name, n: Name, m: Name, obj: nat, locals: seq<Variable>, k: seq<Token>)
    requires f != n && f != m && n != m && Names(locals) == [n, m] && obj < 256
    ensures var s := Goes(f, n, m);
            && PrintS(s, [RCurl] + k) == GoesTokens(f, n, m) + k && ResolvesS(s, locals, 1, map[f := obj], true)
            && Modest(s, 18) && SizeS(s) == 15 && |LitsS(s)| == 1 && IfsS(s) == 0
  {
    hide Spells, SoundE, Newest, Again, Names, Modest, ResolvesS, SizeE, LitsE;
    AgainSpells(f, n, m, obj);
    RecursiveSizes(f, n, m);
    var ts := [Id(f), LParen, Id(n), BinTok(Sub), Number(1.0), Comma, Id(n), BinTok(Mul), Id(m), RParen];
    ReturnFacts(Again(f, n, m), ts, [Object(obj), Fetch(0), Load(Num(1.0)), Apply(Sub), Fetch(0), Fetch(1), Apply(Mul),
                Invoke(2)], locals, 1, map[f := obj], 18, [RCurl] + k);
    assert [ReturnKw] + ts + [Semi] + ([RCurl] + k) == GoesTokens(f, n, m) + k;
  }

  lemma RecursiveFits(f: Name, n: Name, m: Name, obj: nat)
    requires f != n && f != m && n != m && obj < 256
    ensures var d := Recursive(f, n, m);
            FnFits(d, map[f := obj]) && ModestD(d.body, 4) && IfsD(d.body) == 1
    ensures forall k :: PrintFn(Recursive(f, n, m), k) ==
                        [LParen, Id(n), Comma, Id(m), RParen, LCurl] + EndsTokens(n, m) + GoesTokens(f, n, m) + k
  {
    hide Ends, Goes, PrintS, ResolvesS, Modest, SizeS, LitsS, IfsS, EndsTokens, GoesTokens;
    var locals, fns := ParamVars([n, m], 1), map[f := obj];
    EndsFacts(f, n, m, obj, locals, []);
    GoesFacts(f, n, m, obj, locals, []);
    var last := Then(Do(Goes(f, n, m)), Done);
    assert ResolvesD(Done, locals, 1, fns, true) && ModestD(Done, 33) && SizeD(Done) == 0 && LitsD(Done) == []
           && IfsD(Done) == 0;
    assert ResolvesD(last, locals, 1, fns, true) && ModestD(last, 18) && SizeD(last) == 15 && |LitsD(last)| == 1
           && IfsD(last) == 0;
    forall k ensures PrintFn(Recursive(f, n, m), k) ==
                     [LParen, Id(n), Comma, Id(m), RParen, LCurl] + EndsTokens(n, m) + GoesTokens(f, n, m) + k {
      RecursivePrinted(f, n, m, obj, k);
    }
  }

  lemma RecursivePrinted(f: Name, n: Name, m: Name, obj: nat, k: seq<Token>)
    requires f != n && f != m && n != m && obj < 256
    ensures PrintFn(Recursive(f, n, m), k) ==
            [LParen, Id(n), Comma, Id(m), RParen, LCurl] + EndsTokens(n, m) + GoesTokens(f, n, m) + k
  {
    hide Ends, Goes, PrintS, EndsTokens, GoesTokens, PrintParams, ResolvesS, Modest, SizeS, LitsS, IfsS;
    var locals, d := ParamVars([n, m], 1), Recursive(f, n, m);
    var last, u := Then(Do(Goes(f, n, m)), Done), GoesTokens(f, n, m) + k;
    GoesFacts(f, n, m, obj, locals, k);
    assert PrintD(last, [RCurl] + k) == u;
    EndsFacts(f, n, m, obj, locals, u);
    var b := PrintD(d.body, [RCurl] + k);
    assert b == EndsTokens(n, m) + u;
    TwoParams(n, m, [RParen, LCurl] + b);
    assert PrintFn(d, k) == [LParen] + ([Id(n), Comma, Id(m)] + ([RParen, LCurl] + b));
    HeadFlat(n, m, EndsTokens(n, m), GoesTokens(f, n, m), k);
  }

  lemma HeadFlat(n: Name, m: Name, s: seq<Token>, t: seq<Token>, k: seq<Token>)
    ensures [LParen] + ([Id(n), Comma, Id(m)] + ([RParen, LCurl] + (s + (t + k)))) ==
            [LParen, Id(n), Comma, Id(m), RParen, LCurl] + s + t + k
  {
  }

  lemma TwoParams(n: Name, m: Name, k: seq<Token>)
    ensures PrintParams([n, m], k) == [Id(n), Comma, Id(m)] + k
  {
    assert [n, m][1..] == [m];
    assert PrintParams([m], k) == [Id(m)] + k;
  }

  lemma EndsMeans(p: Program, n: Name, m: Name, k: nat, x: real, out: Output, fuel: nat)
    requires n != m
    ensures var vals := [Num(k as real), Num(x)];
            Exec(p, Ends(n, m), [n, m], vals, out, fuel) == if k == 0 then Ret(Num(x), out) else Norm(vals, out)
  {
    var names, vals, c := [n, m], [Num(k as real), Num(x)], Ends(n, m).c;
    TwoNames(n, m);
    hide Newest;
    Numeric(p, 1.0, names, vals, out, fuel);
    assert EvalE(p, Local(n), names, vals, out, fuel) == Val(Num(k as real), vals, out);
    assert EvalE(p, Local(m), names, vals, out, fuel) == Val(Num(x), vals, out);
    Evaluates(p, Lt, Local(n), Leaf(Number(1.0)), names, vals, out, fuel, Num(k as real), Num(1.0), Bool(k == 0));
    hide EvalE;
    assert ExecArms(p, End, names, vals, out, fuel) == Norm(vals, out);
    assert Exec(p, Return(Local(m)), names, vals, out, fuel) == Ret(Num(x), out);
  }

  lemma TwoNames(n: Name, m: Name)
    requires n != m
    ensures Newest([n, m], n) == 0 && Newest([n, m], m) == 1
  {
  }

  lemma AgainMeans(p: Program, f: Name, n: Name, m: Name, k: nat, x: real, y: real, out: Output, fuel: nat)
    requires n != m && k > 0 && p.named == map[f := 0] && y == k as real * x
    ensures var vals := [Num(k as real), Num(x)];
            EvalE(p, Again(f, n, m), [n, m], vals, out, fuel) ==
            if fuel == 0 then Timeout
            else Called(RunBody(p, Closure(0), [Num((k - 1) as real), Num(y)], out, fuel - 1), vals)
  {
    var names, vals := [n, m], [Num(k as real), Num(x)];
    TwoNames(n, m);
    hide Newest;
    Numeric(p, 1.0, names, vals, out, fuel);
    var d, e := Less(n), Bin(Mul, Local(n), Local(m));
    assert EvalE(p, Local(n), names, vals, out, fuel) == Val(Num(k as real), vals, out);
    assert EvalE(p, Local(m), names, vals, out, fuel) == Val(Num(x), vals, out);
    assert k as real - 1.0 == (k - 1) as real;
    Evaluates(p, Sub, Local(n), Leaf(Number(1.0)), names, vals, out, fuel, Num(k as real), Num(1.0),
              Num((k - 1) as real));
    Product(k as real, x, y);
    Evaluates(p, Mul, Local(n), Local(m), names, vals, out, fuel, Num(k as real), Num(x), Num(y));
    CallMeans(p, f, d, e, names, vals, out, fuel, Num((k - 1) as real), Num(y));
  }

  /** A call of the only function, with two arguments. */
  lemma CallMeans(p: Program, f: Name, d: Expr, e: Expr, names: seq<Name>, vals: Vals, out: Output, fuel: nat,
                  x: Element, y: Element)
    requires p.named == map[f := 0]
    requires EvalE(p, d, names, vals, out, fuel) == Val(x, vals, out)
    requires EvalE(p, e, names, vals, out, fuel) == Val(y, vals, out)
    ensures EvalE(p, Call(FuncRef(f), Cons(d, Cons(e, Nil))), names, vals, out, fuel) ==
            if fuel == 0 then Timeout else Called(RunBody(p, Closure(0), [x, y], out, fuel - 1), vals)
  {
    var last := Cons(e, Nil);
    assert EvalE(p, FuncRef(f), names, vals, out, fuel) == Val(Closure(0), vals, out);
    assert EvalArgs(p, Nil, names, vals, out, fuel) == Vs([], vals, out);
    assert EvalArgs(p, last, names, vals, out, fuel) == Vs([y] + [], vals, out);
    assert EvalArgs(p, Cons(d, last), names, vals, out, fuel) == Vs([x] + ([y] + []), vals, out);
    assert [Closure(0)] + ([x] + ([y] + [])) == [Closure(0), x, y];
    assert [Closure(0), x, y][1..] == [x, y];
    hide EvalE, EvalArgs, RunBody;
    CallStep(p, Call(FuncRef(f), Cons(d, last)), names, vals, out, fuel, [Closure(0), x, y]);
  }

  lemma CallStep(p: Program, e: Expr, names: seq<Name>, vals: Vals, out: Output, fuel: nat, vs: seq<Element>)
    requires e.Call? && vs != []
    requires EvalE(p, e.fn, names, vals, out, fuel) == Val(vs[0], vals, out)
    requires EvalArgs(p, e.args, names, vals, out, fuel) == Vs(vs[1..], vals, out)
    ensures Operands(p, e, names, vals, out, fuel) == Vs(vs, vals, out)
    ensures EvalE(p, e, names, vals, out, fuel) ==
            if fuel == 0 then Timeout else Called(RunBody(p, vs[0], vs[1..], out, fuel - 1), vals)
  {
    assert [vs[0]] + vs[1..] == vs;
  }

  lemma GoesMeans(p: Program, f: Name, n: Name, m: Name, vals: Vals, out: Output, fuel: nat)
    ensures var a := EvalE(p, Again(f, n, m), [n, m], vals, out, fuel);
            ExecD(p, Then(Do(Goes(f, n, m)), Done), [n, m], vals, out, fuel) ==
            if a.Val? then Ret(a.v, a.out) else SStop(a)
  {
    hide EvalE, Again;
  }

  function Factorial(k: nat): real {
    if k == 0 then 1.0 else k as real * Factorial(k - 1)
  }

  /** A call with k and x gives x * k!, if there is fuel for it. */
  lemma {:induction false} RecursiveMeans(f: Name, n: Name, m: Name, k: nat, x: real, v: real, out: Output, fuel: nat)
    requires f != n && f != m && n != m && v == x * Factorial(k)
    ensures var d := Recursive(f, n, m);
            var r := ExecD(Program([d], map[f := 0]), d.body, [n, m], [Num(k as real), Num(x)], out, fuel);
            r == Ret(Num(v), out) || r == SStop(Timeout)
    decreases k
  {
    var d := Recursive(f, n, m);
    var p, names, vals := Program([d], map[f := 0]), [n, m], [Num(k as real), Num(x)];
    if k == 0 {
      EndsMeans(p, n, m, k, x, out, fuel);
      assert v == x;
      hide Ends, Exec;
      assert ExecD(p, d.body, names, vals, out, fuel) == Ret(Num(x), out);
    } else {
      var y := k as real * x;
      RecursiveStep(f, n, m, k, x, y, out, fuel);
      if fuel > 0 {
        OneFactor(k, x, y);
        RecursiveMeans(f, n, m, k - 1, y, v, out, fuel - 1);
      }
    }
  }

  /** A call that does not end the recursion makes the next one, and returns what it returns. */
  lemma RecursiveStep(f: Name, n: Name, m: Name, k: nat, x: real, y: real, out: Output, fuel: nat)
    requires f != n && f != m && n != m && k > 0 && y == k as real * x
    ensures
      var d := Recursive(f, n, m);
      var p := Program([d], map[f := 0]);
      var r := ExecD(p, d.body, [n, m], [Num(k as real), Num(x)], out, fuel);
      if fuel == 0 then r == SStop(Timeout)
      else
        var q := ExecD(p, d.body, [n, m], [Num((k - 1) as real), Num(y)], out, fuel - 1);
        (q.Ret? ==> r == q) && (q == SStop(Timeout) ==> r == q)
  {
    var d := Recursive(f, n, m);
    var p, names, vals := Program([d], map[f := 0]), [n, m], [Num(k as real), Num(x)];
    EndsMeans(p, n, m, k, x, out, fuel);
    AgainMeans(p, f, n, m, k, x, y, out, fuel);
    var last := Then(Do(Goes(f, n, m)), Done);
    hide Ends, Again, Exec, EvalE;
    assert ExecD(p, d.body, names, vals, out, fuel) == ExecD(p, last, names, vals, out, fuel);
    GoesMeans(p, f, n, m, vals, out, fuel);
    if fuel > 0 {
      assert RunBody(p, Closure(0), [Num((k - 1) as real), Num(y)], out, fuel - 1) ==
             ExecD(p, d.body, [n, m], [Num((k - 1) as real), Num(y)], out, fuel - 1);
    }
  }

  lemma OneFactor(k: nat, x: real, y: real)
    requires k > 0 && y == k as real * x
    ensures y * Factorial(k - 1) == x * Factorial(k)
  {
    var a, c := k as real, Factorial(k - 1);
    assert a * x * c == x * (a * c);
  }

  lemma FirstFacts(f: Name, k: nat, obj: nat, locals: seq<Variable>)
    requires obj < 256
    ensures var s := Pout(Cons(First(f, k), Nil));
            && PrintS(s, [Eof]) == FirstTokens(f, k) && ResolvesS(s, locals, 0, map[f := obj], false) && Modest(s, 3)
            && SizeS(s) == 9 && |LitsS(s)| == 2 && IfsS(s) == 0 && NoLocals(s)
  {
    hide Spells, Atomic;
    var x, y, names, fns := k as real, Leaf(Number(1.0)), Names(locals), map[f := obj];
    NumberOperand(x, names, fns);
    NumberOperand(1.0, names, fns);
    SpellsLeaf(Number(x), PREC_ASSIGNMENT, names, fns);
    SpellsLeaf(Number(1.0), PREC_ASSIGNMENT, names, fns);
    SpellsCall(f, Leaf(Number(x)), y, PREC_ASSIGNMENT, [Number(x)], [Number(1.0)], [Loads(Number(x), names)],
               [Loads(Number(1.0), names)], names, fns);
    var ts := [Id(f), LParen] + [Number(x)] + [Comma] + [Number(1.0)] + [RParen];
    var code := [Object(obj)] + [Loads(Number(x), names)] + [Loads(Number(1.0), names)] + [Invoke(2)];
    FirstSizes(f, k);
    hide SizeE, LitsE, SoundE, First, Modest, ResolvesS, NoLocals;
    PoutOne(First(f, k), ts, code, locals, fns, [Eof]);
    PoutResolves(First(f, k), locals, fns) by { SpellsResolves(First(f, k), ts, code, names, fns); }
    assert [PoutKw, LParen] + ts + [RParen, Semi] + [Eof] == FirstTokens(f, k);
  }

  lemma SpellsResolves(e: Expr, ts: seq<Token>, code: seq<Instr>, names: seq<Name>, fns: Fns)
    requires Spells(e, PREC_ASSIGNMENT, ts, code, names, fns)
    ensures ResolvesE(e, names, fns)
  {
  }

  lemma FirstSizes(f: Name, k: nat)
    ensures var e := First(f, k);
            SizeE(e) == 8 && |LitsE(e)| == 2 && SoundE(e) && NoLocals(Pout(Cons(e, Nil)))
  {
    var x, y := Leaf(Number(k as real)), Leaf(Number(1.0));
    var last := Cons(y, Nil);
    assert SizeE(x) == 2 && |LitsE(x)| == 1 && SoundE(x) && NoLocalsE(x);
    assert SizeE(y) == 2 && |LitsE(y)| == 1 && SoundE(y) && NoLocalsE(y);
    assert SizeArgs(Nil) == 0 && LitsArgs(Nil) == [] && SoundArgs(Nil) && NoLocalsArgs(Nil);
    assert SizeArgs(last) == 2 && |LitsArgs(last)| == 1 && SoundArgs(last) && NoLocalsArgs(last);
    assert SizeArgs(Cons(x, last)) == 4 && |LitsArgs(Cons(x, last))| == 2 && SoundArgs(Cons(x, last))
           && NoLocalsArgs(Cons(x, last));
    assert NoLocalsE(First(f, k)) && NoLocalsArgs(Cons(First(f, k), Nil));
  }

  lemma FirstMeans(f: Name, n: Name, m: Name, k: nat, blank: Name, c: Element, fuel: nat)
    requires f != n && f != m && n != m
    ensures var p := Program([Recursive(f, n, m)], map[f := 0]);
            var r := Exec(p, Pout(Cons(First(f, k), Nil)), [blank], [c], [], fuel);
            r == Norm([c], [Num(Factorial(k))]) || r == SStop(Timeout)
  {
    var d, e := Recursive(f, n, m), First(f, k);
    var p, x, y := Program([d], map[f := 0]), Leaf(Number(k as real)), Leaf(Number(1.0));
    Numeric(p, k as real, [blank], [c], [], fuel);
    Numeric(p, 1.0, [blank], [c], [], fuel);
    CallMeans(p, f, x, y, [blank], [c], [], fuel, Num(k as real), Num(1.0));
    if fuel > 0 {
      assert 1.0 * Factorial(k) == Factorial(k);
      RecursiveMeans(f, n, m, k, 1.0, Factorial(k), [], fuel - 1);
    }
    hide EvalE, ExecD;
    var a := EvalE(p, e, [blank], [c], [], fuel);
    if a.Val? {
      PoutMeans(p, e, [blank], [c], [], fuel, Num(Factorial(k)));
    }
  }

  /** `func f(n, m) { if (n < 1) return m; return f(n - 1, n * m); } pout(f(k, 1));` prints k!. */
  method PrintFactorial(f: Name, n: Name, m: Name, k: nat, names: seq<Name>, natives: seq<Element>, blank: Name,
                        limit: nat, turns: nat)
    returns (status: M.Status, out: seq<Element>)
    requires |names| == |natives| <= 11 && NoRepeats(names) && 1 <= limit <= 256
    requires f != n && f != m && n != m && f !in names
    ensures Prints(status, out, [Num(Factorial(k))])
  {
    ghost var d, s := Recursive(f, n, m), Pout(Cons(First(f, k), Nil));
    ghost var items, obj := [Fun(f, d), Stat(s, Whole)], |names|;
    FactorialWellFormed(f, n, m, k);
    hide PrintItems, ScriptFits, ModestScript, High, Compilation.NewNames, Compilation.Bearable, RunItems, FunCount,
         Recursive, First, FactorialTokens, ResolvesS, Modest, ModestD, FnFits, SizeS, LitsS, IfsS, IfsD, Exec, PrintFn,
         NoLocals, Factorial, EndsTokens, GoesTokens, FirstTokens;
    RecursiveParams(f, n, m);
    RecursiveFits(f, n, m, obj);
    FirstFacts(f, k, obj, Blanks(blank, 1));
    OneFunction(f, d, s, blank, names);
    FunctionPrinted(f, d, s);
    FactorialFlat(f, n, m, k);
    FirstMeans(f, n, m, k, blank, Closure(1), turns + 1);
    FunctionMeans(f, d, s, blank, Closure(1), Exec(Program([d], map[f := 0]), s, [blank], [Closure(1)], [], turns + 1),
                  turns + 1);
    status, out := Interpreter.Interpret(FactorialTokens(f, n, m, k), names, natives, blank, limit, turns, items);
  }

  lemma RecursiveParams(f: Name, n: Name, m: Name)
    ensures |Recursive(f, n, m).params| == 2
  {
  }

  lemma FactorialFlat(f: Name, n: Name, m: Name, k: nat)
    ensures [FuncKw, Id(f)] + ([LParen, Id(n), Comma, Id(m), RParen, LCurl] + EndsTokens(n, m) + GoesTokens(f, n, m)
            + FirstTokens(f, k)) == FactorialTokens(f, n, m, k)
  {
    hide EndsTokens, GoesTokens, FirstTokens;
  }

  lemma FactorialWellFormed(f: Name, n: Name, m: Name, k: nat)
    ensures var ts := FactorialTokens(f, n, m, k);
            ts != [] && ts[|ts| - 1].Eof? && forall i :: 0 <= i < |ts| - 1 ==> !ts[i].Eof?
  {
  }

  // -------------------------------------------------------------------- a loop

  /** `func f(n) { for (var i = 0; i < n; i++) pout(i); }` */
  function Counting(n: Name, i: Name): FunDef {
    FunDef([n], Then(Do(Counter(n, i)), Done))
  }

  function Counter(n: Name, i: Name): Stmt {
    For(SomeVar(i, Leaf(Number(0.0))), SomeExpr(Bin(Lt, Local(i), Local(n))), SomeExpr(Bump(i, true, false)), Tell(i))
  }

  function Tell(i: Name): Stmt {
    Pout(Cons(Local(i), Nil))
  }

  function Driver(f: Name, k: nat): Stmt {
    Eval(Call(FuncRef(f), Cons(Leaf(Number(k as real)), Nil)))
  }

  function CountTokens(n: Name, i: Name): seq<Token> {
    [ForKw, LParen, VarKw, Id(i), AssignOp, Number(0.0), Semi, Id(i), BinTok(Lt), Id(n), Semi, Id(i), IncOp, RParen]
    + [PoutKw, LParen, Id(i), RParen, Semi]
  }

  function DriverTokens(f: Name, k: nat): seq<Token> {
    [Id(f), LParen, Number(k as real), RParen, Semi, Eof]
  }

  function CountingTokens(f: Name, n: Name, i: Name, k: nat): seq<Token> {
    [FuncKw, Id(f), LParen, Id(n), RParen, LCurl] + CountTokens(n, i) + [RCurl] + DriverTokens(f, k)
  }

  lemma CountSpells(f: Name, n: Name, i: Name, obj: nat)
    requires f != n && f != i && n != i
    ensures var names, fns := [n, i], map[f := obj];
            && Spells(Leaf(Number(0.0)), PREC_ASSIGNMENT, [Number(0.0)], [Load(Num(0.0))], names, fns)
            && Spells(Bin(Lt, Local(i), Local(n)), PREC_ASSIGNMENT, [Id(i), BinTok(Lt), Id(n)],
                      [Fetch(1), Fetch(0), Apply(Lt)], names, fns)
            && Spells(Bump(i, true, false), PREC_ASSIGNMENT, [Id(i), IncOp], [Fetch(1), Change(true), Store(1)],
                      names, fns)
            && Spells(Local(i), PREC_ASSIGNMENT, [Id(i)], [Fetch(1)], names, fns)
  {
    hide Spells, Newest, Atomic;
    var names, fns := [n, i], map[f := obj];
    Names3(f, n, i, obj);
    NumberOperand(0.0, names, fns);
    SpellsLeaf(Number(0.0), PREC_ASSIGNMENT, names, fns);
    SpellsLeaf(Id(i), PREC_ASSIGNMENT, names, fns);
    PairSpells(Id(i), Lt, Id(n), PREC_ASSIGNMENT, names, fns);
    BumpSpells(i, true, PREC_ASSIGNMENT, names, fns) by { AtomicVariable(i, names, fns); }
  }

  lemma AtomicVariable(x: Name, names: seq<Name>, fns: Fns)
    requires Atomic(Id(x), names, fns)
    ensures IsVariable(x, names, fns)
  {
  }

  lemma CountSizes(n: Name, i: Name)
    ensures var s := Counter(n, i);
            && SizeS(s) == 31 && |LitsS(s)| == 1 && IfsS(s) == 0 && Modest(s, 2)
            && SoundE(Local(i)) && SizeE(Local(i)) == 2 && LitsE(Local(i)) == []
  {
    var zero, test, step := Leaf(Number(0.0)), Bin(Lt, Local(i), Local(n)), Bump(i, true, false);
    assert SizeE(zero) == 2 && |LitsE(zero)| == 1 && SoundE(zero);
    assert SizeE(Local(i)) == 2 && SizeE(Local(n)) == 2 && LitsE(Local(i)) == [] && LitsE(Local(n)) == []
           && SoundE(Local(i)) && SoundE(Local(n));
    assert SizeE(test) == 5 && LitsE(test) == [] && SoundE(test);
    assert SizeE(step) == 5 && LitsE(step) == [] && SoundE(step);
    assert SizePout(Nil) == 0 && LitsArgs(Nil) == [] && SoundArgs(Nil);
    assert SizeS(Tell(i)) == 3 && LitsS(Tell(i)) == [] && IfsS(Tell(i)) == 0 && Modest(Tell(i), 24);
    assert SizeInit(SomeVar(i, zero)) == 4 && SizeCond(SomeExpr(test)) == 8 && SizeInc(SomeExpr(step)) == 12;
    assert SoundOpt(SomeExpr(test)) && SoundOpt(SomeExpr(step)) && SizePops(1) == 1;
    assert LitsInit(SomeVar(i, zero)) == LitsE(zero) && LitsOpt(SomeExpr(test)) == [] && LitsOpt(SomeExpr(step)) == [];
  }

  lemma CounterResolves(f: Name, n: Name, i: Name, obj: nat)
    requires f != n && f != i && n != i
    ensures ResolvesS(Counter(n, i), ParamVars([n], 1), 1, map[f := obj], true)
  {
    var locals, fns := ParamVars([n], 1), map[f := obj];
    var inner := locals + [Variable(i, 2)];
    CountSpells(f, n, i, obj);
    hide Spells, Print, Postfix;
    assert Names(inner) == [n, i];
    assert |locals| == 1 && locals[0].depth == 1;
    assert !InCurrentScope(locals, 2, 0);
    assert !Clashes(locals, 2, i);
    assert MayDeclare(locals, 2, i);
    TellResolves(f, n, i, obj, inner);
    hide ResolvesE, MayDeclare, Names;
  }

  lemma TellResolves(f: Name, n: Name, i: Name, obj: nat, inner: seq<Variable>)
    requires f != n && f != i && n != i && Names(inner) == [n, i]
    ensures var fns, names := map[f := obj], [n, i];
            && ResolvesS(Tell(i), inner, 2, fns, true) && ResolvesE(Leaf(Number(0.0)), names, fns)
            && ResolvesE(Bin(Lt, Local(i), Local(n)), names, fns) && ResolvesE(Bump(i, true, false), names, fns)
  {
    CountSpells(f, n, i, obj);
    hide Print, Postfix, Names;
    assert ResolvesArgs(Nil, [n, i], map[f := obj]);
    hide ResolvesE;
    assert ResolvesArgs(Cons(Local(i), Nil), [n, i], map[f := obj]);
  }

  lemma CounterPrinted(f: Name, n: Name, i: Name, k: seq<Token>)
    requires f != n && f != i && n != i
    ensures PrintS(Counter(n, i), k) == CountTokens(n, i) + k
  {
    hide Print, LitsE, ResolvesE, Postfix;
    CountSpells(f, n, i, 0);
    var body := [PoutKw, LParen, Id(i), RParen, Semi];
    TellPrinted(f, n, i, k);
    var c, step := Bin(Lt, Local(i), Local(n)), Bump(i, true, false);
    var t := [RParen] + (body + k);
    assert Print(step, PREC_ASSIGNMENT, t) == [Id(i), IncOp] + t;
    var u := [Semi] + ([Id(i), IncOp] + t);
    assert Print(c, PREC_ASSIGNMENT, u) == [Id(i), BinTok(Lt), Id(n)] + u;
    var head := [Id(i), BinTok(Lt), Id(n)] + u;
    assert Print(Leaf(Number(0.0)), PREC_ASSIGNMENT, [Semi] + head) == [Number(0.0)] + ([Semi] + head);
    hide Tell;
    assert PrintS(Counter(n, i), k) == [ForKw, LParen] + ([VarKw, Id(i), AssignOp] + ([Number(0.0)] + ([Semi] + head)));
    ForFlat(i, n, body, k);
  }

  lemma ForFlat(i: Name, n: Name, body: seq<Token>, k: seq<Token>)
    ensures [ForKw, LParen] + ([VarKw, Id(i), AssignOp] + ([Number(0.0)] + ([Semi] + ([Id(i), BinTok(Lt), Id(n)]
            + ([Semi] + ([Id(i), IncOp] + ([RParen] + (body + k)))))))) ==
            [ForKw, LParen, VarKw, Id(i), AssignOp, Number(0.0), Semi, Id(i), BinTok(Lt), Id(n), Semi, Id(i), IncOp,
             RParen] + body + k
  {
  }

  lemma TellPrinted(f: Name, n: Name, i: Name, k: seq<Token>)
    requires f != n && f != i && n != i
    ensures PrintS(Tell(i), k) == [PoutKw, LParen, Id(i), RParen, Semi] + k
  {
    hide Print, LitsE, ResolvesE, Postfix;
    CountSpells(f, n, i, 0);
    assert Print(Local(i), PREC_ASSIGNMENT, [RParen] + ([Semi] + k)) == [Id(i)] + ([RParen] + ([Semi] + k));
    assert PrintArgs(Cons(Local(i), Nil), [RParen] + ([Semi] + k)) == [Id(i)] + ([RParen] + ([Semi] + k));
  }

  lemma CountingFits(f: Name, n: Name, i: Name, obj: nat)
    requires f != n && f != i && n != i && obj < 256
    ensures var d := Counting(n, i);
            FnFits(d, map[f := obj]) && ModestD(d.body, 2) && IfsD(d.body) == 0 && |d.params| == 1
  {
    hide Counter, ResolvesS, Modest, SizeS, LitsS, IfsS;
    var locals, fns := ParamVars([n], 1), map[f := obj];
    CounterResolves(f, n, i, obj);
    CountSizes(n, i);
    assert ResolvesD(Done, locals, 1, fns, true) && ModestD(Done, 33) && SizeD(Done) == 0 && LitsD(Done) == []
           && IfsD(Done) == 0;
  }

  lemma CountingPrinted(f: Name, n: Name, i: Name, k: seq<Token>)
    requires f != n && f != i && n != i
    ensures [FuncKw, Id(f)] + PrintFn(Counting(n, i), k) ==
            [FuncKw, Id(f), LParen, Id(n), RParen, LCurl] + CountTokens(n, i) + [RCurl] + k
  {
    hide Counter, PrintS, CountTokens;
    var u := [RCurl] + k;
    CounterPrinted(f, n, i, u);
    assert PrintD(Done, u) == u;
    assert PrintD(Counting(n, i).body, u) == CountTokens(n, i) + u;
    var b := [RParen, LCurl] + (CountTokens(n, i) + u);
    assert PrintParams([n], b) == [Id(n)] + b;
    assert PrintFn(Counting(n, i), k) == [LParen] + ([Id(n)] + b);
    OneHeadFlat(f, n, CountTokens(n, i), k);
  }

  lemma OneHeadFlat(f: Name, n: Name, s: seq<Token>, k: seq<Token>)
    ensures [FuncKw, Id(f)] + ([LParen] + ([Id(n)] + ([RParen, LCurl] + (s + ([RCurl] + k))))) ==
            [FuncKw, Id(f), LParen, Id(n), RParen, LCurl] + s + [RCurl] + k
  {
  }

  lemma DriverFacts(f: Name, k: nat, obj: nat, locals: seq<Variable>)
    requires obj < 256
    ensures var s := Driver(f, k);
            && PrintS(s, [Eof]) == DriverTokens(f, k) && ResolvesS(s, locals, 0, map[f := obj], false) && Modest(s, 3)
            && SizeS(s) == 6 && |LitsS(s)| == 1 && IfsS(s) == 0 && NoLocals(s)
  {
    var x := Leaf(Number(k as real));
    var args, e := Cons(x, Nil), Call(FuncRef(f), Cons(x, Nil));
    NumberOperand(k as real, Names(locals), map[f := obj]);
    SpellsLeaf(Number(k as real), PREC_ASSIGNMENT, Names(locals), map[f := obj]);
    assert SizeE(x) == 2 && |LitsE(x)| == 1 && SoundE(x) && NoLocalsE(x);
    hide Leaf, Postfix, Newest, Atomic;
    assert SizeArgs(Nil) == 0 && LitsArgs(Nil) == [] && SoundArgs(Nil) && NoLocalsArgs(Nil)
           && ResolvesArgs(Nil, Names(locals), map[f := obj]) && Syntax.Count(Nil) == 0;
    assert SizeArgs(args) == 2 && |LitsArgs(args)| == 1 && SoundArgs(args) && NoLocalsArgs(args)
           && ResolvesArgs(args, Names(locals), map[f := obj]) && Syntax.Count(args) == 1;
    assert SoundE(FuncRef(f)) && NoLocalsE(FuncRef(f)) && ResolvesE(FuncRef(f), Names(locals), map[f := obj]);
    assert SizeE(e) == 6 && |LitsE(e)| == 1 && SoundE(e) && NoLocalsE(e) && ResolvesE(e, Names(locals), map[f := obj]);
    DriverPrinted(f, k);
  }

  lemma DriverPrinted(f: Name, k: nat)
    ensures PrintS(Driver(f, k), [Eof]) == DriverTokens(f, k)
  {
    var x, u := Leaf(Number(k as real)), [Semi] + [Eof];
    var args := Cons(x, Nil);
    assert PrintArgs(args, [RParen] + u) == Print(x, PREC_ASSIGNMENT, [RParen] + u) ==
           [Number(k as real)] + ([RParen] + u);
    hide PrintArgs, Leaf;
    var t := [LParen] + ([Number(k as real)] + ([RParen] + u));
    assert Print(FuncRef(f), PREC_CALL, t) == [Id(f)] + t;
    assert Print(Call(FuncRef(f), args), PREC_ASSIGNMENT, u) == [Id(f)] + t;
  }

  // ------------------------------------------------------ what the loop means

  /** The numbers from j to k, without k. */
  function Upto(j: nat, k: nat): seq<Element>
    requires j <= k
  {
    seq(k - j, t => Num((j + t) as real))
  }

  lemma UptoNext(j: nat, k: nat, out: Output)
    requires j < k
    ensures out + [Num(j as real)] + Upto(j + 1, k) == out + Upto(j, k)
  {
  }

  lemma TurnMeans(p: Program, n: Name, i: Name, j: nat, k: nat, out: Output, fuel: nat)
    requires n != i
    ensures var names, vals := [n, i], [Num(k as real), Num(j as real)];
            && EvalE(p, Bin(Lt, Local(i), Local(n)), names, vals, out, fuel) == Val(Bool(j < k), vals, out)
            && Exec(p, Tell(i), names, vals, out, fuel) == Norm(vals, out + [Num(j as real)])
            && Perform(p, Bump(i, true, false), names, vals, out, fuel) ==
               Norm([Num(k as real), Num((j + 1) as real)], out)
  {
    var names, vals := [n, i], [Num(k as real), Num(j as real)];
    TwoNames(n, i);
    hide Newest;
    assert EvalE(p, Local(i), names, vals, out, fuel) == Val(Num(j as real), vals, out);
    assert EvalE(p, Local(n), names, vals, out, fuel) == Val(Num(k as real), vals, out);
    Evaluates(p, Lt, Local(i), Local(n), names, vals, out, fuel, Num(j as real), Num(k as real), Bool(j < k));
    PoutMeans(p, Local(i), names, vals, out, fuel, Num(j as real));
    assert j as real + 1.0 == (j + 1) as real;
    assert vals[1 := Num((j + 1) as real)] == [Num(k as real), Num((j + 1) as real)];
    assert EvalE(p, Bump(i, true, false), names, vals, out, fuel) ==
           Val(Num((j + 1) as real), [Num(k as real), Num((j + 1) as real)], out);
  }

  lemma {:induction false} LoopMeans(p: Program, n: Name, i: Name, j: nat, k: nat, out: Output, fuel: nat)
    requires n != i && j <= k
    ensures var r := ExecLoop(p, Counter(n, i), [n, i], [Num(k as real), Num(j as real)], out, fuel);
            r == Norm([Num(k as real), Num(k as real)], out + Upto(j, k)) || r == SStop(Timeout)
    decreases k - j
  {
    TurnMeans(p, n, i, j, k, out, fuel);
    if j == k {
      assert out + Upto(j, k) == out;
    } else {
      TurnMeans(p, n, i, j, k, out + [Num(j as real)], fuel);
      UptoNext(j, k, out);
      if fuel > 0 {
        LoopMeans(p, n, i, j + 1, k, out + [Num(j as real)], fuel - 1);
      }
    }
    hide EvalE, Exec, Perform, Tell, Upto;
  }

  lemma CountingMeans(p: Program, n: Name, i: Name, k: nat, fuel: nat)
    requires n != i
    ensures var r := ExecD(p, Counting(n, i).body, [n], [Num(k as real)], [], fuel);
            r == Norm([Num(k as real)], Upto(0, k)) || r == SStop(Timeout)
  {
    var vals, zero := [Num(k as real)], Leaf(Number(0.0));
    Numeric(p, 0.0, [n] + [i], vals, [], fuel);
    LoopMeans(p, n, i, 0, k, [], fuel);
    hide EvalE, ExecLoop, Upto;
    assert [n] + [i] == [n, i] && vals + [Num(0.0)] == [Num(k as real), Num(0 as real)];
    assert [Num(k as real), Num(k as real)][..1] == vals && [] + Upto(0, k) == Upto(0, k);
    var r := Exec(p, Counter(n, i), [n], vals, [], fuel);
    assert r == Norm(vals, Upto(0, k)) || r == SStop(Timeout);
    hide Exec;
    assert r.Norm? ==> ExecD(p, Done, [n], r.vals, r.out, fuel) == r;
  }

  lemma DriverMeans(f: Name, n: Name, i: Name, k: nat, blank: Name, c: Element, fuel: nat)
    requires n != i
    ensures var r := Exec(Program([Counting(n, i)], map[f := 0]), Driver(f, k), [blank], [c], [], fuel);
            r == Norm([c], Upto(0, k)) || r == SStop(Timeout)
  {
    var p, x := Program([Counting(n, i)], map[f := 0]), Leaf(Number(k as real));
    var e, v := Call(FuncRef(f), Cons(x, Nil)), Num(k as real);
    Numeric(p, k as real, [blank], [c], [], fuel);
    assert EvalE(p, FuncRef(f), [blank], [c], [], fuel) == Val(Closure(0), [c], []);
    assert EvalArgs(p, Nil, [blank], [c], [], fuel) == Vs([], [c], []);
    assert EvalArgs(p, e.args, [blank], [c], [], fuel) == Vs([v] + [], [c], []);
    assert [v] + [] == [v] && [Closure(0), v][1..] == [v];
    CallStep(p, e, [blank], [c], [], fuel, [Closure(0), v]);
    if fuel > 0 {
      CountingMeans(p, n, i, k, fuel - 1);
      assert RunBody(p, Closure(0), [v], [], fuel - 1) == ExecD(p, Counting(n, i).body, [n], [v], [], fuel - 1);
    }
    hide EvalE, RunBody, ExecD, Upto, Operands;
  }

  /** `func f(n) { for (var i = 0; i < n; i++) pout(i); } f(k);` prints 0 to k - 1. */
  method PrintNumbers(f: Name, n: Name, i: Name, k: nat, names: seq<Name>, natives: seq<Element>, blank: Name,
                      limit: nat, turns: nat)
    returns (status: M.Status, out: seq<Element>)
    requires |names| == |natives| <= 11 && NoRepeats(names) && 1 <= limit <= 256
    requires f != n && f != i && n != i && f !in names
    ensures Prints(status, out, seq(k, t => Num(t as real)))
  {
    ghost var d, s := Counting(n, i), Driver(f, k);
    ghost var items, obj := [Fun(f, d), Stat(s, Whole)], |names|;
    CountingWellFormed(f, n, i, k);
    assert Upto(0, k) == seq(k, t => Num(t as real));
    hide PrintItems, ScriptFits, ModestScript, High, Compilation.NewNames, Compilation.Bearable, RunItems, FunCount,
         Counting, Driver, CountingTokens, ResolvesS, Modest, ModestD, FnFits, SizeS, LitsS, IfsS, IfsD, Exec, PrintFn,
         NoLocals, CountTokens, DriverTokens, Upto;
    CountingFits(f, n, i, obj);
    DriverFacts(f, k, obj, Blanks(blank, 1));
    OneFunction(f, d, s, blank, names);
    FunctionPrinted(f, d, s);
    CountingPrinted(f, n, i, DriverTokens(f, k));
    CountingFlat(f, n, i, k);
    DriverMeans(f, n, i, k, blank, Closure(1), turns + 1);
    FunctionMeans(f, d, s, blank, Closure(1), Exec(Program([d], map[f := 0]), s, [blank], [Closure(1)], [], turns + 1),
                  turns + 1);
    status, out := Interpreter.Interpret(CountingTokens(f, n, i, k), names, natives, blank, limit, turns, items);
  }

  lemma CountingFlat(f: Name, n: Name, i: Name, k: nat)
    ensures CountingTokens(f, n, i, k) ==
            [FuncKw, Id(f), LParen, Id(n), RParen, LCurl] + CountTokens(n, i) + [RCurl] + DriverTokens(f, k)
  {
    hide CountTokens, DriverTokens;
  }

  lemma CountingWellFormed(f: Name, n: Name, i: Name, k: nat)
    ensures var ts := CountingTokens(f, n, i, k);
            ts != [] && ts[|ts| - 1].Eof? && forall j :: 0 <= j < |ts| - 1 ==> !ts[j].Eof?
  {
  }
}
