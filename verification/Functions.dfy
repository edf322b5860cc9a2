/** Compiling a function, and a whole script. */
module Functions {
  import opened Values
  import opened Syntax
  import opened Bytecode
  import opened Layout
  import opened Emission
  import opened Spine
  import opened Prefixes
  import opened StmtEmission
  import opened Statements
  import opened Recovery
  import Machine

  // -------------------------------------------------------------- parameters

  function ParamVars(ps: seq<Name>, scope: nat): (vs: seq<Variable>)
    ensures |vs| == |ps|
    ensures Names(vs) == ps
  {
    seq(|ps|, i requires 0 <= i < |ps| => Variable(ps[i], scope))
  }

  /** The compiler of a function, as `func_body` starts it. */
  predicate ReadyFn(fns: Fns, a: State, d: FunDef, k: seq<Token>) {
    && Sees(a, PrintFn(d, k)) && Clean(a)
    && a.locals == [] && a.ch == Chunk([], [], []) && a.scope + 1 < 256
    && NoRepeats(d.params) && |d.params| <= LOCAL_COUNT
    && ResolvesD(d.body, ParamVars(d.params, a.scope + 1), a.scope + 1, fns, true)
    && Roomy(a, 2 * |d.params| + SizeD(d.body), |LitsD(d.body)|, IfsD(d.body))
  }

  predicate DidFn(fns: Fns, b: State, d: FunDef, k: seq<Token>) {
    && FnCode(d, fns, b.ch) && b.ch.consts == LitsD(d.body) && Sees(b, k) && Clean(b)
  }

  /** `i` parameters have been compiled. */
  predicate ParamsDone(a: State, b: State, ps: seq<Name>, i: nat) {
    && i <= |ps| && b.scope == a.scope && Clean(b)
    && b.locals == ParamVars(ps[..i], a.scope)
    && b.ch.consts == [] && b.ch.cases == [] && |b.ch.code| == 2 * i
    && (forall k :: 0 <= k < i ==> At2(b.ch, 2 * k, OP_SET_LOCAL_PARAM, k))
  }

  /** The parameter list is open after `i` parameters. */
  predicate ParamsLeft(a: State, b: State, ps: seq<Name>, i: nat, k: seq<Token>) {
    && ParamsDone(a, b, ps, i) && 0 < a.scope < 256
    && Sees(b, PrintParams(ps[i..], [RParen] + k))
    && NoRepeats(ps) && |ps| <= LOCAL_COUNT
  }

  lemma ParamsStart(fns: Fns, a: State, a0: State, a1: State, d: FunDef, k: seq<Token>)
    requires ReadyFn(fns, a, d, k) && a0 == a.(scope := (a.scope + 1) % 256)
    ensures a0.p.cur == LParen && a0.scope == a.scope + 1
    ensures Skipped(a0, a1) ==> ParamsLeft(a0, a1, d.params, 0, [LCurl] + PrintD(d.body, [RCurl] + k))
  {
    var ts := [LCurl] + PrintD(d.body, [RCurl] + k);
    assert [RParen, LCurl] + PrintD(d.body, [RCurl] + k) == [RParen] + ts;
    assert d.params[0..] == d.params && d.params[..0] == [];
    SkipSees(a0, a1, LParen, PrintParams(d.params, [RParen] + ts));
    hide PrintParams, PrintD, ResolvesD, SizeD, LitsD, IfsD;
  }

  lemma ParamNext(a: State, b: State, c: State, ps: seq<Name>, i: nat, k: seq<Token>)
    requires ParamsLeft(a, b, ps, i, k) && i < |ps|
    ensures b.p.cur == Id(ps[i]) && MayDeclare(b.locals, b.scope, ps[i])
            && Newest(Names(b.locals + [Variable(ps[i], b.scope)]), ps[i]) == i
  {
    assert ([b.p.cur] + b.p.rest)[0] == b.p.cur;
    NewestNew(b.locals, Variable(ps[i], b.scope));
    forall j | 0 <= j < |b.locals| ensures b.locals[j].name != ps[i] {
      assert ps[..i][j] == ps[j];
    }
  }

  /** One more parameter; `comma` tells whether a comma was there and has been consumed. */
  lemma ParamDone(a: State, b: State, c: State, d: State, ps: seq<Name>, i: nat, k: seq<Token>)
    requires ParamsLeft(a, b, ps, i, k) && i < |ps|
    requires Clean(c) && c.scope == b.scope && c.locals == b.locals + [Variable(ps[i], b.scope)]
    requires c.ch == Extend(b.ch, [OP_SET_LOCAL_PARAM, i]) && [c.p.cur] + c.p.rest == b.p.rest
    requires if c.p.cur == Comma then Skipped(c, d) else d == c
    ensures c.p.cur == Comma <==> i + 1 < |ps|
    ensures i + 1 < |ps| ==> ParamsLeft(a, d, ps, i + 1, k)
    ensures i + 1 == |ps| ==> ParamsDone(a, d, ps, i + 1) && Sees(d, [RParen] + k)
  {
    var r := ps[i..];
    assert r[1..] == ps[i + 1..];
    assert ([b.p.cur] + b.p.rest)[1..] == b.p.rest;
    if |r| == 1 {
      assert b.p.rest == [RParen] + k;
      assert ([c.p.cur] + c.p.rest)[0] == RParen;
    } else {
      assert b.p.rest == [Comma] + PrintParams(ps[i + 1..], [RParen] + k);
      SkipSees(c.(p := c.p.(cur := c.p.cur)), d, Comma, PrintParams(ps[i + 1..], [RParen] + k));
    }
    ParamCode(a, b, c, ps, i);
    hide PrintParams;
  }

  lemma ParamCode(a: State, b: State, c: State, ps: seq<Name>, i: nat)
    requires ParamsDone(a, b, ps, i) && i < |ps| && i < 256
    requires Clean(c) && c.scope == b.scope && c.locals == b.locals + [Variable(ps[i], b.scope)]
    requires c.ch == Extend(b.ch, [OP_SET_LOCAL_PARAM, i])
    ensures ParamsDone(a, c, ps, i + 1)
  {
    assert c.locals == ParamVars(ps[..i + 1], a.scope);
    forall k | 0 <= k < i + 1 ensures At2(c.ch, 2 * k, OP_SET_LOCAL_PARAM, k) {
      if k < i {
        assert At2(b.ch, 2 * k, OP_SET_LOCAL_PARAM, k);
      }
    }
  }

  lemma ParamsNone(a: State, b: State, ps: seq<Name>, k: seq<Token>)
    requires ParamsLeft(a, b, ps, 0, k)
    ensures b.p.cur == RParen <==> ps == []
    ensures ps == [] ==> ParamsDone(a, b, ps, |ps|) && Sees(b, [RParen] + k)
  {
    assert ([b.p.cur] + b.p.rest)[0] == b.p.cur;
    assert ps[0..] == ps;
  }

  // -------------------------------------------------------------------- body

  lemma BodyReady(fns: Fns, a: State, a0: State, b: State, c: State, d: FunDef, k: seq<Token>)
    requires ReadyFn(fns, a, d, k) && a0 == a.(scope := a.scope + 1)
    requires ParamsDone(a0, b, d.params, |d.params|) && SameScope(b, c) && c.ch == b.ch
             && Sees(c, PrintD(d.body, [RCurl] + k))
    ensures ReadyD(fns, true, c, d.body, k)
  {
    assert d.params[..|d.params|] == d.params;
    hide PrintD, ResolvesD, SizeD, LitsD, IfsD;
  }

  /** After the body: OP_RETURN, and whatever `end_scope` still appends. */
  lemma BodyDone(fns: Fns, a: State, a0: State, b: State, c: State, e: State, f: State, g: State, d: FunDef,
                 k: seq<Token>)
    requires ReadyFn(fns, a, d, k) && a0 == a.(scope := a.scope + 1)
    requires ParamsDone(a0, b, d.params, |d.params|) && SameScope(b, c) && c.ch == b.ch
    requires EmittedD(fns, c, e, d.body) && Sees(e, k) && f == Emit(e, [OP_RETURN]) && Closed(f, g) && g.p == f.p
    ensures DidFn(fns, g, d, k)
  {
    hide PrintD, ResolvesD, SizeD, LitsD, IfsD, LaidD, Trailing, PopBytes, Variables, PrintFn, Roomy;
    assert d.params[..|d.params|] == d.params;
    assert Names(c.locals) == d.params;
    BodyCode(fns, b.ch, e.ch, g.ch, d);
  }

  lemma BodyCode(fns: Fns, b: Chunk, e: Chunk, g: Chunk, d: FunDef)
    requires |b.code| == 2 * |d.params| && forall i :: 0 <= i < |d.params| ==> At2(b, 2 * i, OP_SET_LOCAL_PARAM, i)
    requires Grows(b, e) && |e.code| == |b.code| + SizeD(d.body) && |e.cases| == IfsD(d.body)
    requires LaidD(d.body, d.params, fns, e, |b.code|, 0)
    requires e.code + [OP_RETURN] <= g.code && e.consts == g.consts && e.consts == b.consts + LitsD(d.body)
             && b.consts == [] && e.cases == g.cases
    ensures FnCode(d, fns, g) && g.consts == LitsD(d.body)
  {
    hide SizeD, LaidD, IfsD;
    FrameD(d.body, d.params, fns, e, g, |b.code|, 0);
    forall i | 0 <= i < |d.params| ensures At2(g, 2 * i, OP_SET_LOCAL_PARAM, i) {
      assert At2(b, 2 * i, OP_SET_LOCAL_PARAM, i);
    }
    assert g.code[|e.code|] == (e.code + [OP_RETURN])[|e.code|];
  }

  lemma TwoTokens(a: State, b: State, c: State, ts: seq<Token>)
    requires Sees(a, [RParen] + ([LCurl] + ts))
    ensures a.p.cur == RParen
    ensures Skipped(a, b) ==> b.p.cur == LCurl
    ensures Skipped(a, b) && Skipped(b, c) ==> Sees(c, ts) && SameScope(a, c) && c.ch == a.ch
  {
    SkipSees(a, b, RParen, [LCurl] + ts);
    if Skipped(a, b) {
      SkipSees(b, c, LCurl, ts);
    }
  }

  // ----------------------------------------------------------------- scripts

  function FunCount(items: seq<Item>): nat {
    if items == [] then 0
    else FunCount(items[..|items| - 1]) + (if items[|items| - 1].Fun? then 1 else 0)
  }

  /** The functions declared by a script, with their object indices from `obj` on. */
  function FnsOf(items: seq<Item>, obj: nat): Fns {
    if items == [] then map[]
    else
      var q := items[..|items| - 1];
      match items[|items| - 1]
      case Fun(f, _) => FnsOf(q, obj)[f := obj + FunCount(q)]
      case Stat(_, _) => FnsOf(q, obj)
  }

  function DefsOf(items: seq<Item>): (ds: seq<FunDef>)
    ensures |ds| == FunCount(items)
  {
    if items == [] then []
    else
      DefsOf(items[..|items| - 1]) + (match items[|items| - 1] case Fun(_, d) => [d] case Stat(_, _) => [])
  }

  function SizeItem(x: Item): nat {
    match x case Fun(_, _) => 3 case Stat(s, _) => SizeS(s)
  }

  /** The constants of an item of the script, in order; `fn` is the number of a declared function. */
  function LitsItem(x: Item, fn: nat): seq<Element> {
    match x case Fun(_, _) => [Closure(fn)] case Stat(s, _) => LitsS(s)
  }

  function IfsItem(x: Item): nat {
    match x case Fun(_, _) => 0 case Stat(s, _) => IfsS(s)
  }

  function SizeItems(items: seq<Item>): nat {
    if items == [] then 0 else SizeItems(items[..|items| - 1]) + SizeItem(items[|items| - 1])
  }

  function LitsItems(items: seq<Item>): seq<Element> {
    if items == [] then []
    else
      var q := items[..|items| - 1];
      LitsItems(q) + LitsItem(items[|items| - 1], FunCount(q))
  }

  function IfsItems(items: seq<Item>): nat {
    if items == [] then 0 else IfsItems(items[..|items| - 1]) + IfsItem(items[|items| - 1])
  }

  /** The locals of a script's compiler: its own first slot, and one more per function
      declared so far. Their names are never set; `blank` is whatever lies there. */
  function Blanks(blank: Name, n: nat): (vs: seq<Variable>)
    ensures |vs| == n + 1 && Nested(vs, 0)
  {
    seq(n + 1, i => Variable(blank, 0))
  }

  /** Where item `i` finds itself when its turn comes. */
  datatype Spot = Spot(names: seq<Variable>, fns: Fns, obj: nat, fn: nat, pc: nat, nc: nat)

  function SpotOf(items: seq<Item>, i: nat, blank: Name, obj: nat): Spot
    requires i <= |items|
  {
    var q := items[..i];
    Spot(Blanks(blank, FunCount(q)), FnsOf(q, obj), obj + FunCount(q), FunCount(q), SizeItems(q), IfsItems(q))
  }

  /** OP_CLOSURE stores closure `fn` as object `obj`. */
  predicate LaidClosure(ch: Chunk, pc: nat, fn: nat, obj: nat) {
    && pc + 2 < |ch.code| && ch.code[pc] == OP_CLOSURE && ch.code[pc + 2] == obj
    && ch.code[pc + 1] < |ch.consts| && ch.consts[ch.code[pc + 1]] == Closure(fn)
  }

  predicate LaidItem(x: Item, s: Spot, ch: Chunk) {
    match x
    case Fun(_, _) => LaidClosure(ch, s.pc, s.fn, s.obj)
    case Stat(t, _) => LaidS(t, Names(s.names), s.fns, ch, s.pc, s.nc)
  }

  /** Item `i` is in the script's code, and its function among the functions. */
  predicate LaidAt(items: seq<Item>, i: nat, blank: Name, obj: nat, ch: Chunk, funcs: seq<Machine.Function>)
    requires i < |items|
  {
    var s := SpotOf(items, i, blank, obj);
    && LaidItem(items[i], s, ch)
    && (items[i].Fun? ==>
          && s.fn < |funcs|
          && funcs[s.fn].arity == |items[i].d.params|
          && funcs[s.fn].ch.consts == LitsD(items[i].d.body)
          && FnCode(items[i].d, s.fns[items[i].f := s.obj], funcs[s.fn].ch))
  }

  predicate LaidScript(items: seq<Item>, blank: Name, obj: nat, ch: Chunk, funcs: seq<Machine.Function>) {
    && |funcs| == FunCount(items)
    && (forall i :: 0 <= i < |items| ==> LaidAt(items, i, blank, obj, ch, funcs))
    && At1(ch, SizeItems(items), OP_RETURN) && |ch.code| == SizeItems(items) + 1
    && |ch.cases| == IfsItems(items) && ch.consts == LitsItems(items)
  }

  // -------------------------------------------------- what a script must be

  /** A function that its own compiler can handle. */
  predicate FnFits(d: FunDef, fns: Fns) {
    && NoRepeats(d.params) && |d.params| <= LOCAL_COUNT
    && ResolvesD(d.body, ParamVars(d.params, 1), 1, fns, true)
    && 2 * |d.params| + SizeD(d.body) < 32767 && |LitsD(d.body)| <= 256 && IfsD(d.body) < 65536
  }

  predicate ItemFits(x: Item, s: Spot) {
    match x
    case Fun(f, d) => f !in s.fns && s.obj < 256 && |s.names| < LOCAL_COUNT && FnFits(d, s.fns[f := s.obj])
    case Stat(t, _) => ResolvesS(t, s.names, 0, s.fns, false)
  }

  /** What follows item `i`, the tokens that are passed over included. */
  function Upcoming(items: seq<Item>, i: nat): seq<Token>
    requires i < |items|
  {
    var k := PrintItems(items[i + 1..]);
    if items[i].Stat? && items[i].end.Torn? then items[i].end.skipped + k else k
  }

  /** Where a semicolon is missing, something else stands, and parsing goes on with the next item. */
  predicate EndFits(items: seq<Item>, i: nat)
    requires i < |items|
  {
    items[i].Stat? && items[i].end.Torn? ==>
      var s, u := items[i].s, Upcoming(items, i);
      && (s.Eval? || s.Pout?) && u != [] && u[0] != Semi && (s.Eval? ==> Follow(PREC_ASSIGNMENT, u[0]))
      && Resume(u) == PrintItems(items[i + 1..])
  }

  /** A script the compiler accepts: names resolve, and everything fits its field. */
  predicate ScriptFits(items: seq<Item>, blank: Name, obj: nat) {
    && (forall i :: 0 <= i < |items| ==> EndFits(items, i))
    && (forall i :: 0 <= i < |items| ==> ItemFits(items[i], SpotOf(items, i, blank, obj)))
    && SizeItems(items) < 32767 && |LitsItems(items)| <= 256 && IfsItems(items) < 65536
    && FunCount(items) < LOCAL_COUNT
  }

  lemma {:induction false} PrefixBounds(items: seq<Item>, i: nat)
    requires i <= |items|
    ensures SizeItems(items[..i]) <= SizeItems(items) && |LitsItems(items[..i])| <= |LitsItems(items)|
            && IfsItems(items[..i]) <= IfsItems(items)
    ensures FunCount(items[..i]) <= FunCount(items)
    decreases |items|
  {
    hide SizeItem, LitsItem, IfsItem;
    if i < |items| {
      var q := items[..|items| - 1];
      assert q[..i] == items[..i];
      PrefixBounds(q, i);
    } else {
      assert items[..i] == items;
    }
  }

  /** The sizes before and after item `i`. */
  lemma NextSpot(items: seq<Item>, i: nat, blank: Name, obj: nat)
    requires i < |items|
    ensures var s, t := SpotOf(items, i, blank, obj), SpotOf(items, i + 1, blank, obj);
            && t.pc == s.pc + SizeItem(items[i]) && t.nc == s.nc + IfsItem(items[i])
            && LitsItems(items[..i + 1]) == LitsItems(items[..i]) + LitsItem(items[i], FunCount(items[..i]))
            && (items[i].Fun? ==> t.fn == s.fn + 1 && t.obj == s.obj + 1 && t.fns == s.fns[items[i].f := s.obj]
                                  && t.names == s.names + [Variable(blank, 0)])
            && (items[i].Stat? ==> t == s.(pc := t.pc, nc := t.nc))
  {
    hide SizeItem, LitsItem, IfsItem;
    var q := items[..i + 1];
    assert q[..|q| - 1] == items[..i] && q[|q| - 1] == items[i];
  }

  // --------------------------------------------------------- script states

  /** The script's compiler before item `i`. */
  predicate AtItem(items: seq<Item>, i: nat, blank: Name, obj: nat, fns: Fns, a: State, funcs: seq<Machine.Function>) {
    && i <= |items| && ScriptFits(items, blank, obj)
    && Clean(a) && a.scope == 0 && Sees(a, PrintItems(items[i..]))
    && var s := SpotOf(items, i, blank, obj);
       && a.locals == s.names && fns == s.fns && |funcs| == s.fn
       && |a.ch.code| == s.pc && |a.ch.cases| == s.nc && a.ch.consts == LitsItems(items[..i])
       && (forall j :: 0 <= j < i ==> LaidAt(items, j, blank, obj, a.ch, funcs))
  }

  lemma NoArmItems(items: seq<Item>)
    ensures NoArm(PrintItems(items))
  {
    hide Print, PrintArgs, PrintArms, PrintOpt, PrintD, PrintFn;
    if items != [] && items[0].Stat? {
      var s, k := items[0].s, PrintItems(items[1..]);
      KeywordFirst(s, k);
      if s.Eval? {
        PrintFirst(s.e, PREC_ASSIGNMENT, [Semi] + k);
        if items[0].end.Torn? {
          PrintFirst(s.e, PREC_ASSIGNMENT, items[0].end.skipped + k);
        }
      }
    }
  }

  lemma ItemFirst(items: seq<Item>, i: nat, blank: Name, obj: nat, fns: Fns, a: State, b: State,
                  funcs: seq<Machine.Function>)
    requires AtItem(items, i, blank, obj, fns, a, funcs)
    ensures a.p.cur.Eof? <==> i == |items|
    ensures i < |items| ==> (a.p.cur == FuncKw <==> items[i].Fun?)
    ensures i < |items| && items[i].Stat? && items[i].end.Whole? ==>
            ReadyS(fns, false, a, items[i].s, Upcoming(items, i))
    ensures i < |items| && items[i].Stat? && items[i].end.Torn? ==>
            ReadyTorn(fns, false, a, items[i].s, Upcoming(items, i))
    ensures i < |items| && items[i].Fun? && Skipped(a, b) ==>
            Sees(b, [Id(items[i].f)] + PrintFn(items[i].d, PrintItems(items[i + 1..])))
  {
    hide LaidAt, SpotOf, ScriptFits, ResolvesS, ReadyS, ReadyTorn, Upcoming, PrintFn;
    if i == |items| {
      assert ([a.p.cur] + a.p.rest)[0] == a.p.cur;
    } else if items[i].Fun? {
      FunFirst(items[i..], a, b);
      assert items[i..][1..] == items[i + 1..];
    } else {
      StatReady(items, i, blank, obj, fns, a, funcs);
      if items[i].end.Whole? {
        StatementFirst(fns, false, a, items[i].s, Upcoming(items, i));
      } else {
        TornFirst(fns, false, a, a, items[i].s, Upcoming(items, i));
      }
    }
  }

  lemma FunFirst(items: seq<Item>, a: State, b: State)
    requires items != [] && items[0].Fun? && Sees(a, PrintItems(items))
    ensures a.p.cur == FuncKw
    ensures Skipped(a, b) ==> Sees(b, [Id(items[0].f)] + PrintFn(items[0].d, PrintItems(items[1..])))
  {
    hide PrintFn;
    var f, k := items[0].f, PrintFn(items[0].d, PrintItems(items[1..]));
    assert [FuncKw, Id(f)] + k == [FuncKw] + ([Id(f)] + k);
    SkipSees(a, b, FuncKw, [Id(f)] + k);
  }

  lemma StatReady(items: seq<Item>, i: nat, blank: Name, obj: nat, fns: Fns, a: State, funcs: seq<Machine.Function>)
    requires AtItem(items, i, blank, obj, fns, a, funcs) && i < |items| && items[i].Stat?
    ensures items[i].end.Whole? ==> ReadyS(fns, false, a, items[i].s, Upcoming(items, i))
    ensures items[i].end.Torn? ==> ReadyTorn(fns, false, a, items[i].s, Upcoming(items, i))
  {
    hide PrintS, PrintUpTo, ResolvesS, SizeS, LitsS, IfsS, LaidAt, Blanks, FnsOf, FunCount, SizeItems, LitsItems,
         IfsItems;
    var r := items[i..];
    assert r[0] == items[i] && r[1..] == items[i + 1..];
    NoArmItems(items[i + 1..]);
    PrefixBounds(items, i + 1);
    NextSpot(items, i, blank, obj);
    assert ItemFits(items[i], SpotOf(items, i, blank, obj)) && EndFits(items, i);
  }

  lemma KeepsItems(items: seq<Item>, i: nat, blank: Name, obj: nat, ch: Chunk, ch': Chunk, funcs: seq<Machine.Function>,
                   funcs': seq<Machine.Function>)
    requires i <= |items| && |ch.code| == SizeItems(items[..i]) && Grows(ch, ch') && funcs <= funcs'
    requires forall j :: 0 <= j < i ==> LaidAt(items, j, blank, obj, ch, funcs)
    ensures forall j :: 0 <= j < i ==> LaidAt(items, j, blank, obj, ch', funcs')
  {
    hide LaidAt;
    forall j | 0 <= j < i ensures LaidAt(items, j, blank, obj, ch', funcs') {
      KeepsItem(items, j, i, blank, obj, ch, ch', funcs, funcs');
    }
  }

  lemma KeepsItem(items: seq<Item>, j: nat, i: nat, blank: Name, obj: nat, ch: Chunk, ch': Chunk,
                  funcs: seq<Machine.Function>, funcs': seq<Machine.Function>)
    requires j < i <= |items| && |ch.code| == SizeItems(items[..i]) && Grows(ch, ch') && funcs <= funcs'
    requires LaidAt(items, j, blank, obj, ch, funcs)
    ensures LaidAt(items, j, blank, obj, ch', funcs')
  {
    hide SpotOf, LaidItem, FnCode, SizeItem, LitsItem, IfsItem, FunCount, FnsOf, SizeItems, LitsItems, IfsItems, LitsD;
    ItemEnds(items, j, i, blank, obj);
    ItemKept(items[j], SpotOf(items, j, blank, obj), ch, ch');
  }

  lemma ItemEnds(items: seq<Item>, j: nat, i: nat, blank: Name, obj: nat)
    requires j < i <= |items|
    ensures SpotOf(items, j, blank, obj).pc + SizeItem(items[j]) <= SizeItems(items[..i])
  {
    hide SizeItem, LitsItem, IfsItem, FunCount, FnsOf, SizeItems, LitsItems, IfsItems;
    var q := items[..i];
    PrefixBounds(q, j + 1);
    assert q[..j + 1] == items[..j + 1];
    NextSpot(items, j, blank, obj);
  }

  lemma ItemKept(x: Item, s: Spot, ch: Chunk, ch': Chunk)
    requires LaidItem(x, s, ch) && Grows(ch, ch') && s.pc + SizeItem(x) <= |ch.code|
    ensures LaidItem(x, s, ch')
  {
    if x.Stat? {
      FrameS(x.s, Names(s.names), s.fns, ch, ch', s.pc, s.nc);
    }
    hide LaidS, SizeS;
  }

  lemma StatDone(items: seq<Item>, i: nat, blank: Name, obj: nat, fns: Fns, a: State, b: State,
                 funcs: seq<Machine.Function>)
    requires AtItem(items, i, blank, obj, fns, a, funcs) && i < |items| && items[i].Stat?
    requires DidS(fns, a, b, items[i].s, PrintItems(items[i + 1..]))
    ensures AtItem(items, i + 1, blank, obj, fns, b, funcs)
  {
    KeepsItems(items, i, blank, obj, a.ch, b.ch, funcs, funcs);
    NextSpot(items, i, blank, obj);
    hide LaidS, SizeS, LitsS, IfsS, PrintItems, SizeItems, LitsItems, IfsItems, FnsOf, FunCount, Blanks, ScriptFits;
    assert LaidAt(items, i, blank, obj, b.ch, funcs);
  }

  lemma FunReady(items: seq<Item>, i: nat, blank: Name, obj: nat, fns: Fns, a: State, b: State,
                 funcs: seq<Machine.Function>)
    requires AtItem(items, i, blank, obj, fns, a, funcs) && i < |items| && items[i].Fun? && Skipped(a, b)
    ensures ReadyFun(fns, b, obj + |funcs|, items[i].f, items[i].d, PrintItems(items[i + 1..]))
  {
    ItemFirst(items, i, blank, obj, fns, a, b, funcs);
    PrefixBounds(items, i + 1);
    NextSpot(items, i, blank, obj);
    SpotFn(items, i, blank, obj, fns, a, funcs);
    assert ItemFits(items[i], SpotOf(items, i, blank, obj));
    hide FnFits, LaidAt, Blanks, FnsOf, FunCount, SizeItems, LitsItems, IfsItems, PrintItems, PrintFn;
  }

  lemma FnReady(fns: Fns, a: State, d: FunDef, k: seq<Token>)
    requires FnFits(d, fns) && Sees(a, PrintFn(d, k)) && Clean(a)
    requires a == State(a.p, [], 0, Current(0, 0, 0), Chunk([], [], []))
    ensures ReadyFn(fns, a, d, k)
  {
  }

  /** A function has been compiled; its closure's instruction is appended. */
  lemma FunDone(items: seq<Item>, i: nat, blank: Name, obj: nat, fns: Fns, a: State, b: State,
                funcs: seq<Machine.Function>, g: Machine.Function)
    requires AtItem(items, i, blank, obj, fns, a, funcs) && i < |items| && items[i].Fun?
    requires DidFun(fns[items[i].f := obj + |funcs|], a, b, obj + |funcs|, |funcs|, blank, items[i].d, g,
             PrintItems(items[i + 1..]))
    ensures AtItem(items, i + 1, blank, obj, fns[items[i].f := obj + |funcs|], b, funcs + [g])
  {
    hide FnCode, PrintItems, LaidAt, LaidItem, Blanks, ScriptFits, FunCount, FnsOf, SizeItems, LitsItems, IfsItems,
         LitsD;
    var funcs' := funcs + [g];
    assert Grows(a.ch, b.ch);
    KeepsItems(items, i, blank, obj, a.ch, b.ch, funcs, funcs');
    NextSpot(items, i, blank, obj);
    FunLaid(items, i, blank, obj, fns, a, b, funcs, g);
  }

  lemma FunLaid(items: seq<Item>, i: nat, blank: Name, obj: nat, fns: Fns, a: State, b: State,
                funcs: seq<Machine.Function>, g: Machine.Function)
    requires AtItem(items, i, blank, obj, fns, a, funcs) && i < |items| && items[i].Fun?
    requires DidFun(fns[items[i].f := obj + |funcs|], a, b, obj + |funcs|, |funcs|, blank, items[i].d, g,
             PrintItems(items[i + 1..]))
    ensures LaidAt(items, i, blank, obj, b.ch, funcs + [g])
  {
    var s := SpotOf(items, i, blank, obj);
    SpotFn(items, i, blank, obj, fns, a, funcs);
    assert LaidClosure(b.ch, s.pc, s.fn, s.obj);
    hide FnCode, PrintItems, SpotOf, ScriptFits, LaidClosure;
  }

  lemma ScriptStart(items: seq<Item>, blank: Name, obj: nat, a: State)
    requires ScriptFits(items, blank, obj) && Sees(a, PrintItems(items)) && Clean(a)
    requires a == State(a.p, [Variable(blank, 0)], 0, Current(0, 0, 0), Chunk([], [], []))
    ensures AtItem(items, 0, blank, obj, map[], a, [])
  {
    assert items[0..] == items && items[..0] == [];
    assert Blanks(blank, 0) == [Variable(blank, 0)];
    hide PrintItems, ScriptFits;
  }

  lemma ScriptDone(items: seq<Item>, blank: Name, obj: nat, fns: Fns, a: State, b: State, funcs: seq<Machine.Function>)
    requires AtItem(items, |items|, blank, obj, fns, a, funcs) && b.ch == Extend(a.ch, [OP_RETURN])
    ensures LaidScript(items, blank, obj, b.ch, funcs)
  {
    assert items[..|items|] == items;
    KeepsItems(items, |items|, blank, obj, a.ch, b.ch, funcs, funcs);
    hide LaidAt, PrintItems, ScriptFits, LitsItems, FnsOf, Blanks;
  }

  // ------------------------------------------------------------- small facts

  lemma ScriptCount(items: seq<Item>, blank: Name, obj: nat, script: Chunk, funcs: seq<Machine.Function>)
    requires LaidScript(items, blank, obj, script, funcs)
    ensures |funcs| == FunCount(items)
  {
  }

  lemma ParamFacts(a: State, b: State, ps: seq<Name>, i: nat, k: seq<Token>)
    requires ParamsLeft(a, b, ps, i, k) && i < |ps|
    ensures b.p.cur == Id(ps[i]) && MayDeclare(b.locals, b.scope, ps[i])
            && Newest(Names(b.locals + [Variable(ps[i], b.scope)]), ps[i]) == i
    ensures Clean(b) && 0 < b.scope < 256 && i < 255 && |b.locals| == i
  {
    ParamNext(a, b, b, ps, i, k);
  }

  lemma ParamsClean(a: State, b: State, ps: seq<Name>)
    requires ParamsDone(a, b, ps, |ps|)
    ensures Clean(b)
  {
  }

  lemma BodyScope(fns: Fns, a0: State, b: State, c: State, e: State, d: FunDef)
    requires ParamsDone(a0, b, d.params, |d.params|) && SameScope(b, c) && EmittedD(fns, c, e, d.body)
    ensures e.scope == a0.scope
  {
  }

  lemma ItemClean(items: seq<Item>, i: nat, blank: Name, obj: nat, fns: Fns, a: State, funcs: seq<Machine.Function>)
    requires AtItem(items, i, blank, obj, fns, a, funcs)
    ensures Clean(a) && a.scope == 0 && i <= |items|
  {
  }

  lemma SpotFn(items: seq<Item>, i: nat, blank: Name, obj: nat, fns: Fns, a: State, funcs: seq<Machine.Function>)
    requires AtItem(items, i, blank, obj, fns, a, funcs)
    ensures var s := SpotOf(items, i, blank, obj); |funcs| == s.fn && s.obj == obj + |funcs| && s.fns == fns
  {
  }

  /** Either way the declaration ends before the next item. */
  lemma StatEnds(items: seq<Item>, i: nat, blank: Name, obj: nat, fns: Fns, a: State, b: State,
                 funcs: seq<Machine.Function>)
    requires AtItem(items, i, blank, obj, fns, a, funcs) && i < |items| && items[i].Stat?
    requires items[i].end.Whole? ==> DidDecl(fns, a, b, Do(items[i].s), Upcoming(items, i))
    requires items[i].end.Torn? ==> DidS(fns, a, b, items[i].s, Resume(Upcoming(items, i)))
    ensures DidS(fns, a, b, items[i].s, PrintItems(items[i + 1..]))
  {
    hide DidDecl, DidS, ItemFits, SpotOf, LaidAt, PrintItems, Resume;
    assert EndFits(items, i);
    if items[i].end.Whole? {
      DoneStat(fns, a, b, items[i].s, PrintItems(items[i + 1..]));
    }
  }

  lemma DoneStat(fns: Fns, a: State, b: State, s: Stmt, k: seq<Token>)
    requires DidDecl(fns, a, b, Do(s), k)
    ensures DidS(fns, a, b, s, k)
  {
    hide LaidS, SizeS, LitsS, IfsS, Variables;
    OneDo(s, a.scope);
    assert a.locals + [] == a.locals;
  }

  /** A declaration of `f` is ahead, and the compiler has room for it. */
  predicate ReadyFun(fns: Fns, a: State, obj: nat, f: Name, d: FunDef, k: seq<Token>) {
    && Sees(a, [Id(f)] + PrintFn(d, k)) && Clean(a) && a.scope == 0
    && |a.locals| < LOCAL_COUNT && |a.ch.consts| < 256 && f !in fns && obj < 256 && FnFits(d, fns[f := obj])
  }

  predicate DidFun(fns: Fns, a: State, b: State, obj: nat, fn: nat, blank: Name, d: FunDef, g: Machine.Function,
                   k: seq<Token>) {
    && g.arity == |d.params| && FnCode(d, fns, g.ch) && g.ch.consts == LitsD(d.body)
    && Clean(b) && b.scope == 0 && Sees(b, k)
    && b.locals == a.locals + [Variable(blank, 0)] && obj < 256 && |a.ch.consts| < 256
    && b.ch == Chunk(a.ch.code + [OP_CLOSURE, |a.ch.consts|, obj], a.ch.consts + [Closure(fn)], a.ch.cases)
  }

  lemma FunStarts(fns: Fns, a: State, b: State, co: State, obj: nat, f: Name, d: FunDef, k: seq<Token>)
    requires ReadyFun(fns, a, obj, f, d, k)
    ensures a.p.cur == Id(f) && f !in fns && |a.locals| < LOCAL_COUNT && |a.ch.consts| < 256 && obj < 256
            && a.scope == 0
    ensures Skipped(a, b) && co == State(b.p, [], b.scope, Current(0, 0, 0), Chunk([], [], [])) ==>
            ReadyFn(fns[f := obj], co, d, k)
  {
    SkipSees(a, b, Id(f), PrintFn(d, k));
    if Skipped(a, b) && co == State(b.p, [], b.scope, Current(0, 0, 0), Chunk([], [], [])) {
      FnReady(fns[f := obj], co, d, k);
    }
    hide PrintFn, FnFits, ReadyFn;
  }

  lemma FunEnds(fns: Fns, a: State, co: State, b: State, obj: nat, fn: nat, blank: Name, d: FunDef, g: Machine.Function,
                k: seq<Token>)
    requires DidFn(fns, co, d, k) && g == Machine.Function(|d.params|, co.ch)
    requires a.scope == 0 && obj < 256 && |a.ch.consts| < 256
    requires b.p == co.p && b.scope == 0 && b.locals == a.locals + [Variable(blank, 0)]
    requires b.ch == Chunk(a.ch.code + [OP_CLOSURE, |a.ch.consts|] + [obj], a.ch.consts + [Closure(fn)], a.ch.cases)
    ensures DidFun(fns, a, b, obj, fn, blank, d, g, k)
  {
    hide FnCode;
    assert a.ch.code + [OP_CLOSURE, |a.ch.consts|] + [obj] == a.ch.code + [OP_CLOSURE, |a.ch.consts|, obj];
  }

  lemma FunTokens(fns: Fns, a: State, b: State, c: State, obj: nat, fn: nat, blank: Name, d: FunDef,
                  g: Machine.Function, k: seq<Token>)
    requires DidFun(fns, b, c, obj, fn, blank, d, g, k) && b == a.(p := b.p)
    ensures DidFun(fns, a, c, obj, fn, blank, d, g, k)
  {
    hide FnCode;
  }
}
