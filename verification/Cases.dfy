/** The table of the addresses where `if`s end: which entries it gets, and when its array is full.

    The array doubles when a byte of code is written while it is full. Entries are stored without
    a check, so those that follow each other with no byte between them may run over its end. */
module Cases {
  import opened Syntax
  import opened Layout
  import opened Bytecode
  import opened Functions
  import Emission
  import Machine

  // ------------------------------------------------------------ the array

  function Doubled(n: nat, len: nat): (r: nat)
    requires len > 0
    ensures r > n && r >= len
    decreases if n < len then 0 else n - len + 1
  {
    if n < len then len else Doubled(n, 2 * len)
  }

  /** The length of the array after a byte was written behind `n` entries. */
  function Room(n: nat): nat {
    Doubled(n, STACK_SIZE)
  }

  /** Where the entries equal to `at` at the end of the first `k` begin. */
  function RunStart(cases: seq<nat>, k: nat, at: nat): (j: nat)
    requires k <= |cases|
    ensures j <= k && forall i :: j <= i < k ==> cases[i] == at
    ensures j > 0 ==> cases[j - 1] != at
  {
    if k > 0 && cases[k - 1] == at then RunStart(cases, k - 1, at) else k
  }

  /** Entry `k` is stored behind the array: since the last byte of code, the entries with its
      address have filled what there was. */
  predicate Spill(cases: seq<nat>, k: nat)
    requires k < |cases|
  {
    k >= Room(RunStart(cases, k, cases[k]))
  }

  predicate Spills(cases: seq<nat>) {
    exists k :: 0 <= k < |cases| && Spill(cases, k)
  }

  /** `len` is the array's length and `spilled` tells whether an entry has missed it, with `pc`
      bytes of code. */
  predicate CaseState(cases: seq<nat>, pc: nat, len: nat, spilled: bool) {
    && (forall i :: 0 <= i < |cases| ==> cases[i] <= pc)
    && spilled == Spills(cases)
    && (!spilled ==> len == Room(RunStart(cases, |cases|, pc)))
  }

  lemma NoCases()
    ensures CaseState([], 0, STACK_SIZE, false)
  {
  }

  lemma {:induction false} RunOf(cases: seq<nat>, more: seq<nat>, k: nat, at: nat)
    requires k <= |cases| && cases <= more
    ensures RunStart(more, k, at) == RunStart(cases, k, at)
    decreases k
  {
    if k > 0 && cases[k - 1] == at {
      RunOf(cases, more, k - 1, at);
    }
  }

  /** An entry is stored without a check. */
  lemma CaseAdded(cases: seq<nat>, pc: nat, len: nat, spilled: bool)
    requires CaseState(cases, pc, len, spilled)
    ensures CaseState(cases + [pc], pc, len, spilled || |cases| >= len)
  {
    var n, more := |cases|, cases + [pc];
    RunOf(cases, more, n, pc);
    assert RunStart(more, n + 1, pc) == RunStart(more, n, pc);
    assert !spilled ==> (Spill(more, n) <==> n >= len);
    forall k | 0 <= k < n ensures Spill(more, k) == Spill(cases, k) {
      RunOf(cases, more, k, cases[k]);
      assert more[k] == cases[k];
    }
    if spilled {
      var k :| 0 <= k < n && Spill(cases, k);
      assert Spill(more, k);
    } else if Spills(more) {
      var k :| 0 <= k < n + 1 && Spill(more, k);
      assert k == n;
    }
  }

  /** A byte is written, and the array doubled if it is full. */
  lemma ByteAdded(cases: seq<nat>, pc: nat, len: nat, spilled: bool)
    requires CaseState(cases, pc, len, spilled)
    ensures CaseState(cases, pc + 1, if len < |cases| + 1 then 2 * len else len, spilled)
  {
    var n := |cases|;
    assert RunStart(cases, n, pc + 1) == n;
    if !spilled {
      var j := RunStart(cases, n, pc);
      if j < n {
        InRun(cases, n, pc, n - 1);
        assert !Spill(cases, n - 1);
      }
      NextRoom(j, n);
    }
  }

  lemma {:induction false} InRun(cases: seq<nat>, k: nat, at: nat, i: nat)
    requires k <= |cases| && RunStart(cases, k, at) <= i < k
    ensures RunStart(cases, i, at) == RunStart(cases, k, at)
    decreases k
  {
    if i < k - 1 {
      InRun(cases, k - 1, at, i);
    }
  }

  lemma NextRoom(j: nat, n: nat)
    requires j <= n <= Room(j)
    ensures Room(n) == if Room(j) < n + 1 then 2 * Room(j) else Room(j)
  {
    NextDoubled(j, n, STACK_SIZE);
  }

  lemma {:induction false} NextDoubled(j: nat, n: nat, len: nat)
    requires len > 0 && j <= n <= Doubled(j, len)
    ensures Doubled(n, len) == if Doubled(j, len) < n + 1 then 2 * Doubled(j, len) else Doubled(j, len)
    decreases if j < len then 0 else j - len + 1
  {
    if j >= len {
      NextDoubled(j, n, 2 * len);
    }
  }

  // -------------------------------------------------------- what is stored

  /** The addresses that a statement at `pc` adds, in order. */
  function CasesS(s: Stmt, pc: nat): (cs: seq<nat>)
    ensures |cs| == IfsS(s)
    decreases s
  {
    match s
    case Eval(_) | Pout(_) | Return(_) | Back => []
    case If(c, t, arms) =>
      var j := pc + SizeE(c) + 3;
      CasesS(t, j) + CasesArms(arms, j + SizeS(t) + 3) + [pc + SizeS(s)]
    case While(c, b) => CasesS(b, pc + SizeE(c) + 3)
    case For(i, c, n, b) => CasesS(b, pc + SizeInit(i) + SizeCond(c) + SizeInc(n))
    case Block(ds) => CasesD(ds, pc)
  }

  function CasesArms(a: Arms, pc: nat): (cs: seq<nat>)
    ensures |cs| == IfsArms(a)
    decreases a
  {
    match a
    case End => []
    case Else(s) => CasesS(s, pc)
    case Elif(c, s, t) =>
      var j := pc + SizeE(c) + 3;
      CasesS(s, j) + CasesArms(t, j + SizeS(s) + 3)
  }

  function CasesD(ds: Decls, pc: nat): (cs: seq<nat>)
    ensures |cs| == IfsD(ds)
    decreases ds
  {
    match ds
    case Done => []
    case Then(Var(_, e), t) => CasesD(t, pc + SizeE(e) + 2)
    case Then(Do(s), t) => CasesS(s, pc) + CasesD(t, pc + SizeS(s))
  }

  /** The entries from `nc` on. */
  predicate Stored(cases: seq<nat>, nc: nat, cs: seq<nat>) {
    nc + |cs| <= |cases| && forall k :: 0 <= k < |cs| ==> cases[nc + k] == cs[k]
  }

  lemma StoredBoth(cases: seq<nat>, nc: nat, a: seq<nat>, b: seq<nat>)
    requires Stored(cases, nc, a) && Stored(cases, nc + |a|, b)
    ensures Stored(cases, nc, a + b)
  {
    forall k | 0 <= k < |a + b| ensures cases[nc + k] == (a + b)[k] {
      if k >= |a| {
        assert cases[nc + |a| + (k - |a|)] == b[k - |a|];
      }
    }
  }

  /** Laid code has these entries, and no others. */
  lemma {:induction false} LaidCasesS(s: Stmt, names: seq<Name>, fns: Fns, ch: Chunk, pc: nat, nc: nat)
    requires LaidS(s, names, fns, ch, pc, nc) && nc + IfsS(s) <= |ch.cases|
    ensures Stored(ch.cases, nc, CasesS(s, pc))
    decreases s, 1
  {
    hide LaidS, CasesS, IfsS, Stored;
    match s
    case If(_, _, _) => LaidCasesIf(s, names, fns, ch, pc, nc);
    case While(c, b) =>
      LoopCases(s, pc);
      WhileLaid(s, names, fns, ch, pc, nc);
      LaidCasesS(b, names, fns, ch, pc + SizeE(c) + 3, nc);
    case For(i, c, n, b) =>
      var inner := match i case NoVar => names case SomeVar(x, _) => names + [x];
      LoopCases(s, pc);
      ForLaid(s, names, inner, fns, ch, pc, nc);
      LaidCasesS(b, inner, fns, ch, pc + SizeInit(i) + SizeCond(c) + SizeInc(n), nc);
    case Block(ds) =>
      BlockParts(s, names, fns, ch, pc, nc);
      LaidCasesD(ds, names, fns, ch, pc, nc);
    case _ =>
      NoneAdded(s, pc);
      NoneStored(ch.cases, nc);
  }

  lemma NoneAdded(s: Stmt, pc: nat)
    requires !s.If? && !s.While? && !s.For? && !s.Block?
    ensures IfsS(s) == 0 && CasesS(s, pc) == []
  {
  }

  lemma LoopCases(s: Stmt, pc: nat)
    requires s.While? || s.For?
    ensures IfsS(s) == IfsS(s.body)
    ensures CasesS(s, pc) == CasesS(s.body,
              if s.While? then pc + SizeE(s.c) + 3 else pc + SizeInit(s.init) + SizeCond(s.cond) + SizeInc(s.inc))
  {
    hide SizeE, SizeInit, SizeCond, SizeInc;
  }

  lemma WhileLaid(s: Stmt, names: seq<Name>, fns: Fns, ch: Chunk, pc: nat, nc: nat)
    requires s.While? && LaidS(s, names, fns, ch, pc, nc)
    ensures LaidS(s.body, names, fns, ch, pc + SizeE(s.c) + 3, nc)
  {
    hide LaidE, SizeE, SizeS;
  }

  lemma ForLaid(s: Stmt, names: seq<Name>, inner: seq<Name>, fns: Fns, ch: Chunk, pc: nat, nc: nat)
    requires s.For? && LaidS(s, names, fns, ch, pc, nc)
    requires inner == match s.init case NoVar => names case SomeVar(x, _) => names + [x]
    ensures LaidS(s.body, inner, fns, ch, pc + SizeInit(s.init) + SizeCond(s.cond) + SizeInc(s.inc), nc)
  {
    hide LaidE, SizeE, SizeS, LaidCond, LaidInc, SizeCond, SizeInc, SizeInit, LaidPops;
  }

  lemma BlockParts(s: Stmt, names: seq<Name>, fns: Fns, ch: Chunk, pc: nat, nc: nat)
    requires s.Block? && LaidS(s, names, fns, ch, pc, nc)
    ensures LaidD(s.ds, names, fns, ch, pc, nc) && IfsS(s) == IfsD(s.ds) && CasesS(s, pc) == CasesD(s.ds, pc)
  {
    hide LaidD, IfsD, CasesD, LaidPops;
  }

  lemma {:induction false} LaidCasesIf(s: Stmt, names: seq<Name>, fns: Fns, ch: Chunk, pc: nat, nc: nat)
    requires s.If? && LaidS(s, names, fns, ch, pc, nc) && nc + IfsS(s) <= |ch.cases|
    ensures Stored(ch.cases, nc, CasesS(s, pc))
    decreases s, 0
  {
    hide LaidS, LaidArms, CasesS, CasesArms, SizeS, SizeE, SizeArms, IfsS, IfsArms, Stored;
    var j, a, b := pc + SizeE(s.c) + 3, IfsS(s.then_), IfsArms(s.arms);
    IfCases(s, pc);
    IfLaid(s, names, fns, ch, pc, nc);
    LaidCasesS(s.then_, names, fns, ch, j, nc);
    LaidCasesArms(s.arms, names, fns, ch, j + SizeS(s.then_) + 3, nc + a);
    StoredBoth(ch.cases, nc, CasesS(s.then_, j), CasesArms(s.arms, j + SizeS(s.then_) + 3));
    OneStored(ch.cases, nc + a + b, pc + SizeS(s));
    StoredBoth(ch.cases, nc, CasesS(s.then_, j) + CasesArms(s.arms, j + SizeS(s.then_) + 3), [pc + SizeS(s)]);
  }

  lemma NoneStored(cases: seq<nat>, nc: nat)
    requires nc <= |cases|
    ensures Stored(cases, nc, [])
  {
  }

  lemma OneStored(cases: seq<nat>, nc: nat, c: nat)
    requires nc < |cases| && cases[nc] == c
    ensures Stored(cases, nc, [c])
  {
  }

  lemma IfCases(s: Stmt, pc: nat)
    requires s.If?
    ensures IfsS(s) == IfsS(s.then_) + IfsArms(s.arms) + 1
    ensures var j := pc + SizeE(s.c) + 3;
            CasesS(s, pc) == CasesS(s.then_, j) + CasesArms(s.arms, j + SizeS(s.then_) + 3) + [pc + SizeS(s)]
  {
    hide SizeE, SizeS, IfsArms, CasesArms;
  }

  lemma IfLaid(s: Stmt, names: seq<Name>, fns: Fns, ch: Chunk, pc: nat, nc: nat)
    requires s.If? && LaidS(s, names, fns, ch, pc, nc)
    ensures var j, a, b := pc + SizeE(s.c) + 3, IfsS(s.then_), IfsArms(s.arms);
            && LaidS(s.then_, names, fns, ch, j, nc) && LaidArms(s.arms, names, fns, ch, j + SizeS(s.then_) + 3, nc + a)
            && nc + a + b < |ch.cases| && ch.cases[nc + a + b] == pc + SizeS(s)
  {
    hide LaidE, SizeE, LaidArms, SizeArms, IfsArms;
  }

  lemma {:induction false} LaidCasesArms(a: Arms, names: seq<Name>, fns: Fns, ch: Chunk, pc: nat, nc: nat)
    requires LaidArms(a, names, fns, ch, pc, nc) && nc + IfsArms(a) <= |ch.cases|
    ensures Stored(ch.cases, nc, CasesArms(a, pc))
    decreases a, 1
  {
    hide LaidS, IfsS, CasesS, SizeE, SizeS, LaidE;
    match a
    case End =>
    case Else(s) => LaidCasesS(s, names, fns, ch, pc, nc);
    case Elif(_, _, _) => LaidCasesElif(a, names, fns, ch, pc, nc);
  }

  lemma {:induction false} LaidCasesElif(a: Arms, names: seq<Name>, fns: Fns, ch: Chunk, pc: nat, nc: nat)
    requires a.Elif? && LaidArms(a, names, fns, ch, pc, nc) && nc + IfsArms(a) <= |ch.cases|
    ensures Stored(ch.cases, nc, CasesArms(a, pc))
    decreases a, 0
  {
    hide LaidArms, IfsArms, CasesArms, LaidS, SizeE, SizeS, IfsS, CasesS, Stored;
    var j := pc + SizeE(a.c) + 3;
    ElifCases(a, pc);
    ElifLaid(a, names, fns, ch, pc, nc);
    LaidCasesS(a.s, names, fns, ch, j, nc);
    LaidCasesArms(a.rest, names, fns, ch, j + SizeS(a.s) + 3, nc + IfsS(a.s));
    StoredBoth(ch.cases, nc, CasesS(a.s, j), CasesArms(a.rest, j + SizeS(a.s) + 3));
  }

  lemma ElifCases(a: Arms, pc: nat)
    requires a.Elif?
    ensures IfsArms(a) == IfsS(a.s) + IfsArms(a.rest)
    ensures var j := pc + SizeE(a.c) + 3; CasesArms(a, pc) == CasesS(a.s, j) + CasesArms(a.rest, j + SizeS(a.s) + 3)
  {
    hide SizeE, SizeS, IfsS, CasesS;
  }

  lemma ElifLaid(a: Arms, names: seq<Name>, fns: Fns, ch: Chunk, pc: nat, nc: nat)
    requires a.Elif? && LaidArms(a, names, fns, ch, pc, nc)
    ensures var j := pc + SizeE(a.c) + 3;
            LaidS(a.s, names, fns, ch, j, nc) && LaidArms(a.rest, names, fns, ch, j + SizeS(a.s) + 3, nc + IfsS(a.s))
  {
    hide LaidE, SizeE, LaidS, SizeS, IfsS;
  }

  lemma {:induction false} LaidCasesD(ds: Decls, names: seq<Name>, fns: Fns, ch: Chunk, pc: nat, nc: nat)
    requires LaidD(ds, names, fns, ch, pc, nc) && nc + IfsD(ds) <= |ch.cases|
    ensures Stored(ch.cases, nc, CasesD(ds, pc))
    decreases ds, 0
  {
    hide LaidE, SizeE, LaidS, SizeS, IfsS, CasesS;
    match ds
    case Done =>
    case Then(Var(x, e), t) => LaidCasesD(t, names + [x], fns, ch, pc + SizeE(e) + 2, nc);
    case Then(Do(s), t) =>
      DoCases(s, t, pc);
      LaidCasesS(s, names, fns, ch, pc, nc);
      LaidCasesD(t, names, fns, ch, pc + SizeS(s), nc + IfsS(s));
      StoredBoth(ch.cases, nc, CasesS(s, pc), CasesD(t, pc + SizeS(s)));
  }

  lemma DoCases(s: Stmt, t: Decls, pc: nat)
    ensures IfsD(Then(Do(s), t)) == IfsS(s) + IfsD(t)
    ensures CasesD(Then(Do(s), t), pc) == CasesS(s, pc) + CasesD(t, pc + SizeS(s))
  {
    hide SizeS, IfsS, CasesS;
  }


  /** Up to the first length of the array there is always room. */
  lemma FewCases(cases: seq<nat>)
    requires |cases| <= STACK_SIZE
    ensures !Spills(cases)
  {
  }

  lemma FnCases(d: FunDef, fns: Fns, ch: Chunk)
    requires FnCode(d, fns, ch)
    ensures ch.cases == CasesD(d.body, 2 * |d.params|)
  {
    LaidCasesD(d.body, d.params, fns, ch, 2 * |d.params|, 0);
    hide LaidD, IfsD, CasesD;
  }

  // --------------------------------------------------------------- scripts

  function CasesItems(items: seq<Item>): (cs: seq<nat>)
    ensures |cs| == IfsItems(items)
  {
    if items == [] then []
    else
      var q := items[..|items| - 1];
      CasesItems(q) + CasesItem(items[|items| - 1], SizeItems(q))
  }

  lemma OneMoreItem(q: seq<Item>, x: Item)
    ensures CasesItems(q + [x]) == CasesItems(q) + CasesItem(x, SizeItems(q))
  {
    hide SizeItems, CasesItem;
    assert (q + [x])[..|q|] == q;
  }

  predicate BodySpills(d: FunDef) {
    Spills(CasesD(d.body, 2 * |d.params|))
  }

  /** The `if`s of the script, or of one of its functions, run over the end of their array. */
  predicate Overruns(items: seq<Item>) {
    || Spills(CasesItems(items))
    || exists i :: 0 <= i < |items| && items[i].Fun? && BodySpills(items[i].d)
  }

  lemma {:induction false} ItemCases(items: seq<Item>, i: nat, blank: Name, obj: nat, ch: Chunk,
                                     funcs: seq<Machine.Function>)
    requires i <= |items| && LaidScript(items, blank, obj, ch, funcs)
    ensures Stored(ch.cases, 0, CasesItems(items[..i]))
    decreases i
  {
    hide *;
    if i > 0 {
      ItemCases(items, i - 1, blank, obj, ch, funcs);
      OneItemCases(items, i - 1, blank, obj, ch, funcs);
    } else {
      NoItemCases(items, ch);
    }
  }

  lemma NoItemCases(items: seq<Item>, ch: Chunk)
    ensures Stored(ch.cases, 0, CasesItems(items[..0]))
  {
  }

  function CasesItem(x: Item, pc: nat): (cs: seq<nat>)
    ensures |cs| == IfsItem(x)
  {
    match x case Fun(_, _) => [] case Stat(s, _) => CasesS(s, pc)
  }

  /** What item `i` adds. */
  lemma OneItemCases(items: seq<Item>, i: nat, blank: Name, obj: nat, ch: Chunk, funcs: seq<Machine.Function>)
    requires i < |items| && LaidScript(items, blank, obj, ch, funcs) && Stored(ch.cases, 0, CasesItems(items[..i]))
    ensures Stored(ch.cases, 0, CasesItems(items[..i + 1]))
  {
    hide LaidAt, Stored, FnsOf, FunCount, Blanks, LitsItems, IfsItem, SizeItem, LitsItem, CasesItem;
    PrefixBounds(items, i + 1);
    NextSpot(items, i, blank, obj);
    var q := items[..i + 1];
    assert q[..|q| - 1] == items[..i] && q[|q| - 1] == items[i];
    LaidItemCases(items, i, blank, obj, ch, funcs);
    StoredBoth(ch.cases, 0, CasesItems(items[..i]), CasesItem(items[i], SizeItems(items[..i])));
  }

  lemma LaidItemCases(items: seq<Item>, i: nat, blank: Name, obj: nat, ch: Chunk, funcs: seq<Machine.Function>)
    requires i < |items| && LaidAt(items, i, blank, obj, ch, funcs)
    requires IfsItems(items[..i]) + IfsItem(items[i]) <= |ch.cases|
    ensures Stored(ch.cases, IfsItems(items[..i]), CasesItem(items[i], SizeItems(items[..i])))
  {
    hide LaidS, FnCode, CasesS, IfsS, Blanks, FnsOf, FunCount, SizeItems, IfsItems;
    if items[i].Stat? {
      var t := SpotOf(items, i, blank, obj);
      LaidCasesS(items[i].s, Emission.Names(t.names), t.fns, ch, t.pc, t.nc);
    }
  }

  lemma ScriptCases(items: seq<Item>, blank: Name, obj: nat, ch: Chunk, funcs: seq<Machine.Function>)
    requires LaidScript(items, blank, obj, ch, funcs)
    ensures ch.cases == CasesItems(items)
  {
    hide LaidAt, SizeItems, LitsItems, CasesItems;
    ItemCases(items, |items|, blank, obj, ch, funcs);
    assert items[..|items|] == items;
  }
}
