/** Scripts that are well-formed and that the machine could run, but whose compilation writes
    outside a table: one function too many, or one `if` too many. */
module Overfull {
  import opened Values
  import opened Syntax
  import opened Bytecode
  import opened Layout
  import opened Emission
  import opened StmtEmission
  import opened Functions
  import opened Recovery
  import opened Scripts
  import opened Fragment
  import opened Cases
  import Compilation

  // ------------------------------------------------------- a name too many

  /** `func f() {} func f'() {} ..`: n functions with different names and empty bodies. */
  function Procedures(f: Name, n: nat): (items: seq<Item>)
    ensures |items| == n && forall i :: 0 <= i < n ==> items[i] == Fun(f + i, FunDef([], Done))
  {
    seq(n, i => Fun(f + i, FunDef([], Done)))
  }

  lemma {:induction false} ProcedureSizes(f: Name, n: nat, obj: nat)
    ensures var q := Procedures(f, n);
            FunCount(q) == n && SizeItems(q) == 3 * n && |LitsItems(q)| == n && IfsItems(q) == 0
            && forall x :: x in FnsOf(q, obj) ==> f <= x < f + n
  {
    if n > 0 {
      ProcedureSizes(f, n - 1, obj);
      assert Procedures(f, n)[..n - 1] == Procedures(f, n - 1);
    }
  }

  /** The compiler's other limits hold n functions, as long as each has a byte for its number, and
      they would run; with the three natives of the program, `Compile` and `Interpret` get through
      nine of them, and die at the tenth. */
  lemma ManyFunctions(f: Name, n: nat, blank: Name, names: seq<Name>)
    requires n < LOCAL_COUNT && |names| + n <= 256 && forall x :: x in names ==> x < f
    ensures var items := Procedures(f, n);
            && ScriptFits(items, blank, |names|) && ModestScript(items, blank) && Compilation.NewNames(items, names)
            && High(items) && (|names| == 3 ==> (Compilation.Bearable(items, |names|) <==> n <= 9))
  {
    hide PrintItems, Resume, Upcoming, ItemFits, ModestItem, SpotOf;
    var items, obj := Procedures(f, n), |names|;
    ProcedureSizes(f, n, obj);
    FewCases(CasesItems(items));
    assert CasesD(Done, 0) == [] && !Spills([]);
    forall i | 0 <= i < n ensures ItemFits(items[i], SpotOf(items, i, blank, obj)) && ModestItem(items, i, blank) {
      ProcedureFits(f, n, i, blank, obj);
    }
  }

  lemma ProcedureFits(f: Name, n: nat, i: nat, blank: Name, obj: nat)
    requires i < n < LOCAL_COUNT && obj + n <= 256
    ensures var items := Procedures(f, n);
            ItemFits(items[i], SpotOf(items, i, blank, obj)) && ModestItem(items, i, blank)
  {
    assert Procedures(f, n)[..i] == Procedures(f, i);
    ProcedureSizes(f, i, obj);
  }

  // ------------------------------------------------------- an `if` too many

  /** `if (true) {}` */
  function Plain(): Stmt {
    If(Lit(Bool(true)), Block(Done), End)
  }

  /** `if (true) {} else if (true) {}`: both end at one place. */
  function Twofold(): Stmt {
    If(Lit(Bool(true)), Block(Done), Else(Plain()))
  }

  function Plains(n: nat): (items: seq<Item>)
    ensures |items| == n && forall i :: 0 <= i < n ==> items[i] == Stat(Plain(), Whole)
  {
    seq(n, _ => Stat(Plain(), Whole))
  }

  lemma PlainFacts(pc: nat)
    ensures SizeS(Plain()) == 8 && IfsS(Plain()) == 1 && |LitsS(Plain())| == 1 && CasesS(Plain(), pc) == [pc + 8]
  {
    NothingInside(pc + 5);
    assert CasesArms(End, pc + 8) == [];
  }

  lemma NothingInside(pc: nat)
    ensures var b := Block(Done); SizeS(b) == 0 && IfsS(b) == 0 && LitsS(b) == [] && CasesS(b, pc) == []
    ensures SizeE(Lit(Bool(true))) == 2 && |LitsE(Lit(Bool(true)))| == 1
    ensures SizeArms(End) == 0 && IfsArms(End) == 0 && LitsArms(End) == []
  {
    assert SizeD(Done) == 0 && IfsD(Done) == 0 && LitsD(Done) == [] && Declared(Done) == [] && CasesD(Done, pc) == [];
  }

  lemma TwofoldFacts(pc: nat)
    ensures SizeS(Twofold()) == 16 && IfsS(Twofold()) == 2 && |LitsS(Twofold())| == 2
    ensures CasesS(Twofold(), pc) == [pc + 16, pc + 16]
  {
    var arms := Else(Plain());
    PlainFacts(pc + 8);
    NothingInside(pc + 5);
    hide Plain;
    assert SizeArms(arms) == 8 && IfsArms(arms) == 1 && LitsArms(arms) == LitsS(Plain());
    assert CasesArms(arms, pc + 8) == [pc + 16];
  }

  lemma {:induction false} PlainSizes(n: nat, obj: nat)
    ensures var q := Plains(n);
            FunCount(q) == 0 && SizeItems(q) == 8 * n && |LitsItems(q)| == n && IfsItems(q) == n
              && FnsOf(q, obj) == map[]
  {
    hide Plain, SizeS, IfsS, LitsS, CasesS;
    if n > 0 {
      PlainSizes(n - 1, obj);
      PlainFacts(0);
      assert Plains(n)[..n - 1] == Plains(n - 1);
    }
  }

  function Eights(n: nat): seq<nat> {
    seq(n, i => 8 * (i + 1))
  }

  lemma OneMorePlain(n: nat)
    ensures Plains(n + 1) == Plains(n) + [Stat(Plain(), Whole)] && Eights(n + 1) == Eights(n) + [8 * (n + 1)]
  {
    hide Plain;
  }

  lemma PlainItem(n: nat)
    ensures SizeItems(Plains(n)) == 8 * n && CasesItem(Stat(Plain(), Whole), 8 * n) == [8 * (n + 1)]
  {
    hide Plain, Plains, SizeItems, FunCount, LitsItems, IfsItems, FnsOf, CasesS, IfsS, LitsS, SizeS;
    PlainSizes(n, 0);
    PlainFacts(8 * n);
  }

  lemma TwofoldItem(n: nat)
    ensures CasesItem(Stat(Twofold(), Whole), 8 * n) == [8 * n + 16, 8 * n + 16]
  {
    hide Twofold, CasesS, IfsS, LitsS, SizeS;
    TwofoldFacts(8 * n);
  }

  lemma {:induction false} PlainCases(n: nat)
    ensures CasesItems(Plains(n)) == Eights(n)
  {
    hide *;
    if n > 0 {
      PlainCases(n - 1);
      OneMorePlain(n - 1);
      PlainItem(n - 1);
      OneMoreItem(Plains(n - 1), Stat(Plain(), Whole));
    } else {
      NoItems();
    }
  }

  lemma NoItems()
    ensures CasesItems(Plains(0)) == [] && Eights(0) == []
  {
  }

  /** n plain `if`s and a twofold one. */
  function ManyIfs(n: nat): seq<Item> {
    Plains(n) + [Stat(Twofold(), Whole)]
  }

  /** An array of entries runs over exactly if the last two, at one address, find it full. */
  lemma LastTwo(cases: seq<nat>, n: nat, at: nat)
    requires |cases| == n + 2 && cases[n] == cases[n + 1] == at
    requires forall i, j :: 0 <= i < j <= n ==> cases[i] != cases[j]
    ensures Spills(cases) <==> n + 1 == Room(n)
  {
    forall k | 0 <= k < n + 2 ensures Spill(cases, k) <==> (k == n + 1 && n + 1 == Room(n)) {
      if k <= n {
        assert RunStart(cases, k, cases[k]) == k;
      } else {
        assert RunStart(cases, n, at) == n;
        assert RunStart(cases, n + 1, at) == RunStart(cases, n, at);
      }
    }
    if n + 1 == Room(n) {
      assert Spill(cases, n + 1);
    }
  }

  lemma ManySizes(n: nat, obj: nat)
    ensures var q := ManyIfs(n);
            && FunCount(q) == 0 && SizeItems(q) == 8 * n + 16 && |LitsItems(q)| == n + 2 && IfsItems(q) == n + 2
            && |q| == n + 1 && q[..n] == Plains(n) && q[..n + 1] == q
  {
    hide Plain, Twofold;
    PlainSizes(n, obj);
    TwofoldFacts(8 * n);
    assert ManyIfs(n)[..n] == Plains(n);
  }

  lemma ManyCases(n: nat)
    ensures CasesItems(ManyIfs(n)) == Eights(n) + [8 * n + 16, 8 * n + 16]
  {
    hide Plain, Twofold, CasesItem, CasesItems, SizeItems, Plains, Eights;
    PlainItem(n);
    TwofoldItem(n);
    PlainCases(n);
    OneMoreItem(Plains(n), Stat(Twofold(), Whole));
  }

  lemma IfsResolve(locals: seq<Variable>, fns: Fns)
    ensures ResolvesS(Plain(), locals, 0, fns, false) && ResolvesS(Twofold(), locals, 0, fns, false)
  {
    assert ResolvesD(Done, locals, 1, fns, false);
    assert ResolvesS(Block(Done), locals, 0, fns, false);
    assert ResolvesS(Plain(), locals, 0, fns, false);
    assert ResolvesArms(Else(Plain()), locals, 0, fns, false);
  }

  lemma IfsModest(pc: nat)
    ensures Modest(Plain(), pc) && Modest(Twofold(), pc)
  {
    PlainModest(pc);
    PlainModest(pc + 8);
    TwofoldFacts(pc);
    PlainFacts(pc);
    NothingInside(pc);
    hide Plain;
    var arms := Else(Plain());
    assert SizeArms(arms) == 8 && ModestArms(arms, pc + 8);
    assert Declared(Done) == [];
  }

  lemma PlainModest(pc: nat)
    ensures Modest(Plain(), pc)
  {
    NothingInside(pc);
    PlainFacts(pc);
    assert Declared(Done) == [];
    assert ModestArms(End, pc + 8);
  }

  /** The compiler's other limits hold them, and they would run. They are compiled if and only if
      their array, when the last byte before the last two ends is written, is longer than n + 1;
      with 63 plain `if`s it is not. */
  lemma ManyIfsOverrun(n: nat, blank: Name, natives: seq<Name>)
    requires n + 2 <= 256
    ensures var items := ManyIfs(n);
            && ScriptFits(items, blank, |natives|) && ModestScript(items, blank) && High(items)
            && Compilation.NewNames(items, natives)
            && (Overruns(items) <==> n + 1 == Room(n))
    ensures Room(63) == 64
  {
    hide Plain, Twofold, Spills, CasesItems, PrintItems, Resume, Upcoming, ItemFits, ModestItem, SpotOf;
    var items, obj := ManyIfs(n), |natives|;
    ManySizes(n, obj);
    ManyCases(n);
    LastTwo(CasesItems(items), n, 8 * n + 16);
    forall i | 0 <= i <= n
      ensures ItemFits(items[i], SpotOf(items, i, blank, obj)) && ModestItem(items, i, blank)
              && FunCount(items[..i]) == 0 {
      IfFits(n, i, blank, obj);
    }
  }

  lemma IfFits(n: nat, i: nat, blank: Name, obj: nat)
    requires i <= n
    ensures var items := ManyIfs(n);
            ItemFits(items[i], SpotOf(items, i, blank, obj)) && ModestItem(items, i, blank) && FunCount(items[..i]) == 0
  {
    hide Plain, Twofold, ResolvesS, Modest;
    assert ManyIfs(n)[..i] == Plains(i);
    PlainSizes(i, obj);
    IfsResolve(Blanks(blank, 0), map[]);
    IfsModest(8 * i);
  }
}
