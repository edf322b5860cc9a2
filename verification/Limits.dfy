/** Where the limits of the fragment come from: the exact conditions under which single
    instructions do what the compiler meant. `Misses` has programs that miss them. */
module Limits {
  import opened Values
  import opened Syntax
  import opened Bytecode
  import opened Layout
  import opened Machine
  import opened ExprSimulation
  import opened Simulation

  /** A forward jump lands where the compiler meant it to if and only if its distance is below
      256: the machine drops the high byte. */
  lemma JumpExact(w: World, m: Machine, d: nat)
    requires m.status == Running && |m.frames| > 0 && At3(CodeOf(w, m), m.ip, OP_JMP, d)
    ensures Step(w, m) == m.(ip := m.ip + 3 + d % 256)
    ensures Step(w, m).ip == m.ip + 3 + d <==> d < 256
  {
    var ch := CodeOf(w, m);
    DecodingsAgree(ch, m.ip + 1);
    assert d == ch.code[m.ip + 1] as int * 256 + ch.code[m.ip + 2];
    assert d % 256 == ch.code[m.ip + 2];
  }

  /** The variables `vals` are where they belong. */
  predicate Intact(m: Machine, base: nat, vals: seq<Element>) {
    m.status == Running && base + |vals| <= |m.stack| && m.stack[base..base + |vals|] == vals
  }

  /** The end of a scope with `k > 1` variables: OP_POPN leaves the outer variables intact if and
      only if the constant its operand happens to index is a number that pops no more than lies
      above them. (A negative one must not raise the count beyond the array, and where nothing
      lies below, the count stops at zero.) */
  lemma PopnExact(w: World, m: Machine, n: nat, bytes: nat, up: nat, vals: seq<Element>, out: seq<Element>, k: nat)
    requires |m.frames| > 0 && 1 < k <= |vals|
    requires Reached(w, m, StepN(w, m, n), bytes, up, vals, out) && LaidPops(k, CodeOf(w, m), m.ip + bytes)
    ensures
      var m1, consts := StepN(w, m, n), CodeOf(w, m).consts;
      var outer := vals[..|vals| - k];
      Intact(StepN(w, m, n + 1), Base(m), outer) <==>
        && k - 1 < |consts| && consts[k - 1].Num?
        && -|m1.spare| <= Trunc(consts[k - 1].num)
        && (Trunc(consts[k - 1].num) <= |m1.stack| - Base(m) - |outer| || Base(m) + |outer| == 0)
  {
    hide StepN, StepPopn, Trunc;
    StepNext(w, m, n);
    var m1, consts := StepN(w, m, n), CodeOf(w, m).consts;
    PopnStep(w, m1, k);
    if k - 1 < |consts| && consts[k - 1].Num? {
      PopnKeeps(m1.(ip := m1.ip + 2), Trunc(consts[k - 1].num), Base(m), vals, |vals| - k);
    }
  }

  lemma PopnKeeps(m: Machine, n: int, base: nat, vals: seq<Element>, keep: nat)
    requires Intact(m, base, vals) && keep <= |vals|
    ensures Intact(StepPopn(m, n), base, vals[..keep]) <==>
            -|m.spare| <= n && (n <= |m.stack| - base - keep || base + keep == 0)
  {
    var m' := StepPopn(m, n);
    if -|m.spare| <= n <= |m.stack| - base - keep {
      assert m'.stack == Cells(m)[..|m.stack| - n] by {
        assert n >= 0 ==> Cells(m)[..|m.stack| - n] == m.stack[..|m.stack| - n];
      }
      assert m'.stack[base..base + keep] == m.stack[base..base + |vals|][..keep];
    }
  }

  /** What OP_POPN does with operand `k - 1`. */
  lemma PopnStep(w: World, m: Machine, k: nat)
    requires m.status == Running && |m.frames| > 0 && k > 0 && At2(CodeOf(w, m), m.ip, OP_POPN, k - 1)
    ensures
      var consts, n := CodeOf(w, m).consts, m.(ip := m.ip + 2);
      Step(w, m) == if k - 1 < |consts| && consts[k - 1].Num? then StepPopn(n, Trunc(consts[k - 1].num))
        else Stop(n, Undefined)
  {
    hide Trunc, StepPopn;
    var ch := CodeOf(w, m);
    assert ch.code[m.ip] == OP_POPN && ch.code[m.ip + 1] == k - 1;
    assert Step(w, m) == Step2(w, m, OP_POPN, ch.code[m.ip + 1], ch);
  }

  // ------------------------------------------------------------ declarations

  function Pushes(w: World, m: Machine, us: seq<Element>): Machine
    decreases |us|
  {
    if us == [] then m else Pushes(w, Push(w, m, m.stack, us[0]), us[1..])
  }

  /** Cell `i` still holds `v` after `us` have been pushed. */
  predicate Survives(w: World, m: Machine, i: nat, v: Element, us: seq<Element>) {
    i < |Cells(Pushes(w, m, us))| && Cells(Pushes(w, m, us))[i] == v
  }

  /** A declaration of `x` where `names` are in scope, of which the stack need not have any (each
      function of a script adds a name and no cell): the store lands on a cell in use, and
      the variable outlives whatever is pushed next, if and only if the stack was as high as
      there were names. */
  lemma DeclarationExact(w: World, m: Machine, n: nat, x: Name, e: Expr, rest: Decls, names: seq<Name>, fns: Fns,
                         nc: nat,
                         vals: seq<Element>, v: Element, out: seq<Element>)
    requires |m.frames| > 0 && LaidD(Then(Var(x, e), rest), names, fns, CodeOf(w, m), m.ip, nc)
    requires Moved(w, m, StepN(w, m, n), SizeE(e), vals, [v], out)
    requires |Cells(StepN(w, m, n))| == w.limit > Base(m) + |names|
    ensures
      var m', i := StepN(w, m, n + 1), Base(m) + |names|;
      && m'.status == Running && |Cells(m')| == w.limit && Cells(m')[i] == v
      && (i < |m'.stack| <==> i <= |m.stack|)
      && ((forall us :: Survives(w, m', i, v, us)) <==> i <= |m.stack|)
  {
    hide StepN, LaidE, SizeE;
    StepNext(w, m, n);
    var m1, i := StepN(w, m, n), Base(m) + |names|;
    assert At2(CodeOf(w, m1), m1.ip, OP_SET_LOCAL, |names|);
    SetStep(w, m1, |names|);
    var m' := Step(w, m1);
    if i <= |m.stack| {
      forall us ensures Survives(w, m', i, v, us) {
        BelowSurvives(w, m', i, v, us);
      }
    } else {
      assert Survives(w, m', i, v, []);
      var us := Overwrite(w, m', i, v);
      assert !Survives(w, m', i, v, us);
    }
  }

  lemma SetStep(w: World, m: Machine, k: nat)
    requires m.status == Running && |m.frames| > 0 && At2(CodeOf(w, m), m.ip, OP_SET_LOCAL, k)
    requires |m.stack| > 0 && Base(m) + k < |Cells(m)|
    ensures Step(w, m) == Write(m.(ip := m.ip + 2), Base(m) + k, Last(m.stack))
  {
    hide Write;
    var ch := CodeOf(w, m);
    assert Step(w, m) == Step2(w, m, OP_SET_LOCAL, k, ch);
  }

  lemma {:induction false} BelowSurvives(w: World, m: Machine, i: nat, v: Element, us: seq<Element>)
    requires i < |m.stack| <= w.limit == |Cells(m)| && m.stack[i] == v
    ensures Survives(w, m, i, v, us)
    decreases |us|
  {
    if us != [] {
      var m1 := Push(w, m, m.stack, us[0]);
      BelowSurvives(w, m1, i, v, us[1..]);
    }
  }

  /** Values whose pushing overwrites cell `i`. */
  lemma {:induction false} Overwrite(w: World, m: Machine, i: nat, v: Element) returns (us: seq<Element>)
    requires |m.stack| <= i < w.limit == |Cells(m)|
    ensures !Survives(w, m, i, v, us)
    decreases i - |m.stack|
  {
    var u := if v == Null then Bool(true) else Null;
    var m1 := Push(w, m, m.stack, u);
    if i == |m.stack| {
      us := [u];
      assert Pushes(w, m, us) == Pushes(w, m1, []);
    } else {
      var more := Overwrite(w, m1, i, v);
      us := [u] + more;
      assert us[1..] == more;
    }
  }
}
