/** Entering a function: OP_CALL and the parameter instructions. */
module Calls {
  import opened Values
  import opened Bytecode
  import opened Layout
  import opened Machine
  import opened ExprSimulation

  /** A frame has just been pushed: its cells are the callee and the arguments. */
  predicate Entered(w: World, m: Machine, args: seq<Element>) {
    && m.status == Running
    && |m.frames| > 0
    && m.ip == 0
    && |m.stack| == Base(m) + 1 + |args|
    && m.stack[Base(m) + 1..] == args
    && m.argc == |args|
    && m.cargc == 1
    && (forall k :: 0 <= k < |args| ==> At2(CodeOf(w, m), 2 * k, OP_SET_LOCAL_PARAM, k))
  }

  /** `k` parameter instructions later: slots below `k` hold their arguments, although each
      write overlaps the cells still to be read. */
  predicate Loaded(m: Machine, m': Machine, args: seq<Element>, k: nat)
    requires |m.frames| > 0 && k <= |args|
  {
    && m'.(ip := 0, stack := m.stack, cargc := 1) == m.(ip := 0, cargc := 1)
    && m'.ip == 2 * k
    && m'.cargc == (if k < |args| || k == 0 then k + 1 else k)
    && Base(m) + 1 + |args| == |m.stack|
    && m'.stack == m.stack[..Base(m)] + args[..k] + m.stack[Base(m) + k..]
  }

  lemma {:induction false} ParamsLoad(w: World, m: Machine, args: seq<Element>, k: nat)
    requires Entered(w, m, args) && k <= |args|
    ensures Loaded(m, StepN(w, m, k), args, k)
  {
    hide Loaded, Step, StepN, Entered;
    if k == 0 {
      NothingLoaded(w, m, args);
    } else {
      ParamsLoad(w, m, args, k - 1);
      StepNext(w, m, k - 1);
      ParamStep(w, m, StepN(w, m, k - 1), args, k - 1);
    }
  }

  lemma NothingLoaded(w: World, m: Machine, args: seq<Element>)
    requires Entered(w, m, args)
    ensures Loaded(m, StepN(w, m, 0), args, 0)
  {
    assert m.stack == m.stack[..Base(m)] + args[..0] + m.stack[Base(m)..];
  }

  lemma ParamStep(w: World, m: Machine, m1: Machine, args: seq<Element>, k: nat)
    requires Entered(w, m, args) && k < |args|
    requires Loaded(m, m1, args, k)
    ensures Loaded(m, Step(w, m1), args, k + 1)
  {
    hide Step;
    var b := Base(m);
    assert At2(CodeOf(w, m), 2 * k, OP_SET_LOCAL_PARAM, k);
    assert CodeOf(w, m1) == CodeOf(w, m);
    assert m.stack[b + 1..][k] == m.stack[b + 1 + k];
    assert m1.stack[b + 1 + k] == args[k];
    ParamIs(w, m1, k);
    assert m1.stack[b + k := args[k]] == m.stack[..b] + args[..k + 1] + m.stack[b + k + 1..];
  }

  lemma ParamIs(w: World, m: Machine, k: nat)
    requires m.status == Running && |m.frames| > 0 && At2(CodeOf(w, m), m.ip, OP_SET_LOCAL_PARAM, k)
    ensures Step(w, m) == StepParam(m.(ip := m.ip + 2), Base(m) + k)
  {
    hide StepParam;
    assert Step(w, m) == Step2(w, m, OP_SET_LOCAL_PARAM, k, CodeOf(w, m));
  }

  /** The n parameter instructions put argument `k` into slot `k` and leave the height. */
  lemma ParametersInPlace(w: World, m: Machine, args: seq<Element>)
    requires Entered(w, m, args)
    ensures var m' := StepN(w, m, |args|);
            && m'.status == Running && m'.ip == 2 * |args|
            && |m'.stack| == |m.stack|
            && m'.stack[..Base(m)] == m.stack[..Base(m)]
            && (forall k :: 0 <= k < |args| ==> m'.stack[Base(m) + k] == args[k])
  {
    ParamsLoad(w, m, args, |args|);
  }

  /** OP_CALL on a closure of matching arity, below the limits. */
  lemma StepCallEnters(w: World, m: Machine, f: nat, args: seq<Element>, below: seq<Element>)
    requires m.status == Running && |m.frames| > 0
    requires m.stack == below + [Closure(f)] + args
    requires At2(CodeOf(w, m), m.ip, OP_CALL, |args|)
    requires f < |w.funcs| && w.funcs[f].arity == |args|
    requires forall k :: 0 <= k < |args| ==> At2(w.funcs[f].ch, 2 * k, OP_SET_LOCAL_PARAM, k)
    ensures var m' := Step(w, m);
            if |m.frames| >= 500 then m'.status == FramesFull
            else
              && Entered(w, m', args)
              && m'.frames == m.frames + [Frame(f, m.ip + 2, |below|, |below| % 256)]
              && m'.stack == m.stack && m'.objs == m.objs && m'.out == m.out
              && CodeOf(w, m') == w.funcs[f].ch
  {
    assert m.stack[|m.stack| - 1 - |args|] == Closure(f);
    assert m.stack[|below| + 1..] == args;
  }

  /** OP_CALL on anything else. */
  lemma StepCallFails(w: World, m: Machine, f: Element, args: seq<Element>, below: seq<Element>)
    requires m.status == Running && |m.frames| > 0
    requires m.stack == below + [f] + args
    requires At2(CodeOf(w, m), m.ip, OP_CALL, |args|)
    requires !f.Closure? || (f.fn < |w.funcs| && w.funcs[f.fn].arity != |args|)
    ensures Step(w, m).status == Failed && Step(w, m).out == m.out
  {
    assert m.stack[|m.stack| - 1 - |args|] == f;
  }
}
