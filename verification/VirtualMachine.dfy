/** The run loop of virtual_machine.c over arrays. */
module VirtualMachine {
  import opened Values
  import opened Bytecode
  import M = Machine

  /** A count of `c` on an array `a`. */
  lemma Counted(m: M.Machine, a: seq<Element>, c: nat)
    requires M.Cells(m) == a && c <= |a|
    ensures M.Use(m, a[..c]) == m.(stack := a[..c], spare := a[c..])
    ensures M.Cells(M.Use(m, a[..c])) == a
  {
  }

  /** A store of `v` on top of `c` cells. */
  lemma Stored(m: M.Machine, a: seq<Element>, c: nat, v: Element)
    requires M.Cells(m) == a && c < |a|
    ensures M.Use(m, a[..c] + [v]) == m.(stack := a[c := v][..c + 1], spare := a[c := v][c + 1..])
  {
    assert a[c := v][..c + 1] == a[..c] + [v];
  }

  /** `machine`, as far as the fragment uses it. The stack array is as long as the world's
      limit says, and never moves. */
  class Vm {
    const w: M.World
    const cells: array<Element>
    const frames: array<M.Frame>
    var count: nat
    var frame: nat
    var ip: nat
    var argc: nat
    var cargc: nat
    var objs: seq<Element>
    var out: seq<Element>
    var status: M.Status

    ghost predicate Valid()
      reads this, cells, frames
    {
      && cells.Length == w.limit > 0 && frames.Length == M.FRAMES_MAX
      && count <= cells.Length && frame <= frames.Length
    }

    /** The machine as a value. */
    ghost function View(): M.Machine
      reads this, cells, frames
      requires Valid()
    {
      M.Machine(ip, cells[..count], cells[count..], frames[..frame], argc, cargc, objs, out, status)
    }

    constructor (w: M.World, fn: nat, callee: Element, objs: seq<Element>)
      requires w.limit > 0
      ensures Valid() && fresh(cells) && fresh(frames) && this.w == w
      ensures View() == M.Machine(0, [callee], View().spare, [M.Frame(fn, 0, 0, 255)], 0, 0, objs, [], M.Running)
      ensures |View().spare| == w.limit - 1
    {
      this.w := w;
      cells := new Element[w.limit](_ => callee);
      frames := new M.Frame[M.FRAMES_MAX](_ => M.Frame(fn, 0, 0, 255));
      count, frame, ip, argc, cargc := 1, 1, 0, 0, 0;
      this.objs, out, status := objs, [], M.Running;
      new;
      assert cells[..1] == [callee];
      assert frames[..1] == [M.Frame(fn, 0, 0, 255)];
    }

    // --------------------------------------------------------------- the stack

    /** The array is the cells in use and the others. */
    lemma Whole()
      requires Valid()
      ensures M.Cells(View()) == cells[..] && View().stack == cells[..][..count]
    {
    }

    method Push(e: Element)
      requires Valid()
      modifies this`count, this`status, cells
      ensures Valid() && View() == M.Push(w, old(View()), old(View()).stack, e)
    {
      if count >= cells.Length {
        status := M.StackFull;
      } else {
        Whole();
        Stored(View(), cells[..], count, e);
        cells[count] := e;
        count := count + 1;
        Whole();
      }
    }

    /** `pop`: an empty stack yields its first cell and stays empty. */
    method Pop() returns (e: Element)
      requires Valid()
      modifies this`count
      ensures Valid() && e == M.Peek(old(View()), 0) && View() == M.Use(old(View()), M.Popped(old(View()).stack, 1))
      ensures M.Cells(View()) == M.Cells(old(View()))
    {
      Whole();
      if count == 0 {
        Counted(View(), cells[..], 0);
        return cells[0];
      }
      Counted(View(), cells[..], count - 1);
      count := count - 1;
      e := cells[count];
    }

    method Halt(s: M.Status)
      requires Valid()
      modifies this`status
      ensures Valid() && View() == M.Stop(old(View()), s)
    {
      status := s;
    }

    /** Pushes the result of an operator whose operands have been popped. */
    method Settle(r: Outcome)
      requires Valid() && count < cells.Length
      modifies this`count, this`status, cells
      ensures Valid() && View() == M.Settle(old(View()), old(View()).stack, r)
    {
      Whole();
      Counted(View(), cells[..], count);
      if r.Fine? {
        Push(r.v);
      } else if r.TypeError? {
        Halt(M.Exited);
      } else {
        Halt(M.Undefined);
      }
    }

    // ----------------------------------------------------------- instructions

    method Unary(op: Byte)
      requires Valid()
      modifies this`count, this`status, cells
      ensures Valid() && View() == M.StepUnary(old(View()), op)
    {
      if count == 0 {
        Halt(M.Undefined);
        return;
      }
      var a := Pop();
      Settle(if op == OP_NEG then NegValue(a) else BumpValue(a, op == OP_INC));
    }

    /** `PUSH(_op(POP(), POP()))`: the first pop is the right operand. */
    method Binary(op: Byte)
      requires Valid() && IsBinary(op)
      modifies this`count, this`status, cells
      ensures Valid() && View() == M.StepBinary(old(View()), op)
    {
      ghost var was := View();
      var first := Pop();
      var second := Pop();
      assert View().stack == M.Popped(was.stack, 2) && first == M.Peek(was, 0) && second == M.Peek(was, 1);
      assert View() == M.Use(was, M.Popped(was.stack, 2));
      Settle(PopOp(ByteOp(op), first, second));
    }

    /** `call_value` and `call`. */
    method Call(n: Byte)
      requires Valid()
      modifies this, frames
      ensures Valid() && View() == M.StepCall(w, old(View()), n, old(ip))
    {
      if count <= n {
        Halt(M.Undefined);
        return;
      }
      var base := count - 1 - n;
      var v := cells[base];
      if !v.Closure? {
        Halt(M.Failed);
      } else if v.fn >= |w.funcs| {
        Halt(M.Undefined);
      } else if w.funcs[v.fn].arity != n {
        Halt(M.Failed);
      } else if frame >= M.FRAMES_MAX {
        Halt(M.FramesFull);
      } else {
        ghost var fs := frames[..frame];
        frames[frame] := M.Frame(v.fn, ip, base, base % 256);
        frame := frame + 1;
        assert frames[..frame] == fs + [M.Frame(v.fn, ip, base, base % 256)];
        ip, argc, cargc := 0, n, 1;
      }
    }

    method Return()
      requires Valid() && frame > 0
      modifies this`count, this`frame, this`status, this`ip, cells
      ensures Valid() && View() == M.StepReturn(w, old(View()))
    {
      ghost var was := View();
      Whole();
      var f := frames[frame - 1];
      if frame > 1 && f.returnIndex > cells.Length {
        Halt(M.Undefined);
        return;
      }
      var v := Pop();
      frame := frame - 1;
      assert frames[..frame] == was.frames[..|was.frames| - 1];
      if frame == 0 {
        Halt(M.Finished);
        return;
      }
      Counted(was, cells[..], f.returnIndex);
      count := f.returnIndex;
      ip := f.ipReturn;
      Push(v);
    }

    /** OP_SET_LOCAL_PARAM. */
    method Param(slot: nat)
      requires Valid() && frame > 0
      modifies this`cargc, this`status, cells
      ensures Valid() && View() == M.StepParam(old(View()), slot)
    {
      Whole();
      if slot >= cells.Length {
        Halt(M.Undefined);
      } else if cargc < argc {
        var from := frames[frame - 1].slots + cargc;
        if from < cells.Length {
          Store(slot, cells[from]);
          cargc := cargc + 1;
        } else {
          Halt(M.Undefined);
        }
      } else if count > 0 {
        Store(slot, cells[count - 1]);
      } else {
        Halt(M.Undefined);
      }
    }

    /** A store to any cell, in use or not. */
    method Store(slot: nat, v: Element)
      requires Valid() && slot < cells.Length
      modifies cells
      ensures Valid() && slot < |M.Cells(old(View()))| && View() == M.Write(old(View()), slot, v)
    {
      Whole();
      cells[slot] := v;
    }

    /** Instructions without operands. */
    method One(op: Byte)
      requires Valid() && frame > 0
      modifies this, cells
      ensures Valid() && View() == M.Step1(w, old(View()), op)
    {
      hide M.StepBinary, M.StepUnary, M.StepReturn, M.Push, M.Use, M.Popped, M.Peek;
      ip := ip + 1;
      if IsBinary(op) {
        Binary(op);
      } else if OP_NEG <= op <= OP_DEC {
        Unary(op);
      } else if op == OP_RETURN {
        Return();
      } else if op == OP_NOOP {
        Push(Null);
      } else if op == OP_POP {
        var _ := Pop();
      } else if op == OP_PRINT {
        var e := Pop();
        out := out + [e];
      } else {
        Halt(M.Undefined);
      }
    }

    /** Instructions with one operand byte. */
    method Two(op: Byte, a: Byte, ch: Chunk)
      requires Valid() && frame > 0
      modifies this, cells, frames
      ensures Valid() && View() == M.Step2(w, old(View()), op, a, ch)
    {
      hide M.StepCall, M.StepParam, M.StepPopn, M.Push, M.Write, Trunc;
      ip := ip + 2;
      var slot := frames[frame - 1].slots + a;
      if op == OP_CONSTANT {
        if a < |ch.consts| {
          Push(ch.consts[a]);
        } else {
          Halt(M.Undefined);
        }
      } else if op == OP_GET_OBJ {
        if a < |objs| {
          Push(objs[a]);
        } else {
          Halt(M.Undefined);
        }
      } else if op == OP_GET_LOCAL {
        Whole();
        if slot < cells.Length {
          Push(cells[slot]);
        } else {
          Halt(M.Undefined);
        }
      } else if op == OP_SET_LOCAL {
        Whole();
        if count > 0 && slot < cells.Length {
          Store(slot, cells[count - 1]);
        } else {
          Halt(M.Undefined);
        }
      } else if op == OP_SET_LOCAL_PARAM {
        Param(slot);
      } else if op == OP_CALL {
        Call(a);
      } else if op == OP_POPN {
        Popn(a, ch);
      } else {
        Halt(M.Undefined);
      }
    }

    /** OP_POPN reads its count from the constants. */
    method Popn(a: Byte, ch: Chunk)
      requires Valid()
      modifies this`count, this`status
      ensures Valid()
      ensures View() == if a < |ch.consts| && ch.consts[a].Num? then M.StepPopn(old(View()), Trunc(ch.consts[a].num))
                        else M.Stop(old(View()), M.Undefined)
    {
      Whole();
      if a < |ch.consts| && ch.consts[a].Num? {
        var left := count - Trunc(ch.consts[a].num);
        if left > cells.Length {
          Halt(M.Undefined);
        } else {
          Counted(View(), cells[..], if left < 0 then 0 else left);
          count := if left < 0 then 0 else left;
        }
      } else {
        Halt(M.Undefined);
      }
    }

    /** Instructions with two operand bytes. */
    method Three(op: Byte, d: nat, ch: Chunk)
      requires Valid() && ip + 2 < |ch.code|
      modifies this`count, this`ip, this`objs, this`status
      ensures Valid() && View() == M.Step3(old(View()), op, d, ch)
    {
      hide M.Use, M.Popped;
      var at := ip;
      ip := ip + 3;
      if op == OP_JMP {
        ip := ip + d;
      } else if op == OP_LOOP {
        if d <= ip {
          ip := ip - d;
        } else {
          Halt(M.Undefined);
        }
      } else if op == OP_JMPL {
        if d < |ch.cases| {
          ip := ch.cases[d];
        } else {
          Halt(M.Undefined);
        }
      } else if op == OP_JMPF {
        if !cells[if count > 0 then count - 1 else 0].Bool? {
          Halt(M.Undefined);
        } else {
          var e := Pop();
          ip := if e.truth then ip else ip + d;
        }
      } else if op == OP_CLOSURE {
        var k, o := ch.code[at + 1], ch.code[at + 2];
        if k < |ch.consts| && o < |objs| {
          objs := objs[o := ch.consts[k]];
        } else {
          Halt(M.Undefined);
        }
      } else {
        Halt(M.Undefined);
      }
    }

    // --------------------------------------------------------------- the loop

    /** One turn of the loop. */
    method Turn()
      requires Valid()
      modifies this, cells, frames
      ensures Valid() && View() == M.Step(w, old(View()))
    {
      hide M.Step1, M.Step2, M.Step3;
      if status != M.Running {
        return;
      }
      if frame == 0 {
        Halt(M.Undefined);
        return;
      }
      var fn := frames[frame - 1].fn;
      var ch := if fn < |w.funcs| then w.funcs[fn].ch else Chunk([], [], []);
      assert ch == M.CodeOf(w, View());
      if ip >= |ch.code| || ip + Length(ch.code[ip]) > |ch.code| {
        Halt(M.Undefined);
        return;
      }
      var op := ch.code[ip];
      if Length(op) == 1 {
        One(op);
      } else if Length(op) == 2 {
        Two(op, ch.code[ip + 1], ch);
      } else {
        Three(op, VmOperand(ch, ip + 1), ch);
      }
    }

    /** The first `n` turns of `run`. */
    method Run(n: nat)
      requires Valid()
      modifies this, cells, frames
      ensures Valid() && View() == M.StepN(w, old(View()), n)
    {
      hide M.Step;
      var i := 0;
      while i < n
        invariant i <= n && Valid() && M.StepN(w, View(), n - i) == M.StepN(w, old(View()), n)
      {
        Turn();
        i := i + 1;
      }
    }
  }
}
