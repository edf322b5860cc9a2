/** The virtual machine's `run` loop as a step function on values. */
module Machine {
  import opened Values
  import opened Bytecode

  const FRAMES_MAX: nat := 500

  datatype Function = Function(arity: nat, ch: Chunk)

  /** `slots` is the index of the frame's first cell; `returnIndex` is the 8-bit field. */
  datatype Frame = Frame(fn: nat, ipReturn: nat, slots: nat, returnIndex: nat)

  datatype Status =
    | Running
    | Finished    // the outermost frame returned
    | Failed      // runtime_error
    | Exited      // exit(1) inside an operator
    | StackFull   // a push beyond `limit`
    | FramesFull  // call with FRAMES_MAX frames
    | Undefined   // C leaves the behaviour undefined, or the opcode is not modelled

  /** What does not change during a run. `limit` is the length of the stack array, at which the
      model stops. */
  datatype World = World(funcs: seq<Function>, limit: nat)

  /** `stack` holds the cells in use and `spare` the rest of the array: a cell that has been
      popped keeps its value until it is pushed over. */
  datatype Machine = Machine(
    ip: nat,
    stack: seq<Element>,
    spare: seq<Element>,
    frames: seq<Frame>,
    argc: nat,
    cargc: nat,
    objs: seq<Element>,
    out: seq<Element>,
    status: Status)

  function Stop(m: Machine, s: Status): Machine {
    m.(status := s)
  }

  function Top(m: Machine): Frame
    requires |m.frames| > 0
  {
    m.frames[|m.frames| - 1]
  }

  function CodeOf(w: World, m: Machine): Chunk
    requires |m.frames| > 0
  {
    if Top(m).fn < |w.funcs| then w.funcs[Top(m).fn].ch else Chunk([], [], [])
  }

  function Cells(m: Machine): seq<Element> {
    m.stack + m.spare
  }

  /** `s` is now the part in use; the cells above it are as they were. */
  function Use(m: Machine, s: seq<Element>): Machine {
    m.(stack := s, spare := if |s| <= |Cells(m)| then Cells(m)[|s|..] else [])
  }

  /** A store to any cell of the array. */
  function Write(m: Machine, i: nat, v: Element): Machine
    requires i < |Cells(m)|
  {
    if i < |m.stack| then m.(stack := m.stack[i := v]) else m.(spare := m.spare[i - |m.stack| := v])
  }

  /** PUSH onto `s`, or the model stops at its limit. */
  function Push(w: World, m: Machine, s: seq<Element>, v: Element): Machine {
    if |s| >= w.limit then Stop(m, StackFull) else Use(m, s + [v])
  }

  function Last(s: seq<Element>): Element
    requires |s| > 0
  {
    s[|s| - 1]
  }

  /** The count never goes below zero. */
  function Popped(s: seq<Element>, n: nat): seq<Element> {
    s[..if n <= |s| then |s| - n else 0]
  }

  /** What POP yields after `k` other pops: an empty stack yields its first cell. */
  function Peek(m: Machine, k: nat): Element {
    if k < |m.stack| then m.stack[|m.stack| - 1 - k] else if Cells(m) != [] then Cells(m)[0] else Null
  }

  /** Pushes the result of an operator; `s` is the stack without its operands. */
  function Settle(m: Machine, s: seq<Element>, r: Outcome): Machine {
    match r
    case Fine(v) => Use(m, s + [v])
    case TypeError => Stop(Use(m, s), Exited)
    case Wild => Stop(Use(m, s), Undefined)
  }

  function StepUnary(m: Machine, op: Byte): Machine {
    if |m.stack| == 0 then Stop(m, Undefined)
    else
      var a := Last(m.stack);
      var r := if op == OP_NEG then NegValue(a) else BumpValue(a, op == OP_INC);
      Settle(m, Popped(m.stack, 1), r)
  }

  function StepBinary(m: Machine, op: Byte): Machine
    requires IsBinary(op)
  {
    Settle(m, Popped(m.stack, 2), PopOp(ByteOp(op), Peek(m, 0), Peek(m, 1)))
  }

  function StepCall(w: World, m: Machine, argc: Byte, back: nat): Machine {
    if |m.stack| <= argc then Stop(m, Undefined)
    else
      var base := |m.stack| - 1 - argc;
      var v := m.stack[base];
      if !v.Closure? then Stop(m, Failed)
      else if v.fn >= |w.funcs| then Stop(m, Undefined)
      else if w.funcs[v.fn].arity != argc then Stop(m, Failed)
      else if |m.frames| >= FRAMES_MAX then Stop(m, FramesFull)
      else m.(ip := 0, frames := m.frames + [Frame(v.fn, back, base, base % 256)], argc := argc, cargc := 1)
  }

  /** The value on top is kept, the count goes back to where the frame began, and the value is
      pushed there. */
  function StepReturn(w: World, m: Machine): Machine
    requires |m.frames| > 0
  {
    var f := Top(m);
    var rest := m.frames[..|m.frames| - 1];
    if |rest| == 0 then Use(m, Popped(m.stack, 1)).(frames := rest, status := Finished)
    else if f.returnIndex > |Cells(m)| then Stop(m, Undefined)
    else
      var back := Use(m, Cells(m)[..f.returnIndex]).(ip := f.ipReturn, frames := rest);
      Push(w, back, back.stack, Peek(m, 0))
  }

  /** Instructions without operands. */
  function Step1(w: World, m: Machine, op: Byte): Machine
    requires |m.frames| > 0
  {
    var n := m.(ip := m.ip + 1);
    if IsBinary(op) then StepBinary(n, op)
    else if OP_NEG <= op <= OP_DEC then StepUnary(n, op)
    else if op == OP_RETURN then StepReturn(w, n)
    else if op == OP_NOOP then Push(w, n, n.stack, Null)
    else if op == OP_POP then Use(n, Popped(n.stack, 1))
    else if op == OP_PRINT then Use(n, Popped(n.stack, 1)).(out := n.out + [Peek(n, 0)])
    else Stop(n, Undefined)
  }

  /** Instructions with one operand byte `a`. */
  function Step2(w: World, m: Machine, op: Byte, a: Byte, ch: Chunk): Machine
    requires |m.frames| > 0
  {
    var n := m.(ip := m.ip + 2);
    var slot := Top(m).slots + a;
    if op == OP_CONSTANT then
      if a < |ch.consts| then Push(w, n, n.stack, ch.consts[a]) else Stop(n, Undefined)
    else if op == OP_GET_OBJ then
      if a < |n.objs| then Push(w, n, n.stack, n.objs[a]) else Stop(n, Undefined)
    else if op == OP_GET_LOCAL then
      if slot < |Cells(n)| then Push(w, n, n.stack, Cells(n)[slot]) else Stop(n, Undefined)
    else if op == OP_SET_LOCAL then
      if |n.stack| > 0 && slot < |Cells(n)| then Write(n, slot, Last(n.stack)) else Stop(n, Undefined)
    else if op == OP_SET_LOCAL_PARAM then StepParam(n, slot)
    else if op == OP_CALL then StepCall(w, n, a, n.ip)
    else if op == OP_POPN then
      if a < |ch.consts| && ch.consts[a].Num? then StepPopn(n, Trunc(ch.consts[a].num)) else Stop(n, Undefined)
    else Stop(n, Undefined)
  }

  /** `popn`: a negative number raises the count. */
  function StepPopn(m: Machine, n: int): Machine {
    if n >= 0 then Use(m, Popped(m.stack, n))
    else if |m.stack| - n <= |Cells(m)| then Use(m, Cells(m)[..|m.stack| - n])
    else Stop(m, Undefined)
  }

  /** OP_SET_LOCAL_PARAM: the next argument while `cargc < argc`, afterwards the top cell. */
  function StepParam(m: Machine, slot: nat): Machine
    requires |m.frames| > 0
  {
    if slot >= |Cells(m)| then Stop(m, Undefined)
    else if m.cargc < m.argc then
      var from := Top(m).slots + m.cargc;
      if from < |Cells(m)| then Write(m, slot, Cells(m)[from]).(cargc := m.cargc + 1) else Stop(m, Undefined)
    else if |m.stack| > 0 then Write(m, slot, Last(m.stack))
    else Stop(m, Undefined)
  }

  /** Instructions with a two-byte operand; `d` is its value as the machine reads it. */
  function Step3(m: Machine, op: Byte, d: nat, ch: Chunk): Machine
    requires m.ip + 2 < |ch.code|
  {
    var n := m.(ip := m.ip + 3);
    if op == OP_JMP then n.(ip := n.ip + d)
    else if op == OP_LOOP then if d <= n.ip then n.(ip := n.ip - d) else Stop(n, Undefined)
    else if op == OP_JMPL then if d < |ch.cases| then n.(ip := ch.cases[d]) else Stop(n, Undefined)
    else if op == OP_JMPF then
      if !Peek(n, 0).Bool? then Stop(n, Undefined)
      else Use(n, Popped(n.stack, 1)).(ip := if Peek(n, 0).truth then n.ip else n.ip + d)
    else if op == OP_CLOSURE then
      var k, o := ch.code[m.ip + 1], ch.code[m.ip + 2];
      if k < |ch.consts| && o < |n.objs| then n.(objs := n.objs[o := ch.consts[k]]) else Stop(n, Undefined)
    else Stop(n, Undefined)
  }

  /** One turn of the loop; a machine that is not running stays as it is. */
  function Step(w: World, m: Machine): Machine {
    if m.status != Running then m
    else if |m.frames| == 0 then Stop(m, Undefined)
    else
      var ch := CodeOf(w, m);
      if m.ip >= |ch.code| || m.ip + Length(ch.code[m.ip]) > |ch.code| then Stop(m, Undefined)
      else
        var op := ch.code[m.ip];
        if Length(op) == 1 then Step1(w, m, op)
        else if Length(op) == 2 then Step2(w, m, op, ch.code[m.ip + 1], ch)
        else Step3(m, op, VmOperand(ch, m.ip + 1), ch)
  }

  function StepN(w: World, m: Machine, n: nat): Machine
    decreases n
  {
    if n == 0 then m else StepN(w, Step(w, m), n - 1)
  }

  lemma {:induction false} StepNAdd(w: World, m: Machine, a: nat, b: nat)
    ensures StepN(w, m, a + b) == StepN(w, StepN(w, m, a), b)
    decreases a
  {
    if a > 0 {
      StepNAdd(w, Step(w, m), a - 1, b);
    }
  }

  lemma {:induction false} Halted(w: World, m: Machine, n: nat)
    requires m.status != Running
    ensures StepN(w, m, n) == m
    decreases n
  {
    if n > 0 {
      Halted(w, m, n - 1);
    }
  }

  /** The run ended because a fixed-size resource ran out. */
  predicate Spent(m: Machine) {
    m.status == StackFull || m.status == FramesFull
  }
}
