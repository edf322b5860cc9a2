/** From tokens to output: compiling and running a script. */
module Interpreter {
  import opened Values
  import opened Syntax
  import opened Bytecode
  import opened Semantics
  import opened Functions
  import opened Scripts
  import opened Preservation
  import opened Fragment
  import M = Machine
  import Compilation
  import VirtualMachine

  /** A stopped machine shows what the script means: its output, and how it ended. Only a script
      that strays into what the language leaves undefined may do anything. */
  predicate Faithful(status: M.Status, out: seq<Element>, r: SR) {
    match r
    case Norm(_, o) => status == M.Finished && out == o
    case Ret(_, o) => status == M.Finished && out == o
    case Void(o) => status == M.Finished && out == o
    case SStop(Exit(o)) => status == M.Exited && out == o
    case SStop(Fail(o)) => status == M.Failed && out == o
    case SStop(Stray) => true
    case SStop(_) => false
  }

  /** `interpret_path` on scanned source, for `turns` turns of the loop. `names` and `natives`
      are the objects that exist before the script's own; `limit` is the length of the stack. A
      program that dies while compiling ends in an undefined state. */
  method Interpret(tokens: seq<Token>, names: seq<Name>, natives: seq<Element>, blank: Name, limit: nat, turns: nat,
                   ghost items: seq<Item>)
    returns (status: M.Status, out: seq<Element>)
    requires tokens != [] && tokens[|tokens| - 1].Eof? && forall i :: 0 <= i < |tokens| - 1 ==> !tokens[i].Eof?
    requires |names| == |natives| && NoRepeats(names) && 1 <= limit <= 256
    ensures tokens == PrintItems(items) && ScriptFits(items, blank, |names|) && ModestScript(items, blank)
            && Compilation.NewNames(items, names) && High(items) ==>
              if Compilation.Bearable(items, |names|) then
                status == M.Running || status == M.StackFull || status == M.FramesFull ||
                Faithful(status, out, RunItems(items, 0, blank, [Closure(FunCount(items))], [], turns + 1))
              else status == M.Undefined && out == []
  {
    hide ScriptFits, LaidScript, ModestScript, Script, RunItems, M.StepN, PrintItems, High, RunsLow,
         Compilation.NewNames;
    var end, script, funcs := Compilation.Compile(tokens, names, blank, items);
    if end != Compilation.Compiled {
      return (match end case Crashed => M.Undefined case Exited => M.Exited case _ => M.Failed), [];
    }
    var w := M.World(funcs + [M.Function(0, script)], limit);
    var objs := natives + seq(|funcs|, _ => Null);
    var vm := new VirtualMachine.Vm(w, |funcs|, Closure(|funcs|), objs);
    ghost var idle := vm.View().spare;
    vm.Run(turns);
    status, out := vm.status, vm.out;
    if tokens == PrintItems(items) && ScriptFits(items, blank, |names|) && ModestScript(items, blank)
       && Compilation.NewNames(items, names) && High(items)
       && status != M.Running && status != M.StackFull && status != M.FramesFull {
      FragmentIsScript(items, blank, |names|, script, funcs);
      ScriptCount(items, blank, |names|, script, funcs);
      ScriptReflected(items, blank, |names|, script, funcs, limit, objs, idle, turns);
    }
  }
}
