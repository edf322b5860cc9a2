# A verified model of the Ykes core

Ykes is a bytecode language. A single-pass Pratt compiler (`compiler.c`) turns scanned tokens
into bytes with back-patched jumps, a stack machine (`virtual_machine.c`) runs them, and a
hand-written free-list allocator (`mem.c`), vectors, tables and text conversion lie underneath.
This project models these parts in Dafny and proves what they promise. `dafny verify
dfyconfig.toml` checks everything.

## What is modelled

**The language.** `Syntax` has the trees of the fragment (functions, local variables, assignment
and compound assignment, arithmetic and comparison, calls, `pout`, `if`/`elif`/`else`, `while`,
`for`, blocks, `return` with and without a value), its tokens, the precedence table, and a printer.
A tree may have parentheses where none are needed, and a statement of a script may lack its
semicolon. `Semantics` says what a program
means, by recursion with fuel, without stacks, slots or jumps. A call whose value is discarded may
end in any way; a call whose value is needed must reach `return e;`. Identifiers are their hashes,
as in the program.

**The compiler.** `Compilation.Compiler` is the compiler record with its fields (tokens, locals,
scope depth, the record `array`, the chunk), and a method for each function of `compiler.c` in
the fragment. Methods take ghost trees: if the tokens ahead are the printed tree and the tree
resolves, the method appends exactly the tree's code (`Layout`) and consumes exactly its tokens.
`Emission`, `Prefixes`, `StmtEmission`, `Statements` and `Functions` hold the states before and
after each rule as values, and how the pieces of code and the constants add up; `Spine` relates
the printed form of an expression to the order in which a Pratt parser meets it. `Lookups` is the
table in which a script's functions are declared, `Cases` the array of the places where `if`s end;
both have a capacity that compilation can exceed. `Recovery` says where parsing goes on after a
missing semicolon. `Precedence` reads emitted code back as instructions and says, on token lists
written out, which operator comes first.

**The machine.** `Machine` is one turn of `run` on values, byte by byte: operands are decoded as
the machine decodes them, frames hold base indices, the return index has 8 bits, and cells keep
their values after they have been popped.
`VirtualMachine.Vm` is the same over arrays. `ExprSimulation`, `Simulation`, `Calls` and
`Correctness` prove that laid-out code does what its tree means. The stack is not
height-disciplined (expression statements leave values behind), so the relation is: the cells
from the frame base on hold the variables, the output agrees, what lies above is unspecified but
has grown by at least what the statement leaves on every path, what lies below is untouched.

**Results on whole runs.** `Scripts` and `Preservation` put functions and statements together:
a compiled script behaves as its source does, in both directions, and diverges when it does,
unless it comes to a statement with a stack that is too low for it.
`Padding` shows that unnamed variables change no meaning, which the script's own variables after
a function need. `Fragment` gives the limits on the source alone, `Limits` and `Preservation`
show where they come from, each with the exact condition, and `Misses` has programs beyond them
that print the wrong output; `Overfull` has programs whose compilation goes wrong. `Jumps` and
`Finished` prove that every jump goes to an instruction and none is left unpatched. `Interpreter`
composes compiler and machine. `Examples` has programs as token lists, some for all inputs, with
what they print written as arithmetic.

**Allocator.** `Allocator` is `mem.c` on lists of blocks, with its byte ledger; `Arenas.Arena` is
the same in a memory where headers are bytes that other writes can destroy. `Reuse` says which
freed blocks come back and what a round of allocating and freeing costs.

**Values.** `Values` has the operators of `object_math.c`, `Operators` their laws.

**Containers and text.** `Upvalues` (captured variables at compile time), `Buffers` (value stack,
code buffer), `Vectors`, `Tables`, `Text` (decimal conversion), `Scanning`.

## What turned out not to hold, and what holds exactly

- The table of functions cannot grow: `realloc_table` reads the key of an empty bucket through
  NULL (table.c:106), and below the load factor there always is one (`Tables.SomeEmpty`,
  `Tables.Table.WriteTable`). With the three natives that come first, the tenth function kills
  the compiler: `Overfull.ManyFunctions`.
- The array of the `cases` table grows when a byte is written, and entries are stored without a
  check. `if`s that end at one place, one in the `else` of the other, can run over its end:
  `Overfull.ManyIfsOverrun`, with 65 of them. A script compiles if and only if neither happens:
  `Compilation.Compile`.
- `elif`: OP_JMPL's operand is the number of `if`s that have ended so far, so it leads to the end
  of the next `if` to end. `Preservation.ChainLandsExactly` has the exact condition,
  `Preservation.ElifMisses` and `Preservation.ElifPrints` a program.
- Compound assignment stores to the identifier read last: `Preservation.CompoundExact`,
  `Preservation.CompoundSwaps`, and by names alone `Preservation.CompoundByNames`.
- OP_POPN's operand is read as a constant index: `Limits.PopnExact`, with a program in
  `Misses.TwoVariablesMiss`.
- Jump distances of 256 and more lose their high byte: `Limits.JumpExact`,
  `Bytecode.DecodingsAgree`, with a loop in `Misses.LongLoopMisses`.
- Each function of a script takes a slot of the script's compiler and nothing of its stack. A
  variable declared after it is safe if and only if the stack is as high as there are names in
  scope: `Limits.DeclarationExact`. Expression statements before it can make up for that
  (`Scripts.High`, `Scripts.LowAt`); a program where nothing does is in `Misses.AfterFunctionMisses`.
- A table write to a key that heads a longer chain drops the chain: `Tables.WritesExactlyOne`,
  `Tables.RewriteForgets`.
- A freed block comes back only if it lies behind every listed one; any other is lost:
  `Reuse.FreedReturns`, `Reuse.FreedIsLost`. Where it does come back, 16 bytes are lost each time, so
  that the same request does not fit for ever: `Reuse.RoundsCost`, `Reuse.ReusedExactly`.
- Of three free blocks in a row the merging pass joins two, and never the third: `Reuse.MergeThree`.
- After a missing semicolon the keyword that ends the recovery is itself skipped, so that in
  `pout(1) pout(2);` the second `pout` is no more: `Examples.CompileTorn`, `Examples.PrintTorn`.
- `1 = 2`, `1 ! 2` and `1 elif` call an empty entry of the rule table: `Precedence.Dangling`.
- A grown region keeps its header clear of the block cut from it only if the request leaves room
  for one: `Allocator.GrowthExact`, with a request in `Arenas.WholePageTwice`.
- The limit on captured variables is checked one too late: the 256th descriptor of a compiler is
  stored behind its array, without an error. `Upvalues.Chain.AddUpvalue`,
  `Upvalues.Chain.ResolveUpvalue` say exactly when.
- Insertion into a vector above its count does not insert the value, and deletion above it
  deletes the last element: `Vectors.Vector.Insert`, `Vectors.Vector.Delete`.
- The spelling of a negative number needs one byte more than is allocated: `Text.Lltoa`.

## Model

| member | source | states |
|---|---|---|
| Interpreter.Interpret | virtual_machine.c:160-181 | compiling and running a script of the fragment: whenever the machine stops, other than at a limit, its output and its way of ending are those of the source semantics, and it is in no undefined state unless the source strays; a script with a function or an `if` too many dies in the compiler instead |
| Examples.PrintFactorial | virtual_machine.c:160-181 | `func f(n, m) { if (n < 1) return m; return f(n - 1, n * m); } pout(f(k, 1));`, as tokens, prints k! for every k, whenever the turns, the stack and the frames suffice |
| Examples.PrintNumbers | virtual_machine.c:160-181 | `func f(n) { for (var i = 0; i < n; i++) pout(i); } f(k);` prints 0 to k - 1 for every k |
| Examples.PrintChoice | virtual_machine.c:160-181 | `if (a < b) pout(1); elif (a == b) pout(2); else pout(3);` prints 1, 2 or 3 as a lies to b |
| Examples.PrintSum | virtual_machine.c:160-181 | `pout(a + b * c);` prints a + bc |
| Examples.PrintTorn | compiler.c:511-535 | `pout(a) pout(b);` prints a and nothing else |
| Examples.CompileTorn | compiler.c:511-535 | the code of `pout(a) pout(b);` is: load a, print, load b, return |
| Examples.RecursiveMeans | virtual_machine.c:571-597 | in the semantics a call of that function with k and x gives x * k!, if there is fuel for it |
| Examples.LoopMeans | compiler.c:596-641 | in the semantics that loop, from j on, appends j to k - 1 to the output |
| Preservation.ScriptPreserved | virtual_machine.c:284-750 | for every fuel, the compiled script finishes with the source's output, or stops with its error, or still runs after at least that many steps; only full stacks or frames cut it short, and, unless the script keeps its stack high on every path, a statement after a function that the machine reaches with too low a stack, having printed what the source has |
| Preservation.ScriptReflected | virtual_machine.c:284-750 | conversely, a machine that has stopped shows a result that the source has; it is in an undefined state only if the source strays, or if the run came to a statement with too low a stack |
| Preservation.ScriptDiverges | virtual_machine.c:284-750 | a script that never ends keeps the machine running, exhausts a limit, or comes to a statement with too low a stack |
| Fragment.FragmentIsScript | compiler.c:835-911 | conditions on the source alone make a compiled script one the preservation theorems cover |
| Fragment.ModestSound | virtual_machine.c:300-301 | a statement with short jumps, at most one variable a scope and well-placed `elif`s meets the machine's limits wherever it is laid out |
| Scripts.RunFrom | compiler.c:204-252 | running from any item of a script on: the source's result, or the first statement that the machine reaches with too low a stack, with all that is left to run |
| Scripts.LinkNext | virtual_machine.c:343-355 | OP_CLOSURE makes the next declared function known, under the object index the compiler used |
| Scripts.RelaidS | compiler.c:395-409 | code of a statement stays right when more functions are declared later |
| Preservation.CallReturns | virtual_machine.c:571-597 | after a call of any callee that returns, by `return e;`, `return;` or the end of its body: frames, resume address, objects and every cell below the callee as before, exactly one value in place of callee and arguments, and which one after `return e;` |
| Preservation.CompoundExact | compiler.c:1162-1193 | `x op= r` has the language's effect if and only if the identifier read last is `x`, or both stores change nothing the other does not |
| Preservation.CompoundByNames | compiler.c:1162-1193 | it has that effect for all values if the identifier read last is the same variable; for `x op= y`, any operator, if and only if |
| Preservation.CompoundSwaps | compiler.c:1192 | `x += y` changes `y` |
| Preservation.ElifLandsExactly | compiler.c:772-786 | OP_JMPL after an arm leads to the chain's end if and only if the later arms' first-ending `if`, if any, ends there |
| Preservation.ChainLandsExactly | compiler.c:752-786 | the same for all arms of a chain |
| Preservation.ElifMisses | compiler.c:768 | in a chain whose `else` block begins with another `if`, the `elif` arm's OP_JMPL leads to the statement behind that `if` |
| Preservation.ElifPrints | virtual_machine.c:610-614 | so a machine that has run that arm prints what the `else` block prints |
| Preservation.FirstCase | compiler.c:768-769 | which entry of `cases` a statement adds first |
| Limits.JumpExact | virtual_machine.c:300-301 | OP_JMP lands as meant if and only if its distance is below 256 |
| Limits.PopnExact | virtual_machine.c:389-391 | OP_POPN at the end of a scope leaves the outer variables intact if and only if the constant it indexes is a number that pops no more than lies above them |
| Limits.DeclarationExact | compiler.c:45-59 | where the compiler counts more names than the stack has cells, the store of a declaration lands on a cell in use, and the variable outlives all later pushes, if and only if the stack was as high as there were names |
| Misses.AfterFunctionMisses | compiler.c:45-59 | `func f() {..} { var x = a; pout(x + b); pout(x); }` prints a + b twice |
| Misses.AfterFunctionMeans | compiler.c:481-509 | where its source prints a + b and a |
| Misses.TwoVariablesMiss | compiler.c:909-910 | `{ var x = a; { var y = 5; var z = 6; } pout(x + b); pout(x); }` prints a + b and b |
| Misses.AroundMeans | compiler.c:891-925 | where its source prints a + b and a |
| Misses.LongLoopMisses | virtual_machine.c:300-301 | a `while (false)` around 255 bytes runs into its body and prints |
| Misses.LongLoopMeans | compiler.c:643-662 | where its source prints nothing |
| Padding.PaddedS | compiler.c:45-59 | a statement that does not mention a name has the same result, output and variables with any number of further variables of that name behind the first |
| Scripts.RunAbove | compiler.c:45-59 | a statement of the script after k functions runs as its source says if the stack has cells for the functions' slots, whatever they hold |
| Loops.ForIsWhile | compiler.c:596-641 | `for (init; cond; inc) body` and `{ init; while (cond) { body inc; } }` have the same result for every fuel |
| Loops.SameLoop | compiler.c:607-636 | the loops alone |
| Loops.KeptS | compiler.c:891-911 | a statement keeps the number of variables |
| Loops.PerformDiscards | compiler.c:866-870 | where an expression has a value, discarding it changes nothing else |
| Loops.KeptD | compiler.c:913-925 | a declaration list adds exactly its declared variables |
| Finished.FunctionJumps | compiler.c:835-864 | a finished function decodes instruction by instruction, every jump is patched and goes to the start of an instruction of that function |
| Finished.ScriptJumps | compiler.c:835-864 | the same for a script, and every `cases` entry is such a start |
| Jumps.SealedS | compiler.c:537-560 | a statement's jumps stay inside its own code |
| Jumps.SealedWhile | compiler.c:643-662 | both jumps of a `while` |
| Jumps.SealedFor | compiler.c:596-641 | all four jumps of a `for` |
| Jumps.SealedIf | compiler.c:752-770 | the jumps of an `if`, nested chains included |
| Jumps.SealedElif | compiler.c:772-786 | an arm's OP_JMPL goes to an instruction of its chain, also where it is the wrong one |
| Bytecode.DecodingsAgree | virtual_machine.c:300-301 | the machine's operand equals the 16-bit operand if and only if it is below 256 |
| Bytecode.ByteOp | includes/opcode.h:73-91 | an arithmetic opcode stands for one operator |
| Bytecode.OpByteBack | includes/opcode.h:73-91 | and an operator for that opcode |
| Values.OperandOrder | object_math.c:130 | with the first pop as the right operand, operators are applied to left and right in source order |
| Operators.ModIs | object_math.c:187 | `%` of two numbers gives r if and only if r completes a multiple of the integer part of the divisor, is smaller than it, and has the sign of the dividend |
| Operators.RemainderExact | object_math.c:187 | the remainder of C: the one number with these properties |
| Operators.TowardsZero | object_math.c:187 | the cast to an integer goes towards zero, by less than one |
| Operators.NegationUndone | object_math.c:6-22 | `-` and `!` undo themselves, a number and its negation add up to zero, no truth value is its own negation |
| Operators.BumpsByOne | object_math.c:91-117 | `++` adds one, `--` takes one away, each undoes the other |
| Operators.Trichotomy | object_math.c:195-320 | of `<`, `==` and `>` exactly one holds, and `<=`, `>=`, `!=` are what they leave |
| Operators.Ordered | object_math.c:195-256 | `==` is equality, and x < y if and only if adding some positive number to x gives y |
| Operators.Ring | object_math.c:23-155 | `+` and `*` make a commutative ring |
| Operators.Undone | object_math.c:23-174 | `-` undoes `+`, `/` undoes `*` |
| Operators.Kinds | object_math.c:6-320 | which operands are an error, which have no exact result, and what kind of value the others give |
| Machine.StepNAdd | virtual_machine.c:325-338 | runs compose |
| Correctness.SimE | virtual_machine.c:340-435 | an expression's code pushes exactly its value, updates the variables as the source does and leaves the rest of the stack |
| Correctness.SimBin | virtual_machine.c:395-435 | operands from left to right, not swapped |
| Correctness.SimAssign | virtual_machine.c:636-638 | assignment stores and keeps the value |
| Correctness.SimNeg | virtual_machine.c:377-380 | unary operators replace the top |
| Correctness.SimBump | virtual_machine.c:381-388 | `++` and `--` |
| Correctness.SimCompoundInto | compiler.c:1162-1193 | what a compound assignment's code really does, for any right-hand side |
| Correctness.SimArgs | compiler.c:374-393 | arguments end up in order above the callee |
| Correctness.SimCall | virtual_machine.c:571-597 | a call expression whose value is needed, failing calls included |
| Correctness.SimPerform | compiler.c:866-870 | an expression whose value is discarded, calls of procedures included |
| Correctness.SimBack | compiler.c:818-819 | `return;` ends the frame with some value |
| Correctness.SimBody | virtual_machine.c:88-117 | a callee from OP_CALL to its OP_RETURN, the one after its body included: frames, objects and the cells below as at the call, one value on top |
| Correctness.SimS | virtual_machine.c:602-644 | every statement: variables and output as in the source, the stack below the frame base untouched, the height at least the number of variables and up by what the statement leaves on every path |
| Correctness.SimPrint | compiler.c:872-889 | printed values appear in order |
| Correctness.SimReturn | virtual_machine.c:736-748 | `return` ends the frame with its value |
| Correctness.SimBlock | compiler.c:891-925 | a block forgets its variables |
| Correctness.SimIf | virtual_machine.c:602-609 | an `if` with its arms, whose stacks may join at different heights |
| Correctness.SimArms | virtual_machine.c:610-614 | exactly the first arm whose condition holds is run, and control leaves at the chain's end |
| Correctness.SimLoop | virtual_machine.c:629-632 | loops, by fuel |
| Correctness.SimWhile | compiler.c:643-662 | `while` |
| Correctness.SimFor | compiler.c:596-641 | `for` with its two back jumps |
| Correctness.SimD | compiler.c:481-509 | declarations put values into their slots |
| Calls.ParametersInPlace | virtual_machine.c:639-644 | after n parameter instructions slot k holds argument k, the height unchanged, although writes overlap cells still to be read |
| Calls.ParamsLoad | virtual_machine.c:639-644 | the same after k of them |
| Calls.StepCallEnters | virtual_machine.c:88-117 | OP_CALL on a matching closure pushes its frame |
| Calls.StepCallFails | virtual_machine.c:92-98 | a wrong arity or a callee that is no closure fails |
| ExprSimulation.StepSetLocal | virtual_machine.c:636-638 | OP_SET_LOCAL writes the variable and keeps the top |
| ExprSimulation.StepBinaryOp | virtual_machine.c:395-435 | a binary opcode replaces two operands by their result |
| Simulation.StepJmpF | virtual_machine.c:602-605 | OP_JMPF pops the condition and jumps if it is false |
| Simulation.StepJmpL | virtual_machine.c:610-614 | OP_JMPL goes to the recorded address |
| Simulation.StepPops | virtual_machine.c:389-394 | the pops at the end of a scope |
| Simulation.StepReturnValue | virtual_machine.c:736-748 | OP_RETURN leaves the value where the frame began |
| Simulation.StepReturnAny | compiler.c:1910-1914 | an OP_RETURN that nothing was pushed for still leaves exactly one value where the frame began |
| Simulation.StepDeclare | compiler.c:497-501 | the first store to a variable lands in the next slot |
| VirtualMachine.Vm.constructor | virtual_machine.c:160-181 | the machine as `interpret_path` starts it |
| VirtualMachine.Vm.Turn | virtual_machine.c:325-750 | one turn of the loop over arrays is one step of the machine on values |
| VirtualMachine.Vm.Run | virtual_machine.c:325-750 | n turns are n steps |
| VirtualMachine.Vm.Binary | virtual_machine.c:395-435 | pops right, then left, pushes the result |
| VirtualMachine.Vm.Unary | virtual_machine.c:377-388 | replaces the top |
| VirtualMachine.Vm.Call | virtual_machine.c:88-117 | pushes a frame, or says why not |
| VirtualMachine.Vm.Return | virtual_machine.c:736-748 | cuts the stack to the return index and pushes the result |
| VirtualMachine.Vm.Param | virtual_machine.c:639-644 | OP_SET_LOCAL_PARAM |
| VirtualMachine.Vm.Popn | virtual_machine.c:389-391 | OP_POPN, its count taken from the constants |
| VirtualMachine.Vm.Three | virtual_machine.c:602-632 | jumps and OP_CLOSURE |
| Spine.Rebuild | compiler.c:1051-1070 | a tree is its prefix part with its infix parts applied from left to right |
| Spine.PrintSplit | compiler.c:1051-1070 | the printed tree is the printed prefix part followed by the printed infix parts |
| Spine.SpineShaped | compiler.c:1062-1069 | every infix part binds at least as tightly as the level asks, so the loop takes all of them and no more |
| Prefixes.AllDone | compiler.c:1062-1069 | the loop stops exactly at the end of the tree |
| Precedence.TwoOperators | includes/compiler_util.h:267-294 | `t o u q v;`, for all operands and operators: `q` is applied first if it is of a tighter line of: `* / %`, `+ -`, `< <= > >=`, `== !=`; else `o` is |
| Precedence.LeftGroup | compiler.c:943-947 | `(t o u) q v;`: the parentheses decide |
| Precedence.RightGroup | compiler.c:943-947 | `t o (u q v);` |
| Precedence.SignedLeft | compiler.c:1136-1160 | `-t o u;`, `!t o u;`: the sign goes with its operand before any operator |
| Precedence.SignedRight | compiler.c:1136-1160 | `u o -t;`, `u o !t;` |
| Precedence.SignedCall | compiler.c:363-367 | `-f(t, u);`: callee, arguments from left to right, call, sign |
| Precedence.OperandCall | compiler.c:363-367 | `v o f(t, u);`: the call before the operator |
| Precedence.Assigned | compiler.c:1799-1805 | `x = y = t o u;`: the operator, then the stores from the right |
| Precedence.Compounded | compiler.c:1162-1193 | `x op= t;` stores to `t` if that is an identifier, else to `x` |
| Precedence.Bumped | compiler.c:1136-1215 | `++x`, `--x`, `x++`, `x--`: load, change, store, nothing else |
| Precedence.LaidReads | compiler.c:1051-1070 | the code laid out for a tree is the postfix form of the tree, instruction by instruction |
| Precedence.TightFirst | includes/compiler_util.h:267-294 | the tokens `t o u q v` with `q` tighter are those of the tree that applies `q` first |
| Precedence.LeftFirst | includes/compiler_util.h:267-294 | and otherwise of the tree that applies `o` first |
| Precedence.NoExpression | compiler.c:1056-1060 | a token that no expression begins with is consumed, flagged, and nothing is emitted |
| Precedence.Dangling | compiler.c:1064-1069 | a number and an operator without infix function: the compiler dies |
| Compilation.Compiler.ParsePrecedence | compiler.c:1051-1070 | on the printed tokens of a tree: emits exactly the tree's code, left-associated, and consumes exactly its tokens; where no expression begins, an error and nothing emitted |
| Compilation.Compiler.Expression | compiler.c:939-942 | the same from the lowest precedence |
| Compilation.Compiler.Infixes | compiler.c:1064-1069 | the loop over infix parts, from a compiled prefix part to the end of the tree; an operator without infix function kills it |
| Compilation.Compiler.Prefix | compiler.c:1057-1061 | dispatch by the prefix column |
| Compilation.Compiler.Infix | compiler.c:1062-1069 | dispatch by the infix column |
| Compilation.Compiler.Consume | compiler.c:64-72 | the expected token is consumed, any other is an error and stays |
| Compilation.Compiler.Grouping | compiler.c:943-947 | parentheses add no code, needed or not |
| Compilation.Compiler.Num | compiler.c:1264-1267 | a number becomes a constant |
| Compilation.Compiler.Boolean | compiler.c:1346-1352 | `true`, `false`, `null` |
| Compilation.Compiler.Id | compiler.c:1745-1761 | an identifier: function, variable or assignment |
| Compilation.Compiler.IdVariable | compiler.c:1779-1806 | reads or writes the newest variable of that name, and remembers it, when the name is a local variable |
| Compilation.Compiler.StoreOrLoad | compiler.c:1799-1805 | the assignment after its right-hand side, or the read |
| Compilation.Compiler.Unary | compiler.c:1136-1160 | operand first, then the opcode |
| Compilation.Compiler.Binary | compiler.c:1089-1135 | the right operand one level tighter, then the opcode |
| Compilation.Compiler.InfixUnary | compiler.c:1195-1215 | `++` and `--` store to the variable read last |
| Compilation.Compiler.CompoundAssign | compiler.c:1162-1193 | the code of a compound assignment, its target the identifier read last |
| Compilation.Compiler.CallArguments | compiler.c:363-367 | a call with its argument count |
| Compilation.Compiler.ArgumentList | compiler.c:374-393 | all arguments, and how many |
| Compilation.Compiler.Argument | compiler.c:380-390 | one argument, and whether a comma follows; the 256th is an error |
| Compilation.Compiler.ResolveLocal | compiler.c:1821-1827 | the newest variable of a name, or -1 |
| Compilation.Compiler.EmitJump | compiler.c:858-864 | a jump with the placeholder 0xFFFF, and where its operand is |
| Compilation.Compiler.PatchJump | compiler.c:835-845 | the operand becomes the distance to the end of the code; no other byte changes |
| Compilation.Compiler.EmitLoop | compiler.c:847-856 | a backward jump to `start` |
| Compilation.Compiler.EndScope | compiler.c:895-911 | the variables of the scope are forgotten; one pop instruction for them |
| Compilation.Compiler.DeclareVar | compiler.c:1874-1909 | adds the variable; an error exactly if the scope has one of that name or there is no room |
| StmtEmission.ClashesExactly | compiler.c:1879-1891 | a name clashes if and only if a variable of the open scope has it, or a slot of depth 0 with nothing but the open scope above |
| Compilation.Compiler.NewVariable | compiler.c:1808-1814 | the name and its declaration; at the outermost level the constant of a global instead |
| Compilation.Compiler.VarDec | compiler.c:481-509 | a local declaration with its initialiser, compiled with the variable already in scope |
| Compilation.Compiler.Guard | compiler.c:664-679 | condition and pending jump |
| Compilation.Compiler.Statement | compiler.c:537-560 | on the printed tokens of a statement: emits exactly its code, patches included, and consumes exactly its tokens; without its semicolon the code is the same and the error is flagged |
| Compilation.Compiler.DefaultExpression | compiler.c:866-870 | an expression statement leaves its value |
| Compilation.Compiler.PrintStatement | compiler.c:872-889 | `pout` with any number of operands |
| Compilation.Compiler.ReturnStatement | compiler.c:810-833 | `return e;` and `return;` on their printed tokens; outside functions an error and nothing else |
| Compilation.Compiler.WhileStatement | compiler.c:643-662 | condition, exit, body, back jump |
| Compilation.Compiler.IfStatement | compiler.c:752-770 | first arm, chain, `cases` entry, exits |
| Compilation.Compiler.ArmStatements | compiler.c:762-766 | the arms after the first |
| Compilation.Compiler.ElifStatement | compiler.c:772-786 | the loop over `elif` arms |
| Compilation.Compiler.ElifArm | compiler.c:774-784 | one arm, leaving through `cases` |
| Compilation.Compiler.BlockStatement | compiler.c:920-925 | a scope around declarations |
| Compilation.Compiler.ParseBlock | compiler.c:913-919 | declarations up to the brace |
| Compilation.Compiler.Declaration | compiler.c:204-252 | a variable or a statement; an expression statement or a `pout` without semicolon is compiled all the same, and the parser resumes behind the first boundary in the tokens that stand there |
| Compilation.Compiler.Recover | compiler.c:204-252 | the end of a declaration: nothing without an error; after a missing semicolon the statement is kept and parsing resumes where `Resume` says |
| Compilation.Compiler.Synchronize | compiler.c:511-535 | clears the error flag and skips exactly the tokens up to the first statement boundary or the end |
| Recovery.Resumes | compiler.c:511-535 | skipping up to a boundary, counted from the token before the missing semicolon, leads to where `Resume` says: behind the first of `;`, `func`, `for`, `if`, `while`, `pout`, `return` |
| Recovery.Recovered | compiler.c:204-252 | a statement without semicolon is compiled and the parser stands where it resumes |
| Recovery.PrintLeads | compiler.c:511-535 | no token of an expression is a boundary |
| Recovery.LastInside | compiler.c:511-535 | so after an expression the token just consumed is none |
| Recovery.ResumeAt | compiler.c:511-535 | which place among the tokens that is |
| Compilation.Compiler.ForStatement | compiler.c:596-641 | a `for` with all its jumps |
| Compilation.Compiler.ForHeader | compiler.c:596-633 | a `for` up to its body, with the addresses its later jumps need |
| Compilation.Compiler.ForInit | compiler.c:600-606 | initialiser |
| Compilation.Compiler.ForCond | compiler.c:609-617 | condition and exit jump |
| Compilation.Compiler.ForInc | compiler.c:618-633 | increment between its two jumps, and where the body jumps back to |
| Compilation.Compiler.Increment | compiler.c:621-632 | the increment itself, its value dropped, its back jump to the condition, the jump over it patched |
| Compilation.Compiler.FuncVar | compiler.c:462-479 | a parameter and its instruction |
| Compilation.Compiler.Parameters | compiler.c:419-432 | all parameters, and the arity |
| Compilation.Compiler.Parameter | compiler.c:419-432 | one parameter, and whether a comma follows; the 256th is an error |
| Compilation.Compiler.FunctionName | compiler.c:395-409 | the name of a function; anything else is an error |
| Compilation.Compiler.FunctionCode | compiler.c:411-441 | parameters, body and return of a function, in a chunk of its own |
| Compilation.FuncDeclaration | compiler.c:395-460 | a declared function: its chunk, its object index, the instruction that stores its closure, the slot it takes; exit exactly for a name that is a native or declared before, and a crash exactly when the table is full or the body has an `if` too many |
| Compilation.Compile | compiler.c:1964-2014 | a whole script on its printed tokens, semicolons missing or not, lays out every item and every function and nothing else, its constants in order, if and only if natives and functions fit into the table and no `if` ends behind the array; otherwise it crashes |
| Overfull.ManyFunctions | compiler.c:395-409 | n functions with empty bodies fit everywhere else; with three natives the compiler gets through them if and only if n is at most 9 |
| Overfull.ManyIfsOverrun | compiler.c:752-770 | n plain `if`s and a twofold one fit everywhere else; the array of their ends is overrun if and only if it has exactly n + 1 places by then, as for n = 63 |
| Lookups.NativeTable | compiler.c:1976-1998 | the natives are found under their numbers and nothing else is; there is room exactly for twelve |
| Lookups.Declare | compiler.c:395-409 | a new name is found from then on, all others as before; known names and a full table are told exactly |
| Cases.LaidCasesS | compiler.c:768 | laid-out code has these entries: the ends of its `if`s, in the order in which they end |
| Cases.CaseAdded | compiler.c:768 | an entry is behind the array exactly if those since the last byte have filled what there was |
| Cases.ByteAdded | chunk.c:52-58 | after a byte the array is the least doubling of 64 that is longer than the number of entries |
| Cases.ScriptCases | compiler.c:752-786 | the table of a compiled script holds the entries that its source determines |
| StmtEmission.EmitFor | compiler.c:596-641 | the pieces of a `for`, with both patches, form its layout |
| StmtEmission.EmitIf | compiler.c:752-770 | the pieces of an `if` form its layout |
| StmtEmission.EmitWhile | compiler.c:643-662 | the pieces of a `while` form its layout |
| StmtEmission.EmitElif | compiler.c:772-786 | the pieces of an arm form its layout |
| StmtEmission.EmitBlock | compiler.c:891-925 | a block's code, and the locals as before it |
| StmtEmission.EmitVar | compiler.c:481-509 | a declaration's code |
| StmtEmission.FrameS | compiler.c:835-845 | code already emitted keeps its meaning when more is appended or other operands are patched |
| StmtEmission.TrailingVariables | compiler.c:899-905 | exactly the scope's variables are counted at its end |
| Emission.EmitCompound | compiler.c:1162-1193 | a compound assignment's code |
| Functions.BodyDone | compiler.c:434-442 | a finished function is laid out, whatever is appended after its return |
| Functions.FunDone | compiler.c:443-460 | a declaration extends the script and the functions |
| Syntax.Newest | compiler.c:1821-1827 | the newest entry of a name |
| Allocator.RunFromStart | mem.c:55-180 | after any run of malloc, free and realloc: live and listed blocks pairwise disjoint and mapped, and mapped bytes = listed + live + the losses of the calls |
| Allocator.RunInv | mem.c:55-180 | the same from any state, and what is lost |
| Allocator.DoInv | mem.c:55-180 | each call keeps it and loses exactly its own loss |
| Allocator.MallocInv | mem.c:114-150 | malloc loses 16 bytes exactly when it unlinks a node other than the head |
| Allocator.FreeInv | mem.c:55-89 | free loses 16 bytes a merge, and the whole block exactly when it has no payload or is not linked back |
| Allocator.CarvedInv | mem.c:126-137 | cutting the tail off a listed block |
| Allocator.GrownInv | mem.c:139-148 | a new region with its first block |
| Allocator.StartedInv | mem.c:107-112 | the first page |
| Allocator.MergeKeepsApart | mem.c:38-53 | merging keeps blocks disjoint |
| Allocator.MergeExtents | mem.c:45-51 | merging loses 16 bytes each time |
| Allocator.MergeMapped | mem.c:38-53 | merged blocks stay mapped |
| Allocator.FirstFit | mem.c:123-124 | the first block that fits |
| Allocator.FirstFitCarved | mem.c:123-137 | no region is mapped while a listed block fits, and the first that fits is cut from its tail |
| Allocator.MapsWhenFull | mem.c:126-148 | a region is mapped if and only if no listed block fits |
| Allocator.GrowthIsLeast | mem.c:141-143 | the growth loop ends at the least 16384 * 2^k that holds the request |
| Allocator.GrowthExact | mem.c:100-105 | the new block keeps clear of its region's header if and only if the request leaves room for it |
| Reuse.FreedReturns | mem.c:66-89 | a freed block that lies behind every listed one is listed again, or all of it but 16 bytes is part of the last listed block |
| Reuse.FreedIsLost | mem.c:66-89 | a block in front of a listed one, or without payload, is not: no listed block has a byte of it |
| Reuse.RoundsCost | mem.c:55-150 | allocating and freeing n bytes again and again from a single block costs it 16 bytes each time, and maps no region as long as the request fits |
| Reuse.ReusedExactly | mem.c:114-150 | after one such round the same request maps a region if and only if the 16 lost bytes make the difference |
| Reuse.AllocateAgain | mem.c:55-150 | the same in memory: the block freed is handed out again, 16 bytes further down |
| Reuse.PageReused | mem.c:55-150 | 116 bytes from an empty heap, freed, then 16300: one region of 16384 bytes serves both, 16 bytes are lost |
| Reuse.FirstRequest | mem.c:107-137 | the first request is met from the tail of a page of 16384 bytes |
| Reuse.Grows | mem.c:139-148 | a request that no listed block meets: the least 16384 * 2^k bytes that hold it, their tail handed out, the rest listed last |
| Reuse.Cuts | mem.c:126-137 | a request that one meets: the tail of the first such block; the front stays listed, or the emptied node leaves the list |
| Reuse.MergeTwo | mem.c:45-51 | two blocks become one if and only if they touch |
| Reuse.MergeThree | mem.c:38-53 | of three in a row two are joined, and no later pass joins the third |
| Reuse.MergeLast | mem.c:38-53 | what becomes of the last block of a list |
| Arenas.WholePageTwice | mem.c:100-105 | a request of a whole page: the block handed out is the listed node of its own region |
| Arenas.Arena.Malloc | mem.c:114-150 | in memory: the list, the headers and the result are those of the list model, and no live block's contents change |
| Arenas.Arena.Search | mem.c:120-124 | the walk to the first node that fits, with its predecessor |
| Arenas.Arena.Carve | mem.c:126-137 | shrink, unlink, hand out |
| Arenas.Arena.Extend | mem.c:139-148 | a region behind the last node |
| Arenas.Arena.AllocFreeList | mem.c:107-112 | the first page |
| Arenas.Arena.Release | mem.c:55-89 | free in memory, the contents of other blocks untouched |
| Arenas.Arena.Link | mem.c:66-84 | the block is linked if and only if every node lies before it, and then behind the last |
| Arenas.Arena.MergeList | mem.c:38-53 | one pass over the threaded list |
| Arenas.Arena.MergeAt | mem.c:44-52 | one node of the pass |
| Arenas.Arena.Realloc | mem.c:157-180 | the first old_size bytes move along, other blocks keep theirs, and the old block is freed; from NULL it is malloc, to size 0 it is free |
| Arenas.Arena.CopyCells | mem.c:176 | memcpy into a live block |
| Arenas.Joint | mem.c:45-51 | two touching nodes become one, the thread intact |
| Arenas.Unlink | mem.c:130-131 | a node is skipped, the thread intact |
| Arenas.Append | mem.c:73-77 | a new last node, the thread intact |
| Upvalues.ResolvedLeads | compiler.c:1828-1847 | a name resolves if and only if a strictly enclosing compiler has a local of that name; following the descriptors ends at the newest such local of the innermost such compiler |
| Upvalues.ResolvedKeeps | compiler.c:1849-1872 | no descriptor is renumbered or duplicated, no local touched |
| Upvalues.EarlierStay | compiler.c:1849-1872 | descriptors handed out earlier keep leading where they led |
| Upvalues.Chain.ResolveUpvalue | compiler.c:1828-1847 | the chain of compilers in place, level by level; a descriptor goes behind an array if and only if one that is needed is new and finds it full |
| Upvalues.Chain.AddUpvalue | compiler.c:1849-1872 | an equal descriptor is found again, else one is appended, behind the array if it is full; the error comes only after that |
| Upvalues.Chain.ResolveLocal | compiler.c:1821-1827 | the newest local of a compiler |
| Buffers.Stack.Push | stack.c:37-46 | appends, through the growth; the cells stay the same array if and only if there was room |
| Buffers.Stack.Pop | stack.c:21-27 | removes the top; an empty stack stays |
| Buffers.Stack.Popn | stack.c:29-35 | removes n, not below zero; a negative n brings popped cells back |
| Buffers.Stack.Grow | object_memory.c:98-124 | doubling keeps the contents |
| Buffers.CodeBuffer.WriteChunk | chunk.c:39-62 | code and lines grow together and keep what was written |
| Buffers.CodeBuffer.Patch | compiler.c:843-844 | changes its two bytes only |
| Buffers.CodeBuffer.AddConstant | chunk.c:64-68 | appends a constant and returns its index |
| Buffers.PatchSurvives | chunk.c:43-52 | a patched operand survives any number of later writes |
| Vectors.RunVector | vector.c:6-18 | any run of operations, through every doubling, gives the answers and leaves the contents of the same run on a plain sequence |
| Vectors.RunKeepsType | vector.c:12-16 | one type for all elements, fixed by the first |
| Vectors.InsertDelete | vector.c:196-209 | insert and delete at one index undo each other |
| Vectors.Vector.Push | vector.c:6-18 | appends; another type is refused |
| Vectors.Vector.Pop | vector.c:477-481 | removes the last; Null when empty |
| Vectors.Vector.Insert | vector.c:75-99 | shifts the tail up and inserts; above the count the vector gains its next cell instead, and the value goes elsewhere, behind the array at worst |
| Vectors.Vector.Delete | vector.c:196-209 | shifts the tail down; the last element goes if the index is above the count; refused above the length |
| Vectors.Vector.Get | vector.c:411-421 | the element with its type, above the count a cell not in use; Null above the length |
| Vectors.Vector.Set | vector.c:305-323 | replaces, above the count nothing that is seen; another type, or an index above the length, is refused |
| Vectors.Vector.Grow | vector.c:516-537 | doubling keeps the contents |
| Tables.WritesExactlyOne | table.c:12-42 | a write changes the answer for its key alone if and only if the key does not head a longer chain |
| Tables.RewriteForgets | table.c:12-42 | two keys of one bucket, the first written again: the second is gone |
| Tables.InsertFind | table.c:12-42 | what every key answers after a write, the dropped chain included |
| Tables.InsertGood | table.c:12-42 | buckets keep to their index and to distinct keys |
| Tables.Table.FindEntry | table.c:44-58 | looks through the bucket |
| Tables.Table.InsertEntry | table.c:12-42 | replaces the head, updates in the chain, or adds behind the head |
| Tables.Table.WriteTable | table.c:119-133 | writes and counts new keys, exactly up to three quarters of the length; beyond that it grows, which ends at the NULL key of an empty bucket |
| Tables.Table.Grow | table.c:101-110 | growing reads every key and ends at the first NULL one; only a table without an empty bucket has none |
| Tables.SomeEmpty | table.c:106 | fewer records than buckets leave an empty bucket |
| Tables.InsertTotal | table.c:12-42 | a write adds no more than the record of a key that was not found |
| Tables.MaskExact | table.c:14 | the mask of the program is the remainder, for every signed hash, if and only if the length is a power of two |
| Tables.Table.CopyTable | table.c:70-87 | a copy answers every lookup as the original |
| Tables.Table.constructor | table.c:135-150 | an empty table answers nothing |
| Text.ReadBack | object_string.c:66-71 | reading the spelling of a number gives the number |
| Text.DigitAt | object_string.c:41-45 | the digit k places from the end is the one for the number of 10^k |
| Text.TenDigits | object_string.c:43 | the ten digits and their values |
| Text.NoLeadingZero | object_string.c:32-55 | no needless zero in front, and a sign exactly for negative numbers |
| Text.DigitCount | object_string.c:22-30 | k digits if and only if 10^(k-1) <= m < 10^k |
| Text.LongLen | object_string.c:22-30 | the number of digits, between powers of ten |
| Text.Lltoa | object_string.c:32-55 | the text is the spelling; it fits the allocation if and only if the number is not negative, and then exactly |
| Text.StringRev | object_string.c:13-20 | reverses in place up to the terminator |
| Text.ThroughText | object_string.c:66-71 | to text and back is the identity |
| Scanning.ScansBack | scanner.c:18-113 | words with any white space between them (blanks, tabs, carriage returns, newlines, backslashes) come back with kind and exact place, then the end |
| Scanning.ScansBackBehind | scanner.c:465-483 | also with white space in front |
| Scanning.SkipsNoMore | scanner.c:387-391 | no other character is skipped |
| Scanning.Symbols | scanner.c:35-112 | the symbols are exactly the 41 listed spellings |
| Scanning.LongestSymbol | scanner.c:35-112 | of the symbols that begin at a place the longest is taken |
| Scanning.NoSymbol | scanner.c:35-112 | and none only where none begins or a comment does |
| Scanning.Numerals | scanner.c:156-169 | a numeral is digits, or digits, a point and digits |
| Scanning.ScanWord | scanner.c:156-169 | a word in its place is scanned whole |
| Scanning.Scanner.ScanToken | scanner.c:18-113 | one token, where scanning goes on, and the line: up by the newlines passed |
| Scanning.Scanner.Word | scanner.c:22-112 | the token itself, behind the white space |
| Scanning.Scanner.Number | scanner.c:156-169 | digits, and a fraction if a digit follows the point |
| Scanning.Scanner.SkipWhitespace | scanner.c:465-483 | to the next character that is not space, the line up by the newlines passed |
| Scanning.Scanner.Tail | scanner.c:35-112 | the longest symbol |

## Left out

- Global variables, strings, characters, arrays, tables, classes, casts, `switch`, includes and
  natives as language features: other parts of the compiler and other opcodes.
- Functions inside functions or blocks: each takes a slot of the enclosing compiler
  (compiler.c:55); functions are declared by the script only. Captured variables at run time:
  `uargc` is never set above 0 (chunk.c:31).
- `&&`, `||`, `and`, `or`, the ternary and `??`: the tested operand is popped, or the rule is never
  reached. `var x;` without initialiser and `for` headers that start with an assignment.
- Conditions that are not booleans, and the value of a call that ends without `return e;` where it
  is needed: they depend on what a union or the stack happens to hold; the semantics calls them
  undefined (`Stray`), and nothing is claimed.
- Fragment.FragmentIsScript: after a function, a statement that uses variables must not use the
  unknown hash of an unset slot as a name.
- Interpreter.Interpret: asks for a high stack on every path (`High`); `ScriptReflected` does not.
- Doubles: numbers are reals without rounding, infinities or NaN; a division by zero, which has
  such a result, is undefined here.
- The stack in the machine does not move: `realloc_stack` leaves `frame->slots` pointing into the
  old array, so the machine is faithful up to the length `limit`, 64 cells as written
  (includes/object_memory.h:7). Above 256 the 8-bit return index would wrap.
- What a compiler does after a `cases` entry has gone behind its array, or a captured variable
  behind its own: the model goes on, marks the run (`spilled`, `past`), and promises nothing more.
- Each compiler of a script reads the table of functions as a value, `fns`; `Compile` keeps the
  real table and proves that both answer alike (`Lookups.Knows`).
- The names of unset local slots are one unknown hash, `blank`. An identifier is its hash;
  distinct spellings with equal hashes are the same variable, as in the program. A token that is
  no identifier gets the hash 0 where the program hashes its text, which only matters after an
  error.
- Compilation.Compiler.Synchronize: recovery is followed to the end for a missing semicolon after an
  expression statement or a `pout` of the script; after other errors only the flag, the boundary and
  what is skipped are promised.
- Error messages, line numbers in the compiler, debug output, the REPL, memory freed by
  OP_RM and at exit.
- Arenas.Arena.Realloc: copies of more bytes than the new block holds are not described, and the
  system's refusal to map is not modelled.
- Allocator.Malloc: sizes are unbounded numbers; the wrap-around of a request near 2^64 is not
  modelled. Requests that do not leave room for a region's header are excluded (`Fits`), see
  `GrowthExact`.
- The vectors of vectors work like vectors and are not repeated. Cells of a vector that were never
  written hold zero in the model; no contract says so.
- Compilation.Compiler.IdVariable: a name that is no local variable is taken for a global without
  promise; captured variables are in `Upvalues`.
- Compilation.Compiler.InfixUnary: `++` and `--` behind anything but a variable, as in `2 * x++`, where
  the program changes the product and stores it to `x`, are not among the trees.
- Compilation.Compiler.VarDec: no promise for a global or for a declaration without initialiser.
- Tables.Table.WriteTable: a table without an empty bucket, which only a copy can be when it has to
  grow, ends as `Unset`: its added buckets are never set. Chains are values, so the sharing of
  chain records between a table and its copy is not described.
- Text.Lltoa: numbers above the smallest 64-bit number, whose negation does not exist.
- Scanning.Scanner.ScanToken: identifiers, keywords, strings, characters and comments are one
  unscanned kind.
