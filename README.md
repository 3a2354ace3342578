# A verified model of the dsl toolchain

The repository is a small toolchain for a language of fixed-width integer
variables and functions. It has three parts:

- **compiler** (`compiler.py`). It walks a parsed program and assigns each
  variable a slot in a memory pool. It turns each function body into stack
  bytecode.
- **bytecode container** (`bytecode.py`). It holds the pool size and the
  instruction list. It is saved to and loaded from a binary file: the marker
  `DSL`, a version byte, the pool size and the instruction count as 16-bit
  fields, then per instruction one opcode byte and its signed 16-bit operands.
- **virtual machine** (`interpreter.py`). It allocates the zero-filled pool
  and executes `CONST`, `LOAD`, `STORE` and `ADD` on an evaluation stack.

This project models each part in Dafny. It proves what each part promises and
that they fit together.

| module | file | models |
|---|---|---|
| `Wrappers` | `wrappers.dfy` | `Result` and `Outcome`, which stand in for Python exceptions |
| `BytecodeFile` | `bytecode.dfy` | the opcode catalog, the reader and writer packers, `Bytecode.load` and `Bytecode.save` |
| `Compiler` | `compiler.dfy` | the AST, `var_sizes` and the `CodeGenerator` class |
| `Interpreter` | `interpreter.dfy` | the memory slots, one instruction step, the run loop and the `Vm` class |
| `Semantics` | `semantics.dfy` | a reference evaluator of source programs, and the proof that compiled code run by the machine agrees with it |
| `Scenario` | `scenario.dfy` | the repository's test and a few concrete programs |

## How the model is built

**Decoding and encoding.** These are pure functions over a byte sequence plus
a cursor (`Decode`, `Encode`). The imperative `Load` and `Save` methods walk
the stream with loops, and their postconditions tie them to those functions.
The stream is an in-memory sequence, and a short read reports the offset where
the stream ended, as `tell()` does after a short `read`.

**The code generator.** `CodeGenerator` is a class with the three fields the
source updates: `memPoolOffset`, `varOffsets` and `opcodes`. Each `Compile*`
method is proved against a pure function of the old state: `ExpressionCode`,
`StatementCode`, `BodyCode`, `DeclarationStep` and `Declarations`. `Generate`
is the function behind `compile`.

**The virtual machine.** `Vm` holds `code`, a byte `array` for memory and a
stack. `Run` is proved equal to `Exec`, which folds `Step` over the code.

**Semantics.** `Semantics` gives each program a meaning on named variables,
independent of bytecode. `ProgramCorrect` shows that running the generated
code on the zero-filled pool ends with every variable's slot holding its
reference value. It also shows that the run fails exactly when the reference
fails, with the same error.

### Where the intended design and the code differ (the model follows the code)

- **No wrap-around on ADD.** `ADD` adds Python integers with no 16-bit
  wrap-around. A sum outside the signed 16-bit range fails only when it is
  stored. `Scenario.AddDoesNotWrap` shows this for 32000 + 10000.
- **Version byte.** The version byte is read but never checked
  (`DecodeIgnoresVersion`).
- **Offsets are not checked on load.** Loading does not check that
  instruction offsets lie inside the pool. The machine's `Run` requires it
  instead.
- **Unknown opcode is a KeyError.** An unknown opcode in a file fails through
  the `NUM_OPERANDS` lookup (a `KeyError`, modelled as `UnknownOpcode`), not
  through `ByteCodeError`.
- **Opcode naming.** The `OPCODES` list names code 3 `CONST` and code 4
  `ADD`, while the class constants the generator and machine use say
  `OP_ADD = 3` and `OP_CONST = 4`. Both have one operand, so the arity table
  is unaffected (`OpcodeNumberClash`).
- **Operator token.** The operator token in a three-part expression is
  ignored: every such expression compiles to `ADD` (`OperatorIgnored`).
- **Redeclared variables.** A redeclared variable gets a new slot, and later
  code uses the new one.
- **The `typ` operand.** `LOAD` and `STORE` ignore it and always move two
  bytes as signed 16-bit. The correctness theorem is therefore stated for
  programs whose variables are at least two bytes wide.

## Model

| member | source | states |
|---|---|---|
| BytecodeFile.NumOperandsCatalog | bytecode.py:4-14 | the operand-count table built from the catalog maps LOAD (1) and STORE (2) to two operands and codes 3 and 4 to one |
| BytecodeFile.OpcodeNumberClash | bytecode.py:4-20 | the catalog's names for codes 3 and 4 are the reverse of the class constants OP_ADD = 3 and OP_CONST = 4, and both codes take one operand |
| BytecodeFile.PackU8 | bytecode.py:69-70 | an unsigned byte packs exactly when it is in 0..255, into that one byte; otherwise the range error |
| BytecodeFile.PackU16 | bytecode.py:75-80 | 'H' packing succeeds exactly on 0..65535 and gives two bytes; otherwise the range error |
| BytecodeFile.PackS16 | bytecode.py:72-80 | 'h' packing succeeds exactly on -32768..32767 and gives two bytes; otherwise the range error |
| BytecodeFile.UnpackU16 | bytecode.py:103-112 | two bytes read as 'H' give a value in 0..65535 |
| BytecodeFile.UnpackS16 | bytecode.py:100-112 | two bytes read as 'h' give a value in -32768..32767 |
| BytecodeFile.UnpackPackU16 | bytecode.py:75-80 | reading back a packed unsigned 16-bit value gives the value |
| BytecodeFile.UnpackPackS16 | bytecode.py:72-80 | reading back a packed signed 16-bit value gives the value |
| BytecodeFile.PackUnpackU16 | bytecode.py:103-112 | packing the unsigned value read from two bytes gives those bytes |
| BytecodeFile.PackUnpackS16 | bytecode.py:100-112 | packing the signed value read from two bytes gives those bytes |
| BytecodeFile.Read | bytecode.py:90-95 | a read succeeds exactly when `amount` bytes remain and returns them; a short read fails with the amount and the offset where the stream ended |
| BytecodeFile.ReadU8 | bytecode.py:97-98 | one byte is read exactly when one remains, and it packs back to itself; else a short read |
| BytecodeFile.ReadU16 | bytecode.py:103-104 | an unsigned 16-bit value is read exactly when two bytes remain, else a short read |
| BytecodeFile.ReadS16 | bytecode.py:100-101 | a signed 16-bit value is read exactly when two bytes remain, else a short read |
| BytecodeFile.ReadPacks | bytecode.py:100-112 | a 16-bit value read from the stream, signed or unsigned, packs back to the two bytes it came from |
| BytecodeFile.DecodeOperands | bytecode.py:43-45 | n operands are read exactly when 2n bytes remain, else a short read |
| BytecodeFile.DecodeInstr | bytecode.py:40-46 | a decoded instruction fits in the bytes that remain; the only errors are a short read and an unknown opcode byte at the cursor |
| BytecodeFile.DecodeInstrs | bytecode.py:39-46 | a successful read yields exactly `count` instructions |
| BytecodeFile.Decode | bytecode.py:26-47 | a loaded file starts with the marker, its pool size and instruction count are the header's 16-bit fields, and its instructions fit in the bytes after the header |
| BytecodeFile.DecodeEncodable | bytecode.py:26-62 | every container load accepts is one save accepts |
| BytecodeFile.EncodeOperands | bytecode.py:61-62 | operands are written as signed 16-bit values, failing on one out of range |
| BytecodeFile.EncodeInstr | bytecode.py:57-62 | an instruction is written as its opcode byte and operands, and only when its operand count matches the catalog |
| BytecodeFile.EncodeInstrs | bytecode.py:57-62 | the instructions are written in order, and every one must be writable |
| BytecodeFile.Encode | bytecode.py:49-62 | save succeeds exactly on encodable containers and writes the marker, version 1, the pool size, the count and the instructions, with the exact total length |
| BytecodeFile.DecodeEncodeInstrs | bytecode.py:39-62 | instructions written by save read back as the same instructions |
| BytecodeFile.EncodeDecodeInstrs | bytecode.py:39-62 | instructions read by load are written back as the same bytes |
| BytecodeFile.RoundTrip | bytecode.py:26-62 | loading what save wrote gives the container back |
| BytecodeFile.DecodeThenEncode | bytecode.py:26-62 | saving a loaded container reproduces the file's bytes up to the last instruction, with the version byte set to 1 |
| BytecodeFile.DecodeIgnoresTrailing | bytecode.py:39-47 | bytes after the last instruction do not change what is loaded |
| BytecodeFile.DecodeIgnoresVersion | bytecode.py:33 | the version byte does not change what is loaded |
| BytecodeFile.DecodeRejectsBadMarker | bytecode.py:29-31 | a file not starting with the marker is refused as a format error |
| BytecodeFile.DecodeInstrsUnknown | bytecode.py:39-41 | once k instructions have been read, an opcode byte outside the catalog where the next one starts stops the loop with that opcode |
| BytecodeFile.DecodeRejectsUnknownOpcode | bytecode.py:39-41 | an opcode outside the catalog at any instruction, reached after the earlier instructions were read, makes load fail with that opcode |
| BytecodeFile.EncodeRejectsArityMismatch | bytecode.py:59-60 | save refuses an instruction whose operand count is not the catalog's |
| BytecodeFile.DecodeInstrsTruncated | bytecode.py:39-46 | instructions cut off at any byte fail with a short read at the cut |
| BytecodeFile.DecodeTruncated | bytecode.py:90-95 | a loadable file cut inside its header or its instructions fails to load with a short read at the cut |
| BytecodeFile.LoadOperands | bytecode.py:43-45 | the operand loop returns exactly what DecodeOperands gives |
| BytecodeFile.LoadInstr | bytecode.py:40-46 | reading one instruction returns exactly what DecodeInstr gives |
| BytecodeFile.LoadInstrs | bytecode.py:39-46 | the instruction loop returns exactly what DecodeInstrs gives |
| BytecodeFile.Load | bytecode.py:26-47 | load returns exactly what Decode gives, so every Decode lemma holds of it |
| BytecodeFile.SaveOperands | bytecode.py:61-62 | the operand loop writes exactly what EncodeOperands gives |
| BytecodeFile.SaveInstr | bytecode.py:57-62 | writing one instruction produces exactly what EncodeInstr gives |
| BytecodeFile.Save | bytecode.py:49-62 | save writes exactly what Encode gives, so RoundTrip holds of Save then Load |
| Compiler.ExpressionCode | compiler.py:84-112 | compiled expression code is never empty and every instruction has its catalog operand count |
| Compiler.ExpressionCodeOk | compiler.py:84-112 | an expression compiles if and only if it has a supported shape and every variable it reads is declared |
| Compiler.OperatorIgnored | compiler.py:91-96 | a three-part expression compiles the same whatever its operator token |
| Compiler.StatementCode | compiler.py:70-82 | only an assignment to a declared variable compiles; its code ends with STORE to that variable's offset |
| Compiler.StatementCodeOk | compiler.py:70-82 | a statement compiles if and only if it is an assignment to a declared variable whose value compiles |
| Compiler.BodyCode | compiler.py:63-68 | a function body's code has catalog operand counts throughout |
| Compiler.BodyCodeOk | compiler.py:67-68 | a body compiles if and only if every one of its statements does |
| Compiler.DeclarationStep | compiler.py:38-61 | a variable of a known type advances the pool by its width; a function leaves pool and table alone; any other declaration is refused |
| Compiler.Generate | compiler.py:21-30 | the generated container's instructions all have their catalog operand counts |
| Compiler.DeclarationsArity | compiler.py:32-44 | the declaration pass only appends instructions with catalog operand counts |
| Compiler.DeclarationsLayout | compiler.py:55-61 | the pool size is the sum of the declared widths, and the table holds exactly the declared names |
| Compiler.DeclarationsOffsets | compiler.py:55-61 | a variable not redeclared later sits at the sum of the widths declared before it |
| Compiler.KeepsOffset | compiler.py:60 | a name no later declaration redeclares keeps its offset |
| Compiler.DeclarationsSpaced | compiler.py:55-61 | when every width is at least w, slots of w bytes lie inside the pool and do not overlap |
| Compiler.StepSpaced | compiler.py:55-61 | one declaration keeps the slots inside the pool and apart |
| Compiler.GenerateOk | compiler.py:32-112 | a program compiles if and only if it declares only variables of known types and functions whose statements assign to variables declared earlier |
| Compiler.DeclarationsRejectOther | compiler.py:35-44 | once the declarations before it have gone through, a declaration that is neither a variable nor a function stops the loop with its kind |
| Compiler.GenerateRejectsOther | compiler.py:35-44 | a declaration that is neither a variable nor a function, at any position after declarations that compile, stops compilation with its kind |
| Compiler.CodeGenerator.constructor | compiler.py:15-19 | a new generator has an empty pool, an empty table and no code |
| Compiler.CodeGenerator.Emit | compiler.py:114-116 | emit appends one instruction and changes nothing else |
| Compiler.CodeGenerator.CompileExpression | compiler.py:84-112 | it fails exactly when ExpressionCode does, with the same error; on success the code is appended and the table and pool are unchanged |
| Compiler.CodeGenerator.CompileStatement | compiler.py:70-82 | it fails exactly when StatementCode does, with the same error; on success the code is appended |
| Compiler.CodeGenerator.CompileFunction | compiler.py:63-68 | the statement loop fails exactly when BodyCode does; on success it appends the body's code |
| Compiler.CodeGenerator.CompileVariable | compiler.py:55-61 | it fails on an unknown type and then leaves pool, table and code as they were; otherwise it places the variable at the old pool offset and advances the pool by its width |
| Compiler.CodeGenerator.CompileProgram | compiler.py:32-44 | it restarts pool and table, and the declaration loop ends in the state Declarations gives or fails with its error |
| Compiler.CodeGenerator.Compile | compiler.py:21-30 | compile returns exactly Generate's container or error |
| Interpreter.MemRead | interpreter.py:37-41 | a 2-byte slot reads as a signed 16-bit value |
| Interpreter.MemWrite | interpreter.py:43-46 | a store succeeds exactly for a signed 16-bit value, changes only the slot's two bytes and keeps the memory's length; otherwise the range error |
| Interpreter.ReadAfterWrite | interpreter.py:37-46 | a slot reads back the value just stored in it |
| Interpreter.ReadAfterOtherWrite | interpreter.py:37-46 | storing into a slot does not change a slot that does not overlap it |
| Interpreter.WriteWhatIsRead | interpreter.py:37-46 | storing the value a slot holds leaves memory unchanged |
| Interpreter.Step | interpreter.py:17-34 | an instruction keeps the memory size, changes the stack depth by its opcode's stack effect, and touches memory only for STORE |
| Interpreter.Exec | interpreter.py:13-35 | running code never changes the memory size |
| Interpreter.ExecAppend | interpreter.py:15 | running two pieces of code in sequence is running the first, then the second from where it stopped |
| Interpreter.StepNotImplemented | interpreter.py:33-34 | an instruction is refused as not implemented if and only if its opcode is outside the catalog |
| Interpreter.StepCatalogArity | interpreter.py:17-32 | an instruction with its catalog operand count fails only on stack underflow or an out-of-range store |
| Interpreter.StepUnderflow | interpreter.py:24-32 | an instruction with its catalog operand count underflows exactly when it is STORE on an empty stack or ADD with fewer than two values |
| Interpreter.ExecOnlyRangeErrors | interpreter.py:13-35 | code with catalog operand counts that never pops more than is pushed fails only on an out-of-range store |
| Interpreter.Vm.constructor | interpreter.py:8-11 | a new machine has an empty stack |
| Interpreter.Vm.Load | interpreter.py:48-50 | load installs the code and a fresh zero-filled pool of the declared size, leaving the stack as it was |
| Interpreter.Vm.LoadMem | interpreter.py:37-41 | it returns MemRead of the current memory |
| Interpreter.Vm.StoreMem | interpreter.py:43-46 | it writes MemWrite's result into the array, or fails with the range error and leaves memory unchanged |
| Interpreter.Vm.Run | interpreter.py:13-35 | the run loop fails exactly when Exec does, with the same error; on success the machine's state is Exec's result |
| Interpreter.RunContainer | interpreter.py:53-57 | running a container from a new machine is Exec from a zero-filled pool and an empty stack |
| Semantics.StoreRepresents | interpreter.py:43-46 | storing into one variable's slot updates that variable only and leaves the rest of memory above the pool as it was |
| Semantics.ExprCorrect | compiler.py:84-112 | the code of a compilable expression pushes the expression's value, leaves memory unchanged and stays inside the pool |
| Semantics.AddCorrect | compiler.py:91-96 | left code, right code, then ADD push the sum of the two operands |
| Semantics.StatementCorrect | compiler.py:70-80 | an assignment's code stores the value into the target's slot, or fails with the same range error the reference semantics gives |
| Semantics.BodyCorrect | compiler.py:63-68 | a body's code agrees with the reference semantics on success, failure and error |
| Semantics.VariableCorrect | compiler.py:55-61 | a newly placed variable's slot lies in zero-filled memory and so holds 0 |
| Semantics.FunctionCorrect | compiler.py:63-68 | a function's code agrees with the reference semantics on the variables declared before it |
| Semantics.DeclarationsCorrect | compiler.py:32-44 | the declaration pass's code, run from any state that represents the variables, agrees with the reference semantics of the remaining declarations |
| Semantics.ProgramCorrect | compiler.py:21-30 | generated code stays inside its pool and, run on zeroed memory, ends with an empty stack and each variable holding its reference value; it fails exactly when the reference fails, with the same error |
| Scenario.GenerateA | test_dsl.py:5-11 | `var s16 A; main { A = 1; }` compiles to a 2-byte pool with CONST 1; STORE 0 |
| Scenario.ExecA | test_dsl.py:12-14 | running that code leaves 1 in A's slot and an empty stack |
| Scenario.Test1 | test_dsl.py:5-14 | compile, save, load, run and read A: the value is 1 |
| Scenario.ProgramBResult | compiler.py:91-96 | `A = 3; B = A + 4;` leaves 3 at offset 0 and 7 at offset 2 of a 4-byte pool |
| Scenario.LoneAddUnderflows | interpreter.py:28-30 | ADD on an empty stack fails with stack underflow |
| Scenario.AddDoesNotWrap | interpreter.py:28-32 | 32000 + 10000 is pushed as 42000, and storing it fails with the range error |

## Left out

- Printing, logging, the listing file (`emit_listing`), `argparse` and the
  `main` functions. These are I/O only.
- Parsing source text with textX, and `model_export`. The parser is a
  library outside this repository. Programs are given as the AST datatypes
  `Program`, `Declaration`, `Statement` and `Expr`. A node whose class the
  generator does not handle is `OtherExpr`, `OtherStatement` or
  `OtherDeclaration`.
- The output file of `compile`. `CodeGenerator.Compile` returns the
  container, and `Save` models writing it.
- File objects. A file is a byte sequence, and a writer is the byte sequence
  it has produced.
- `Reader.read_u32`. Nothing calls it.
- The byte order of `struct`'s native format. It is modelled as
  little-endian.
- Exceptions become `Result` or `Outcome` values:
  - in `load`, the two `ByteCodeError`s become `BadMarker` and `ShortRead`,
    and the `KeyError` of the `NUM_OPERANDS` lookup becomes `UnknownOpcode`;
  - in `save`, `struct.error` becomes `OutOfRange`, the `KeyError` of the
    `NUM_OPERANDS` lookup for a byte-sized opcode outside the catalog
    becomes `UnknownOpcode`, and the arity assertion becomes `ArityMismatch`;
  - in the generator, the `KeyError` of `var_sizes` becomes `UnknownType`,
    that of the symbol table `UndefinedSymbol`, `NotImplementedError`
    `Unsupported`, the `NameError` of the undefined `error` for an
    expression of neither one nor three parts `BadOperandCount`, and the
    `IndexError` of a `Term` without operands `EmptyTerm`;
  - in the machine, a pop from an empty list becomes `StackUnderflow`,
    `NotImplementedError` `NotImplemented`, `struct.error` `PackRange`, and
    the `IndexError` of a `CONST` without an operand or the `ValueError` of
    unpacking a `LOAD` or `STORE` without exactly two operands `BadOperands`.
- Compiler.CodeGenerator.CompileExpression: after a failure the partly
  emitted code is not stated. Python keeps whatever was emitted before the
  exception.
- Compiler.CodeGenerator.CompileStatement: after a failure the partly
  emitted code is not stated. Python keeps whatever was emitted before the
  exception.
- Compiler.CodeGenerator.CompileFunction: after a failure the code emitted
  for the earlier statements is not stated. Python keeps it.
- Compiler.CodeGenerator.CompileProgram: after a failure the partly built
  pool, symbol table and code are not stated. Python keeps them.
- Interpreter.Vm.Run: after a failure the partly changed stack and memory
  are not stated.
- BytecodeFile.Save: after a failure, the bytes already written to the file
  are not modelled.
- Interpreter.Vm.Run requires every LOAD and STORE slot to lie inside the
  pool, from offset 0 up. Python would slice past the end of the
  `bytearray`, and a store there would grow it. A negative offset counts
  from the end of the pool: at -4 the slot is the fourth- and third-last
  bytes, and in a pool of more than two bytes the slice at -2 or -1 is empty,
  so a LOAD fails to unpack and a STORE inserts two bytes.
- Interpreter.Vm.Load requires a pool size that is not negative.
  `bytearray` raises on a negative size.
- Interpreter.Vm.constructor gives the machine empty code and memory, so
  `Run` before `Load` does nothing. Python raises `AttributeError` there.
- Compiler.CodeGenerator.constructor starts the pool and table empty.
  Python leaves them unset until `compile_program`. The constructor
  arguments `lst_file` and `output_filename` feed the listing file and the
  output file of `compile`, both left out above; `_var_number` and the VM's
  `_pc` are never used.
- Semantics.ProgramCorrect requires every variable to be at least two bytes
  wide. `LOAD` and `STORE` always move two bytes, so a 1-byte variable
  shares a byte with the next slot.
- Scenario.Test1 loads the container, runs it and reads A's slot at offset 0
  through `Vm.LoadMem`. The test instead passes the code to `vm.run`, which
  takes no argument, and calls `vm.lookup('A')`, which `Vm` does not define.
