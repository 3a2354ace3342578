/**
 * The end-to-end run of the repository's test: compile a one-variable
 * program, save the container, load it back, run it, and read the variable.
 */
module Scenario {
  import opened Wrappers
  import opened BytecodeFile
  import opened Compiler
  import opened Interpreter
  import opened Semantics

  /** The literal 1, as the parser shapes it on the right of an assignment. */
  function Literal(v: int): Expr {
    Expression([Term([Constant(v)])])
  }

  /** `var s16 A; main { A = 1; }` */
  const ProgramA: Program :=
    Program([Variable("A", "s16"), Function("main", [Assignment("A", Literal(1))])])

  /** `var s16 A; var s16 B; main { A = 3; B = A + 4; }` */
  const ProgramB: Program :=
    Program([Variable("A", "s16"), Variable("B", "s16"),
             Function("main", [Assignment("A", Literal(3)),
                               Assignment("B", Expression([Term([VariableRef("A")]), Operator("+"), Term([Constant(4)])]))])])

  /** The code generated for the first program. */
  const CodeA: seq<Instr> := [Instr(OP_CONST, [1]), Instr(OP_STORE, [0, 1])]

  lemma LiteralCode(v: int, offsets: map<string, int>)
    ensures ExpressionCode(Literal(v), offsets) == Ok([Instr(OP_CONST, [v])])
  {
    assert ExpressionCode(Constant(v), offsets) == Ok([Instr(OP_CONST, [v])]);
    assert ExpressionCode(Term([Constant(v)]), offsets) == Ok([Instr(OP_CONST, [v])]);
  }

  /** A is placed at offset 0 of a 2-byte pool, and main becomes CONST 1; STORE 0. */
  lemma GenerateA()
    ensures Generate(ProgramA) == Ok(Bytecode(2, CodeA))
  {
    var ds := ProgramA.declarations;
    var st1 := GenState(2, map["A" := 0], []);
    assert DeclarationStep(ProgramStart([]), ds[0]) == Ok(st1);
    var stmts := ds[1].statements;
    LiteralCode(1, st1.varOffsets);
    assert [Instr(OP_CONST, [1])] + [Instr(OP_STORE, [0, 1])] == CodeA;
    assert StatementCode(stmts[0], st1.varOffsets) == Ok(CodeA);
    assert stmts[1..] == [];
    assert CodeA + [] == CodeA;
    assert BodyCode(stmts, st1.varOffsets) == Ok(CodeA);
    assert [] + CodeA == CodeA;
    assert DeclarationStep(st1, ds[1]) == Ok(st1.(opcodes := CodeA));
    assert ds[1..][1..] == [];
  }

  lemma EncodableA()
    ensures Encodable(Bytecode(2, CodeA))
  {
    NumOperandsCatalog();
    assert EncodableInstr(CodeA[0]) && EncodableInstr(CodeA[1]);
  }

  /** Running the first program's code leaves 1 in the slot at offset 0 and an empty stack. */
  lemma ExecA()
    ensures CodeInBounds(CodeA, 2)
    ensures Exec(Machine(Zeros(2), []), CodeA) == Ok(Machine([1, 0], []))
  {
    var m0 := Machine(Zeros(2), []);
    var m1 := Machine(Zeros(2), [1]);
    var m2 := Machine([1, 0], []);
    assert [] + [1] == [1];
    assert Step(m0, CodeA[0]) == Ok(m1);
    assert PackS16(1) == Ok([1, 0]);
    assert Zeros(2)[0 := 1][1 := 0] == [1, 0];
    assert MemWrite(Zeros(2), 0, 1) == Ok([1, 0]);
    assert Step(m1, CodeA[1]) == Ok(m2);
    assert CodeA[1..] == [CodeA[1]] && CodeA[1..][1..] == [];
    assert Exec(m1, CodeA[1..]) == Ok(m2);
  }

  /** The test: after compiling, saving, loading and running, A holds 1. */
  method Test1() returns (a: int)
    ensures a == 1
  {
    var gen := new CodeGenerator();
    var compiled := gen.Compile(ProgramA);
    GenerateA();
    var c := compiled.value;
    EncodableA();
    var saved := Save(c);
    RoundTrip(c);
    var loaded := Load(saved.value);
    ExecA();
    var r, vm := RunContainer(loaded.value);
    assert MemRead([1, 0], 0) == 1;
    a := vm.LoadMem(0, 1);
  }

  /** The second program is one the generator accepts, with 2-byte variables only. */
  lemma WellFormedB()
    ensures WellFormed(ProgramB) && WidthsAtLeast(ProgramB.declarations, 2)
  {
    var ds := ProgramB.declarations;
    var main := ds[2].statements;
    var pre := [Variable("A", "s16"), Variable("B", "s16")];
    assert ds[..2] == pre;
    assert VarNames(pre) == {"A", "B"} by {
      assert pre[1..] == [Variable("B", "s16")] && pre[1..][1..] == [];
      assert VarNames(pre[1..]) == {"B"};
    }
    assert Refs(main[0].value) == {} && Refs(main[1].value) == {"A"};
    assert WellFormedAt(ds, 2);
  }

  /** The body of main: A = 3, then B = A + 4. */
  lemma RunMainB(env: map<string, int>)
    requires env == map["A" := 0, "B" := 0]
    ensures BodyOk(ProgramB.declarations[2].statements, env.Keys)
    ensures RunBody(ProgramB.declarations[2].statements, env) == Ok(map["A" := 3, "B" := 7])
  {
    var main := ProgramB.declarations[2].statements;
    var env3 := env["A" := 3];
    assert Eval(Term([Constant(3)]), env) == 3;
    assert Eval(Literal(3), env) == 3;
    assert Assign(main[0], env) == Ok(env3);
    assert Eval(main[1].value, env3) == 7;
    assert main[1..][0] == main[1] && main[1..][1..] == [];
    assert env3["B" := 7] == map["A" := 3, "B" := 7];
    assert Assign(main[1], env3) == Ok(map["A" := 3, "B" := 7]);
    assert RunBody(main[1..], env3) == Ok(map["A" := 3, "B" := 7]);
  }

  /** The reference semantics of the second program. */
  lemma RunProgramB()
    requires DeclsOk(ProgramB.declarations, {})
    ensures RunProgram(ProgramB) == Ok(map["A" := 3, "B" := 7])
  {
    var ds := ProgramB.declarations;
    var env2 := map["A" := 0, "B" := 0];
    RunMainB(env2);
    assert ds[1..][1..] == [ds[2]] && ds[2..][1..] == [];
    assert map[]["A" := 0]["B" := 0] == env2;
  }

  /** A sits at offset 0 and B at offset 2 of a 4-byte pool. */
  lemma TableB()
    requires Generate(ProgramB).Ok?
    ensures SymbolTable(ProgramB)["A"] == 0 && SymbolTable(ProgramB)["B"] == 2
    ensures Generate(ProgramB).value.memPoolSize == 4
  {
    var ds := ProgramB.declarations;
    DeclarationsOffsets(ProgramStart([]), ds, 0);
    DeclarationsOffsets(ProgramStart([]), ds, 1);
    assert ds[..0] == [] && ds[..1] == [Variable("A", "s16")];
    DeclarationsLayout(ProgramStart([]), ds);
    assert ds[1..][1..][1..] == [];
  }

  /**
   * The second program leaves A = 3 and B = A + 4 = 7 in their slots at
   * offsets 0 and 2, as the reference semantics says.
   */
  lemma ProgramBResult()
    ensures Generate(ProgramB).Ok? && Generate(ProgramB).value.memPoolSize == 4
    ensures CodeInBounds(Generate(ProgramB).value.opcodes, 4)
    ensures var run := Exec(Machine(Zeros(4), []), Generate(ProgramB).value.opcodes);
            run.Ok? && |run.value.memory| == 4 && MemRead(run.value.memory, 0) == 3 && MemRead(run.value.memory, 2) == 7
  {
    WellFormedB();
    GenerateOk(ProgramB);
    ProgramCorrect(ProgramB);
    RunProgramB();
    TableB();
  }

  /** A container whose only instruction is ADD fails on the empty stack. */
  lemma LoneAddUnderflows(memory: seq<byte>)
    ensures CodeInBounds([Instr(OP_ADD, [1])], |memory|)
    ensures Exec(Machine(memory, []), [Instr(OP_ADD, [1])]) == Err(StackUnderflow)
  {
    ExecOne(Machine(memory, []), Instr(OP_ADD, [1]));
  }

  /**
   * ADD does not wrap: 32000 + 10000 is pushed as 42000, and storing it then
   * fails because it does not fit a signed 16-bit slot.
   */
  lemma AddDoesNotWrap()
    ensures var code := [Instr(OP_CONST, [32000]), Instr(OP_CONST, [10000]), Instr(OP_ADD, [1])];
            CodeInBounds(code, 2) && Exec(Machine(Zeros(2), []), code) == Ok(Machine(Zeros(2), [42000]))
    ensures var code := [Instr(OP_CONST, [32000]), Instr(OP_CONST, [10000]), Instr(OP_ADD, [1]), Instr(OP_STORE, [0, 1])];
            CodeInBounds(code, 2) && Exec(Machine(Zeros(2), []), code) == Err(PackRange(42000))
  {
    var m0 := Machine(Zeros(2), []);
    var m1 := Machine(Zeros(2), [32000]);
    var m2 := Machine(Zeros(2), [32000, 10000]);
    var m3 := Machine(Zeros(2), [42000]);
    var c1, c2, add, store := Instr(OP_CONST, [32000]), Instr(OP_CONST, [10000]), Instr(OP_ADD, [1]), Instr(OP_STORE, [0, 1]);
    assert [] + [32000] == [32000];
    assert Step(m0, c1) == Ok(m1);
    assert [32000] + [10000] == [32000, 10000];
    assert Step(m1, c2) == Ok(m2);
    assert m2.stack[..0] + [42000] == [42000];
    assert Step(m2, add) == Ok(m3);
    assert Step(m3, store) == Err(PackRange(42000));
    ExecOne(m2, add);
    ExecOne(m3, store);
    ExecAppend(m1, [c2], [add]);
    ExecAppend(m0, [c1], [c2, add]);
    assert [c1] + [c2, add] == [c1, c2, add] && [c2] + [add] == [c2, add];
    ExecAppend(m0, [c1, c2, add], [store]);
    assert [c1, c2, add] + [store] == [c1, c2, add, store];
  }
}
