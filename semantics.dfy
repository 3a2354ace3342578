/**
 * What a program means at the source level, and why the generated code,
 * run on the stack machine, does just that.
 *
 * A variable holds a signed 16-bit value; a declaration starts it at 0; an
 * assignment evaluates its right-hand side (every binary operator adds) and
 * fails when the result does not fit. The correctness lemmas relate this
 * reference semantics to Exec of ExpressionCode, StatementCode, BodyCode and
 * Generate, through a memory that holds each variable at its offset.
 */
module Semantics {
  import opened Wrappers
  import opened BytecodeFile
  import opened Compiler
  import opened Interpreter

  // ---------------------------------------------------------------------------
  // Reference semantics
  // ---------------------------------------------------------------------------

  /** The value of an expression whose variables have the values in `env`. */
  function Eval(e: Expr, env: map<string, int>): int
    requires Supported(e) && Refs(e) <= env.Keys
    decreases e
  {
    match e
    case Expression(ops) =>
      if |ops| == 1 then Eval(ops[0], env) else Eval(ops[0], env) + Eval(ops[2], env)
    case Term(ops) => Eval(ops[0], env)
    case VariableRef(name) => env[name]
    case Constant(value) => value
    case Operator(_) => 0
    case OtherExpr(_) => 0
  }

  /** A statement the generator accepts, over the names in `keys`. */
  predicate StatementOk(s: Statement, keys: set<string>) {
    s.Assignment? && Supported(s.value) && Refs(s.value) <= keys && s.variableName in keys
  }

  predicate BodyOk(stmts: seq<Statement>, keys: set<string>) {
    forall k :: 0 <= k < |stmts| ==> StatementOk(stmts[k], keys)
  }

  /** An assignment: the target takes the value, which must fit a signed 16-bit slot. */
  function Assign(s: Statement, env: map<string, int>): (r: Result<map<string, int>, VmError>)
    requires StatementOk(s, env.Keys)
    ensures r.Ok? ==> r.value.Keys == env.Keys
  {
    var v := Eval(s.value, env);
    if IsS16(v) then Ok(env[s.variableName := v]) else Err(PackRange(v))
  }

  /** The statements of a body, in order, stopping at the first that fails. */
  function RunBody(stmts: seq<Statement>, env: map<string, int>): (r: Result<map<string, int>, VmError>)
    requires BodyOk(stmts, env.Keys)
    ensures r.Ok? ==> r.value.Keys == env.Keys
  {
    if stmts == [] then Ok(env)
    else
      match Assign(stmts[0], env)
      case Err(err) => Err(err)
      case Ok(next) => RunBody(stmts[1..], next)
  }

  predicate DeclOk(d: Declaration, keys: set<string>) {
    match d
    case Variable(_, typ) => typ in VAR_SIZES
    case Function(_, stmts) => BodyOk(stmts, keys)
    case OtherDeclaration(_) => false
  }

  /** Declarations the generator accepts, each using only the variables declared before it. */
  predicate DeclsOk(ds: seq<Declaration>, keys: set<string>)
    decreases ds
  {
    ds == [] || (DeclOk(ds[0], keys) && DeclsOk(ds[1..], keys + (if ds[0].Variable? then {ds[0].name} else {})))
  }

  /** Declarations in order: a variable starts (again) at 0; a function runs its body. */
  function RunDeclarations(ds: seq<Declaration>, env: map<string, int>): (r: Result<map<string, int>, VmError>)
    requires DeclsOk(ds, env.Keys)
    decreases ds
  {
    if ds == [] then Ok(env)
    else
      match ds[0]
      case Variable(name, _) =>
        assert env[name := 0].Keys == env.Keys + {name};
        RunDeclarations(ds[1..], env[name := 0])
      case Function(_, stmts) =>
        (match RunBody(stmts, env)
         case Err(err) => Err(err)
         case Ok(next) =>
           assert next.Keys == env.Keys + {};
           RunDeclarations(ds[1..], next))
      case OtherDeclaration(_) => Ok(env)
  }

  /** A whole program, from no variables at all. */
  function RunProgram(p: Program): Result<map<string, int>, VmError>
    requires DeclsOk(p.declarations, {})
  {
    var empty: map<string, int> := map[];
    assert empty.Keys == {};
    RunDeclarations(p.declarations, empty)
  }

  /** The symbol table the generator ends with. */
  function SymbolTable(p: Program): map<string, int>
    requires Generate(p).Ok?
  {
    Declarations(ProgramStart([]), p.declarations).value.varOffsets
  }

  // ---------------------------------------------------------------------------
  // Memory that represents variables
  // ---------------------------------------------------------------------------

  /** Each variable's value sits in its 2-byte slot. */
  predicate Represents(memory: seq<byte>, offsets: map<string, int>, env: map<string, int>) {
    offsets.Keys == env.Keys
    && forall n :: n in offsets ==> SlotInside(offsets[n], |memory|) && MemRead(memory, offsets[n]) == env[n]
  }

  /** The slots lie below `pool`, inside memory, and do not overlap. */
  predicate Laid(offsets: map<string, int>, pool: int, size: int) {
    Spaced(GenState(pool, offsets, []), 2) && pool <= size
  }

  /** Two memories of one size that agree from byte `k` on. */
  predicate SameFrom(a: seq<byte>, b: seq<byte>, k: int) {
    |a| == |b| && forall j :: 0 <= k <= j < |a| ==> a[j] == b[j]
  }

  /** Storing into a variable's slot updates that variable and no other, and nothing from `pool` on. */
  lemma StoreRepresents(memory: seq<byte>, offsets: map<string, int>, env: map<string, int>, pool: int, name: string, v: int)
    requires Represents(memory, offsets, env) && Laid(offsets, pool, |memory|) && name in offsets && IsS16(v)
    ensures Represents(MemWrite(memory, offsets[name], v).value, offsets, env[name := v])
    ensures SameFrom(memory, MemWrite(memory, offsets[name], v).value, pool)
  {
    var after := MemWrite(memory, offsets[name], v).value;
    forall n | n in offsets
      ensures MemRead(after, offsets[n]) == env[name := v][n]
    {
      if n == name {
        ReadAfterWrite(memory, offsets[name], v);
      } else {
        ReadAfterOtherWrite(memory, offsets[name], v, offsets[n]);
      }
    }
  }

  // ---------------------------------------------------------------------------
  // Expressions
  // ---------------------------------------------------------------------------

  lemma ExecOne(m: Machine, ins: Instr)
    requires InBounds(ins, |m.memory|)
    ensures CodeInBounds([ins], |m.memory|)
    ensures Exec(m, [ins]) == Step(m, ins)
  {
    assert [ins][1..] == [];
  }

  /**
   * The code of an expression leaves memory as it was and pushes the
   * expression's value, whatever is already on the stack.
   */
  lemma {:induction false} ExprCorrect(e: Expr, offsets: map<string, int>, env: map<string, int>, m: Machine)
    requires Supported(e) && Refs(e) <= offsets.Keys && Represents(m.memory, offsets, env)
    ensures ExpressionCode(e, offsets).Ok?
    ensures CodeInBounds(ExpressionCode(e, offsets).value, |m.memory|)
    ensures Exec(m, ExpressionCode(e, offsets).value) == Ok(Machine(m.memory, m.stack + [Eval(e, env)]))
    decreases e, 1
  {
    ExpressionCodeOk(e, offsets);
    match e
    case Expression(ops) =>
      if |ops| == 1 {
        ExprCorrect(ops[0], offsets, env, m);
      } else {
        AddCorrect(e, offsets, env, m);
      }
    case Term(ops) =>
      ExprCorrect(ops[0], offsets, env, m);
    case VariableRef(name) =>
      ExecOne(m, Instr(OP_LOAD, [offsets[name], 1]));
    case Constant(value) =>
      ExecOne(m, Instr(OP_CONST, [value]));
  }

  /** The left operand's code, the right operand's code and ADD push the sum. */
  lemma {:induction false} AddCorrect(e: Expr, offsets: map<string, int>, env: map<string, int>, m: Machine)
    requires e.Expression? && |e.ops| == 3
    requires Supported(e) && Refs(e) <= offsets.Keys && Represents(m.memory, offsets, env)
    ensures ExpressionCode(e.ops[0], offsets).Ok? && ExpressionCode(e.ops[2], offsets).Ok?
    ensures var code := ExpressionCode(e.ops[0], offsets).value + ExpressionCode(e.ops[2], offsets).value + [Instr(OP_ADD, [1])];
            CodeInBounds(code, |m.memory|)
            && Exec(m, code) == Ok(Machine(m.memory, m.stack + [Eval(e.ops[0], env) + Eval(e.ops[2], env)]))
    decreases e, 0
  {
    var left, right := e.ops[0], e.ops[2];
    ExprCorrect(left, offsets, env, m);
    var a := Eval(left, env);
    var m1 := Machine(m.memory, m.stack + [a]);
    ExprCorrect(right, offsets, env, m1);
    var b := Eval(right, env);
    var m2 := Machine(m.memory, m1.stack + [b]);
    var lcode, rcode := ExpressionCode(left, offsets).value, ExpressionCode(right, offsets).value;
    var add := Instr(OP_ADD, [1]);
    ExecOne(m2, add);
    assert m2.stack[..|m2.stack| - 2] == m.stack;
    ExecAppend(m, lcode, rcode);
    ExecAppend(m, lcode + rcode, [add]);
  }

  // ---------------------------------------------------------------------------
  // Statements and bodies
  // ---------------------------------------------------------------------------

  /**
   * An assignment's code stores the value in the target's slot and leaves the
   * stack as it was, or fails exactly as the assignment does.
   */
  lemma StatementCorrect(s: Statement, offsets: map<string, int>, env: map<string, int>, m: Machine)
    requires StatementOk(s, offsets.Keys) && Represents(m.memory, offsets, env)
    ensures StatementCode(s, offsets).Ok?
    ensures CodeInBounds(StatementCode(s, offsets).value, |m.memory|)
    ensures var v := Eval(s.value, env);
            Exec(m, StatementCode(s, offsets).value) ==
              if IsS16(v) then Ok(Machine(MemWrite(m.memory, offsets[s.variableName], v).value, m.stack))
              else Err(PackRange(v))
  {
    var v := Eval(s.value, env);
    ExprCorrect(s.value, offsets, env, m);
    var code := ExpressionCode(s.value, offsets).value;
    var store := Instr(OP_STORE, [offsets[s.variableName], 1]);
    var m1 := Machine(m.memory, m.stack + [v]);
    ExecOne(m1, store);
    assert m1.stack[..|m1.stack| - 1] == m.stack;
    ExecAppend(m, code, [store]);
  }

  /**
   * A body's code does what the body does to the variables, leaves the stack
   * as it was and writes nothing from `pool` on; it fails exactly when, and
   * with the error that, the body does.
   */
  lemma {:induction false} BodyCorrect(stmts: seq<Statement>, offsets: map<string, int>, env: map<string, int>, pool: int, m: Machine)
    requires BodyOk(stmts, offsets.Keys) && Represents(m.memory, offsets, env) && Laid(offsets, pool, |m.memory|)
    ensures BodyCode(stmts, offsets).Ok?
    ensures CodeInBounds(BodyCode(stmts, offsets).value, |m.memory|)
    ensures Exec(m, BodyCode(stmts, offsets).value).Ok? <==> RunBody(stmts, env).Ok?
    ensures RunBody(stmts, env).Err? ==> Exec(m, BodyCode(stmts, offsets).value).error == RunBody(stmts, env).error
    ensures RunBody(stmts, env).Ok? ==>
              var after := Exec(m, BodyCode(stmts, offsets).value).value;
              after.stack == m.stack && Represents(after.memory, offsets, RunBody(stmts, env).value)
              && SameFrom(m.memory, after.memory, pool)
    decreases stmts
  {
    BodyCodeOkKeys(stmts, offsets);
    if stmts != [] {
      var s := stmts[0];
      StatementCorrect(s, offsets, env, m);
      var first := StatementCode(s, offsets).value;
      var more := BodyCode(stmts[1..], offsets).value;
      assert BodyOk(stmts[1..], offsets.Keys) by {
        assert forall k :: 0 <= k < |stmts[1..]| ==> stmts[1..][k] == stmts[k + 1];
      }
      var v := Eval(s.value, env);
      if IsS16(v) {
        StoreRepresents(m.memory, offsets, env, pool, s.variableName, v);
        var m1 := Machine(MemWrite(m.memory, offsets[s.variableName], v).value, m.stack);
        BodyCorrect(stmts[1..], offsets, env[s.variableName := v], pool, m1);
        ExecAppend(m, first, more);
      } else {
        BodyCorrect(stmts[1..], offsets, env, pool, m);
        ExecAppendFails(m, first, more);
      }
    }
  }

  lemma ExecAppendFails(m: Machine, a: seq<Instr>, b: seq<Instr>)
    requires CodeInBounds(a, |m.memory|) && CodeInBounds(b, |m.memory|) && Exec(m, a).Err?
    ensures CodeInBounds(a + b, |m.memory|) && Exec(m, a + b) == Exec(m, a)
  {
    ExecAppend(m, a, b);
  }

  // ---------------------------------------------------------------------------
  // Declarations and programs
  // ---------------------------------------------------------------------------

  /** Memory is zero from byte `k` on: what no declared variable has used yet. */
  predicate ZeroFrom(memory: seq<byte>, k: int) {
    forall j :: 0 <= k <= j < |memory| ==> memory[j] == 0
  }

  /** Declarations only append to the code. */
  lemma {:induction false} DeclarationsExtend(st: GenState, ds: seq<Declaration>)
    requires Declarations(st, ds).Ok?
    ensures |st.opcodes| <= |Declarations(st, ds).value.opcodes|
    ensures Declarations(st, ds).value.opcodes[..|st.opcodes|] == st.opcodes
    decreases ds
  {
    if ds != [] {
      var next := DeclarationStep(st, ds[0]).value;
      DeclarationsExtend(next, ds[1..]);
      assert next.opcodes[..|st.opcodes|] == st.opcodes;
    }
  }

  /** What the machine and the generator agree on between two declarations. */
  predicate Invariant(st: GenState, fin: GenState, env: map<string, int>, m: Machine) {
    Spaced(st, 2) && fin.memPoolOffset <= |m.memory| && st.memPoolOffset <= fin.memPoolOffset
    && Represents(m.memory, st.varOffsets, env) && ZeroFrom(m.memory, st.memPoolOffset)
  }

  /** The code a run of declarations adds to `st`'s. */
  function NewCode(st: GenState, ds: seq<Declaration>): seq<Instr>
    requires Declarations(st, ds).Ok?
  {
    DeclarationsExtend(st, ds);
    Declarations(st, ds).value.opcodes[|st.opcodes|..]
  }

  /**
   * The code the declarations add to `st`'s, run from `m`, does what the
   * declarations do to the variables in `env`: it fails exactly when, and
   * with the error that, they do; otherwise it leaves the stack as it was and
   * memory holding every variable of the final symbol table.
   */
  predicate Simulates(st: GenState, ds: seq<Declaration>, env: map<string, int>, m: Machine) {
    Declarations(st, ds).Ok? && DeclsOk(ds, env.Keys) && CodeInBounds(NewCode(st, ds), |m.memory|)
    && var run := Exec(m, NewCode(st, ds));
       var reference := RunDeclarations(ds, env);
       (run.Ok? <==> reference.Ok?)
       && (reference.Err? ==> run.error == reference.error)
       && (reference.Ok? ==>
             run.value.stack == m.stack && Represents(run.value.memory, Declarations(st, ds).value.varOffsets, reference.value))
  }

  /**
   * From a state where memory represents the variables and is zero past the
   * pool, the code of the remaining declarations simulates them.
   */
  lemma {:induction false} DeclarationsCorrect(st: GenState, ds: seq<Declaration>, env: map<string, int>, m: Machine)
    requires Declarations(st, ds).Ok? && WidthsAtLeast(ds, 2)
    requires Invariant(st, Declarations(st, ds).value, env, m)
    ensures Simulates(st, ds, env, m)
    decreases ds, 1
  {
    if ds == [] {
      assert NewCode(st, ds) == [];
    } else if ds[0].Variable? {
      VariableCase(st, ds, env, m);
    } else {
      FunctionCase(st, ds, env, m);
    }
  }

  /** The facts about the rest of the declarations both cases need. */
  lemma RestFacts(st: GenState, ds: seq<Declaration>)
    requires ds != [] && Declarations(st, ds).Ok? && WidthsAtLeast(ds, 2) && Spaced(st, 2)
    ensures DeclarationStep(st, ds[0]).Ok?
    ensures var next := DeclarationStep(st, ds[0]).value;
            Declarations(next, ds[1..]) == Declarations(st, ds)
            && WidthsAtLeast(ds[1..], 2) && Spaced(next, 2)
            && next.memPoolOffset <= Declarations(st, ds).value.memPoolOffset
            && |next.opcodes| <= |Declarations(st, ds).value.opcodes|
            && Declarations(st, ds).value.opcodes[..|next.opcodes|] == next.opcodes
  {
    var next := DeclarationStep(st, ds[0]).value;
    assert WidthsAtLeast(ds[1..], 2) by {
      assert forall i :: 0 <= i < |ds[1..]| ==> ds[1..][i] == ds[i + 1];
    }
    StepSpaced(st, ds[0], 2);
    DeclarationsLayout(next, ds[1..]);
    WidthsNonNegative(ds[1..]);
    DeclarationsExtend(next, ds[1..]);
  }

  /** The code declarations add is the first one's code, then the rest's. */
  lemma NewCodeStep(st: GenState, ds: seq<Declaration>)
    requires ds != [] && Declarations(st, ds).Ok?
    ensures DeclarationStep(st, ds[0]).Ok?
    ensures var next := DeclarationStep(st, ds[0]).value;
            |st.opcodes| <= |next.opcodes| && NewCode(st, ds) == next.opcodes[|st.opcodes|..] + NewCode(next, ds[1..])
  {
    var next := DeclarationStep(st, ds[0]).value;
    var all := Declarations(st, ds).value.opcodes;
    DeclarationsExtend(next, ds[1..]);
    assert next.opcodes[..|st.opcodes|] == st.opcodes;
    assert all == next.opcodes + all[|next.opcodes|..];
  }

  lemma {:induction false} VariableCase(st: GenState, ds: seq<Declaration>, env: map<string, int>, m: Machine)
    requires ds != [] && ds[0].Variable?
    requires Declarations(st, ds).Ok? && WidthsAtLeast(ds, 2)
    requires Invariant(st, Declarations(st, ds).value, env, m)
    ensures Simulates(st, ds, env, m)
    decreases ds, 0
  {
    var fin := Declarations(st, ds).value;
    RestFacts(st, ds);
    var next := DeclarationStep(st, ds[0]).value;
    var name := ds[0].name;
    VariableCorrect(st, name, ds[0].typ, fin, env, m);
    DeclarationsCorrect(next, ds[1..], env[name := 0], m);
    NewCodeStep(st, ds);
    assert next.opcodes[|st.opcodes|..] == [];
    assert env[name := 0].Keys == env.Keys + {name};
  }

  lemma {:induction false} FunctionCase(st: GenState, ds: seq<Declaration>, env: map<string, int>, m: Machine)
    requires ds != [] && ds[0].Function?
    requires Declarations(st, ds).Ok? && WidthsAtLeast(ds, 2)
    requires Invariant(st, Declarations(st, ds).value, env, m)
    ensures Simulates(st, ds, env, m)
    decreases ds, 0
  {
    var fin := Declarations(st, ds).value;
    RestFacts(st, ds);
    var next := DeclarationStep(st, ds[0]).value;
    var stmts := ds[0].statements;
    FunctionCorrect(st, stmts, fin, env, m);
    var body := BodyCode(stmts, st.varOffsets).value;
    var rest := NewCode(next, ds[1..]);
    NewCodeStep(st, ds);
    assert next.opcodes[|st.opcodes|..] == body;
    assert env.Keys + {} == env.Keys;
    if RunBody(stmts, env).Ok? {
      var m1 := Exec(m, body).value;
      DeclarationsCorrect(next, ds[1..], RunBody(stmts, env).value, m1);
      ExecAppend(m, body, rest);
    } else {
      DeclarationsCorrect(next, ds[1..], env, m);
      ExecAppendFails(m, body, rest);
    }
  }

  /** A variable declaration: the new slot lies past every earlier one and still holds 0. */
  lemma VariableCorrect(st: GenState, name: string, typ: string, fin: GenState, env: map<string, int>, m: Machine)
    requires DeclarationStep(st, Variable(name, typ)).Ok? && VAR_SIZES[typ] >= 2
    requires DeclarationStep(st, Variable(name, typ)).value.memPoolOffset <= fin.memPoolOffset
    requires Invariant(st, fin, env, m)
    ensures Invariant(DeclarationStep(st, Variable(name, typ)).value, fin, env[name := 0], m)
  {
    var next := DeclarationStep(st, Variable(name, typ)).value;
    StepSpaced(st, Variable(name, typ), 2);
    var off := st.memPoolOffset;
    assert m.memory[off] == 0 && m.memory[off + 1] == 0;
    forall n | n in next.varOffsets
      ensures SlotInside(next.varOffsets[n], |m.memory|) && MemRead(m.memory, next.varOffsets[n]) == env[name := 0][n]
    {
      if n != name {
        assert next.varOffsets[n] == st.varOffsets[n];
      }
    }
  }

  /** A function declaration: its body's code runs on the variables declared so far. */
  lemma FunctionCorrect(st: GenState, stmts: seq<Statement>, fin: GenState, env: map<string, int>, m: Machine)
    requires BodyCode(stmts, st.varOffsets).Ok? && Invariant(st, fin, env, m)
    ensures BodyOk(stmts, env.Keys)
    ensures CodeInBounds(BodyCode(stmts, st.varOffsets).value, |m.memory|)
    ensures Exec(m, BodyCode(stmts, st.varOffsets).value).Ok? <==> RunBody(stmts, env).Ok?
    ensures RunBody(stmts, env).Err? ==> Exec(m, BodyCode(stmts, st.varOffsets).value).error == RunBody(stmts, env).error
    ensures RunBody(stmts, env).Ok? ==>
              Invariant(st, fin, RunBody(stmts, env).value, Exec(m, BodyCode(stmts, st.varOffsets).value).value)
              && Exec(m, BodyCode(stmts, st.varOffsets).value).value.stack == m.stack
  {
    BodyCodeOkKeys(stmts, st.varOffsets);
    BodyCorrect(stmts, st.varOffsets, env, st.memPoolOffset, m);
  }

  /**
   * The generated code, run on the zero-filled pool it declares, ends with
   * an empty stack and every variable of the final symbol table holding the
   * value the reference semantics gives it; it fails exactly when, and with
   * the error that, the reference semantics does. Variables are at least two
   * bytes wide, since LOAD and STORE always move two bytes.
   */
  lemma ProgramCorrect(p: Program)
    requires Generate(p).Ok? && WidthsAtLeast(p.declarations, 2)
    ensures DeclsOk(p.declarations, {})
    ensures var c := Generate(p).value;
            0 <= c.memPoolSize && CodeInBounds(c.opcodes, c.memPoolSize)
    ensures var c := Generate(p).value;
            var run := Exec(Machine(Zeros(c.memPoolSize), []), c.opcodes);
            var reference := RunProgram(p);
            (run.Ok? <==> reference.Ok?)
            && (reference.Err? ==> run.error == reference.error)
            && (reference.Ok? ==> run.value.stack == [] && Represents(run.value.memory, SymbolTable(p), reference.value))
  {
    var st := ProgramStart([]);
    var ds := p.declarations;
    var fin := Declarations(st, ds).value;
    DeclarationsLayout(st, ds);
    WidthsNonNegative(ds);
    var m := Machine(Zeros(fin.memPoolOffset), []);
    var empty: map<string, int> := map[];
    assert empty.Keys == {};
    DeclarationsCorrect(st, ds, empty, m);
    assert NewCode(st, ds) == fin.opcodes;
  }

  lemma {:induction false} WidthsNonNegative(ds: seq<Declaration>)
    ensures Widths(ds) >= 0
  {
    if ds != [] {
      WidthsNonNegative(ds[1..]);
    }
  }
}
