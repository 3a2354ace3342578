/**
 * The code generator: one pass over the top-level declarations of a parsed
 * program. Variables get byte offsets in the memory pool from a width table;
 * function bodies are lowered, statement by statement, into one flat list of
 * instructions.
 *
 * The pure functions (ExpressionCode, StatementCode, BodyCode,
 * DeclarationStep, Declarations, Generate) say what the generator produces;
 * the class CodeGenerator is the generator itself, with the fields its
 * methods update, and each method is proved to do what its function says.
 */
module Compiler {
  import opened Wrappers
  import opened BytecodeFile

  // ---------------------------------------------------------------------------
  // The parsed program
  // ---------------------------------------------------------------------------

  /**
   * Expression nodes, by the class name the generator dispatches on. An
   * `Expression` holds its operands and, between them, the operator token;
   * the token is a plain string, whose class name is "str". `OtherExpr` is any
   * node of another class.
   */
  datatype Expr =
    | Expression(ops: seq<Expr>)
    | Term(ops: seq<Expr>)
    | VariableRef(name: string)
    | Constant(value: int)
    | Operator(symbol: string)
    | OtherExpr(kind: string)

  datatype Statement =
    | Assignment(variableName: string, value: Expr)
    | OtherStatement(kind: string)

  datatype Declaration =
    | Variable(name: string, typ: string)
    | Function(name: string, statements: seq<Statement>)
    | OtherDeclaration(kind: string)

  datatype Program = Program(declarations: seq<Declaration>)

  /**
   * Why generation stops: a type missing from the width table or a name
   * missing from the symbol table (failed dictionary lookups), a node of an
   * unimplemented class (NotImplementedError naming the class), an
   * `Expression` with neither 1 nor 3 operands (the generator evaluates an
   * undefined name there), and a `Term` without operands (indexing an empty
   * list).
   */
  datatype CompileError =
    | UnknownType(typ: string)
    | UndefinedSymbol(name: string)
    | Unsupported(kind: string)
    | BadOperandCount(count: nat)
    | EmptyTerm

  /** Bytes a variable of each type takes in the memory pool. */
  const VAR_SIZES: map<string, int> := map["s8" := 1, "u8" := 1, "s16" := 2, "u16" := 2, "s32" := 4, "u32" := 4]

  /** Every instruction has its catalog arity, so save's assertion holds for it. */
  predicate AllCatalogArity(code: seq<Instr>) {
    forall i :: 0 <= i < |code| ==> HasCatalogArity(code[i])
  }

  lemma CatalogArityAppend(a: seq<Instr>, b: seq<Instr>)
    requires AllCatalogArity(a) && AllCatalogArity(b)
    ensures AllCatalogArity(a + b)
  {
    assert forall i :: |a| <= i < |a + b| ==> (a + b)[i] == b[i - |a|];
  }

  // ---------------------------------------------------------------------------
  // Expressions and statements
  // ---------------------------------------------------------------------------

  /**
   * compile_expression: a 1-operand Expression and a Term compile their first
   * operand; a 3-operand Expression compiles its left operand, then its right
   * one, then emits ADD whatever the operator token is; a variable reference
   * emits LOAD of its offset and a constant emits CONST of its value.
   */
  function ExpressionCode(e: Expr, offsets: map<string, int>): (r: Result<seq<Instr>, CompileError>)
    ensures r.Ok? ==> |r.value| >= 1 && AllCatalogArity(r.value)
    decreases e
  {
    match e
    case Expression(ops) =>
      if |ops| == 1 then ExpressionCode(ops[0], offsets)
      else if |ops| == 3 then
        (match ExpressionCode(ops[0], offsets)
         case Err(err) => Err(err)
         case Ok(left) =>
           (match ExpressionCode(ops[2], offsets)
            case Err(err) => Err(err)
            case Ok(right) =>
              NumOperandsCatalog();
              CatalogArityAppend(left, right);
              CatalogArityAppend(left + right, [Instr(OP_ADD, [1])]);
              Ok(left + right + [Instr(OP_ADD, [1])])))
      else Err(BadOperandCount(|ops|))
    case Term(ops) =>
      if |ops| == 0 then Err(EmptyTerm) else ExpressionCode(ops[0], offsets)
    case VariableRef(name) =>
      NumOperandsCatalog();
      if name in offsets then Ok([Instr(OP_LOAD, [offsets[name], 1])]) else Err(UndefinedSymbol(name))
    case Constant(value) =>
      NumOperandsCatalog();
      Ok([Instr(OP_CONST, [value])])
    case Operator(_) => Err(Unsupported("str"))
    case OtherExpr(kind) => Err(Unsupported(kind))
  }

  /** The node shapes the generator implements, independently of the symbol table. */
  predicate Supported(e: Expr)
    decreases e
  {
    match e
    case Expression(ops) =>
      (|ops| == 1 && Supported(ops[0])) || (|ops| == 3 && Supported(ops[0]) && Supported(ops[2]))
    case Term(ops) => |ops| > 0 && Supported(ops[0])
    case VariableRef(_) => true
    case Constant(_) => true
    case Operator(_) => false
    case OtherExpr(_) => false
  }

  /** The variable names the compiled parts of an expression read. */
  function Refs(e: Expr): set<string>
    decreases e
  {
    match e
    case Expression(ops) =>
      if |ops| == 1 then Refs(ops[0])
      else if |ops| == 3 then Refs(ops[0]) + Refs(ops[2])
      else {}
    case Term(ops) => if |ops| > 0 then Refs(ops[0]) else {}
    case VariableRef(name) => {name}
    case Constant(_) => {}
    case Operator(_) => {}
    case OtherExpr(_) => {}
  }

  /** An expression compiles exactly when its shape is supported and every name it reads is declared. */
  lemma {:induction false} ExpressionCodeOk(e: Expr, offsets: map<string, int>)
    ensures ExpressionCode(e, offsets).Ok? <==> Supported(e) && Refs(e) <= offsets.Keys
    decreases e
  {
    match e
    case Expression(ops) =>
      if |ops| == 1 {
        ExpressionCodeOk(ops[0], offsets);
      } else if |ops| == 3 {
        ExpressionCodeOk(ops[0], offsets);
        ExpressionCodeOk(ops[2], offsets);
      }
    case Term(ops) =>
      if |ops| > 0 {
        ExpressionCodeOk(ops[0], offsets);
      }
    case VariableRef(_) =>
    case Constant(_) =>
    case Operator(_) =>
    case OtherExpr(_) =>
  }

  /** The operator token of a 3-operand Expression never affects the code. */
  lemma OperatorIgnored(left: Expr, op1: Expr, op2: Expr, right: Expr, offsets: map<string, int>)
    ensures ExpressionCode(Expression([left, op1, right]), offsets) == ExpressionCode(Expression([left, op2, right]), offsets)
  {
  }

  /**
   * compile_statement: an assignment compiles its value, then looks up its
   * target and emits STORE of the target's offset.
   */
  function StatementCode(s: Statement, offsets: map<string, int>): (r: Result<seq<Instr>, CompileError>)
    ensures r.Ok? ==> AllCatalogArity(r.value)
    ensures r.Ok? ==> s.Assignment? && s.variableName in offsets
    ensures r.Ok? ==> |r.value| >= 1 && r.value[|r.value| - 1] == Instr(OP_STORE, [offsets[s.variableName], 1])
  {
    match s
    case Assignment(target, value) =>
      (match ExpressionCode(value, offsets)
       case Err(err) => Err(err)
       case Ok(code) =>
         if target !in offsets then Err(UndefinedSymbol(target))
         else
           NumOperandsCatalog();
           CatalogArityAppend(code, [Instr(OP_STORE, [offsets[target], 1])]);
           Ok(code + [Instr(OP_STORE, [offsets[target], 1])]))
    case OtherStatement(kind) => Err(Unsupported(kind))
  }

  /** A statement compiles exactly when it is an assignment of a supported expression to a declared name, reading declared names. */
  lemma StatementCodeOk(s: Statement, offsets: map<string, int>)
    ensures StatementCode(s, offsets).Ok? <==>
              s.Assignment? && Supported(s.value) && Refs(s.value) <= offsets.Keys && s.variableName in offsets
  {
    if s.Assignment? {
      ExpressionCodeOk(s.value, offsets);
    }
  }

  /** compile_function: the statements of a body, compiled in order and appended to one list. */
  function BodyCode(stmts: seq<Statement>, offsets: map<string, int>): (r: Result<seq<Instr>, CompileError>)
    ensures r.Ok? ==> AllCatalogArity(r.value)
  {
    if stmts == [] then Ok([])
    else
      match StatementCode(stmts[0], offsets)
      case Err(err) => Err(err)
      case Ok(first) =>
        match BodyCode(stmts[1..], offsets)
        case Err(err) => Err(err)
        case Ok(more) =>
          CatalogArityAppend(first, more);
          Ok(first + more)
  }

  /** A body compiles exactly when each of its statements does. */
  lemma {:induction false} BodyCodeOk(stmts: seq<Statement>, offsets: map<string, int>)
    ensures BodyCode(stmts, offsets).Ok? <==> forall i :: 0 <= i < |stmts| ==> StatementCode(stmts[i], offsets).Ok?
  {
    if stmts != [] {
      BodyCodeOk(stmts[1..], offsets);
      assert forall i :: 1 <= i < |stmts| ==> stmts[i] == stmts[1..][i - 1];
    }
  }

  // ---------------------------------------------------------------------------
  // Declarations
  // ---------------------------------------------------------------------------

  /** The generator's state: the next free pool offset, the symbol table and the code so far. */
  datatype GenState = GenState(memPoolOffset: int, varOffsets: map<string, int>, opcodes: seq<Instr>)

  /**
   * compile_variable and compile_function: a variable takes the next free
   * offset and advances it by its width (a redeclared name is moved to the new
   * offset); a function appends its body's code.
   */
  function DeclarationStep(st: GenState, d: Declaration): (r: Result<GenState, CompileError>)
    ensures r.Ok? ==> d.Variable? || d.Function?
    ensures r.Ok? && d.Variable? ==> d.typ in VAR_SIZES && r.value.memPoolOffset == st.memPoolOffset + VAR_SIZES[d.typ]
    ensures r.Ok? && d.Function? ==> r.value.memPoolOffset == st.memPoolOffset && r.value.varOffsets == st.varOffsets
  {
    match d
    case Variable(name, typ) =>
      if typ !in VAR_SIZES then Err(UnknownType(typ))
      else Ok(GenState(st.memPoolOffset + VAR_SIZES[typ], st.varOffsets[name := st.memPoolOffset], st.opcodes))
    case Function(_, stmts) =>
      (match BodyCode(stmts, st.varOffsets)
       case Err(err) => Err(err)
       case Ok(code) => Ok(st.(opcodes := st.opcodes + code)))
    case OtherDeclaration(kind) => Err(Unsupported(kind))
  }

  /** The declaration loop of compile_program, from a given state. */
  function Declarations(st: GenState, ds: seq<Declaration>): (r: Result<GenState, CompileError>)
    decreases ds
  {
    if ds == [] then Ok(st)
    else
      match DeclarationStep(st, ds[0])
      case Err(err) => Err(err)
      case Ok(next) => Declarations(next, ds[1..])
  }

  /** The start of compile_program: an empty pool and an empty symbol table. */
  function ProgramStart(opcodes: seq<Instr>): GenState {
    GenState(0, map[], opcodes)
  }

  /**
   * compile: generation from an empty instruction list, giving the container
   * that is then saved: the final pool offset as the pool size, and the code.
   */
  function Generate(p: Program): (r: Result<Bytecode, CompileError>)
    ensures r.Ok? ==> AllCatalogArity(r.value.opcodes)
  {
    match Declarations(ProgramStart([]), p.declarations)
    case Err(err) => Err(err)
    case Ok(st) =>
      DeclarationsArity(ProgramStart([]), p.declarations);
      Ok(Bytecode(st.memPoolOffset, st.opcodes))
  }

  /** Generation keeps every instruction at its catalog arity. */
  lemma {:induction false} DeclarationsArity(st: GenState, ds: seq<Declaration>)
    requires AllCatalogArity(st.opcodes) && Declarations(st, ds).Ok?
    ensures AllCatalogArity(Declarations(st, ds).value.opcodes)
    decreases ds
  {
    if ds != [] {
      var next := DeclarationStep(st, ds[0]).value;
      if ds[0].Function? {
        CatalogArityAppend(st.opcodes, BodyCode(ds[0].statements, st.varOffsets).value);
      }
      DeclarationsArity(next, ds[1..]);
    }
  }

  // ---------------------------------------------------------------------------
  // Variable layout
  // ---------------------------------------------------------------------------

  /** The total width of the variables declared in `ds`, all of whose types are in the table. */
  function Widths(ds: seq<Declaration>): int {
    if ds == [] then 0
    else (if ds[0].Variable? && ds[0].typ in VAR_SIZES then VAR_SIZES[ds[0].typ] else 0) + Widths(ds[1..])
  }

  /** The names of the variables declared in `ds`. */
  function VarNames(ds: seq<Declaration>): set<string> {
    if ds == [] then {} else (if ds[0].Variable? then {ds[0].name} else {}) + VarNames(ds[1..])
  }

  /**
   * Declarations end with the pool advanced by the widths of all the
   * variables, and with a symbol table that has exactly one more entry per
   * newly declared name.
   */
  lemma {:induction false} DeclarationsLayout(st: GenState, ds: seq<Declaration>)
    requires Declarations(st, ds).Ok?
    ensures Declarations(st, ds).value.memPoolOffset == st.memPoolOffset + Widths(ds)
    ensures Declarations(st, ds).value.varOffsets.Keys == st.varOffsets.Keys + VarNames(ds)
    decreases ds
  {
    if ds != [] {
      DeclarationsLayout(DeclarationStep(st, ds[0]).value, ds[1..]);
    }
  }

  /**
   * Offsets are prefix sums: a variable that is not declared again later sits
   * at the pool offset where the declarations started plus the widths of the
   * variables declared before it.
   */
  lemma {:induction false} DeclarationsOffsets(st: GenState, ds: seq<Declaration>, i: nat)
    requires Declarations(st, ds).Ok? && i < |ds| && ds[i].Variable?
    requires forall j :: i < j < |ds| ==> !(ds[j].Variable? && ds[j].name == ds[i].name)
    ensures ds[i].name in Declarations(st, ds).value.varOffsets
    ensures Declarations(st, ds).value.varOffsets[ds[i].name] == st.memPoolOffset + Widths(ds[..i])
    decreases ds
  {
    var next := DeclarationStep(st, ds[0]).value;
    if i == 0 {
      KeepsOffset(next, ds[1..], ds[0].name);
    } else {
      assert forall j :: i - 1 < j < |ds[1..]| ==> ds[1..][j] == ds[j + 1];
      DeclarationsOffsets(next, ds[1..], i - 1);
      assert ds[..i] == [ds[0]] + ds[1..][..i - 1];
    }
  }

  /** A name that `ds` does not declare keeps its offset. */
  lemma {:induction false} KeepsOffset(st: GenState, ds: seq<Declaration>, name: string)
    requires Declarations(st, ds).Ok? && name in st.varOffsets
    requires forall j :: 0 <= j < |ds| ==> !(ds[j].Variable? && ds[j].name == name)
    ensures name in Declarations(st, ds).value.varOffsets
    ensures Declarations(st, ds).value.varOffsets[name] == st.varOffsets[name]
    decreases ds
  {
    if ds != [] {
      KeepsOffset(DeclarationStep(st, ds[0]).value, ds[1..], name);
    }
  }

  /**
   * Every variable in the symbol table owns `w` bytes from its offset, inside
   * the pool, and no two names' bytes overlap.
   */
  predicate Spaced(st: GenState, w: int) {
    0 <= st.memPoolOffset
    && (forall n :: n in st.varOffsets ==> 0 <= st.varOffsets[n] && st.varOffsets[n] + w <= st.memPoolOffset)
    && (forall a, b :: a in st.varOffsets && b in st.varOffsets && a != b ==>
          st.varOffsets[a] + w <= st.varOffsets[b] || st.varOffsets[b] + w <= st.varOffsets[a])
  }

  /** Every variable declared in `ds` has a type of width at least `w`. */
  predicate WidthsAtLeast(ds: seq<Declaration>, w: int) {
    forall i :: 0 <= i < |ds| && ds[i].Variable? && ds[i].typ in VAR_SIZES ==> VAR_SIZES[ds[i].typ] >= w
  }

  /**
   * Offsets increase monotonically: when every variable is at least `w`
   * bytes wide, the symbol table stays spaced by `w`.
   */
  lemma {:induction false} DeclarationsSpaced(st: GenState, ds: seq<Declaration>, w: int)
    requires Declarations(st, ds).Ok? && Spaced(st, w) && WidthsAtLeast(ds, w)
    ensures Spaced(Declarations(st, ds).value, w)
    decreases ds
  {
    if ds != [] {
      var next := DeclarationStep(st, ds[0]).value;
      assert WidthsAtLeast(ds[1..], w) by {
        forall i | 0 <= i < |ds[1..]| && ds[1..][i].Variable? && ds[1..][i].typ in VAR_SIZES
          ensures VAR_SIZES[ds[1..][i].typ] >= w
        {
          assert ds[1..][i] == ds[i + 1];
        }
      }
      StepSpaced(st, ds[0], w);
      DeclarationsSpaced(next, ds[1..], w);
    }
  }

  lemma StepSpaced(st: GenState, d: Declaration, w: int)
    requires DeclarationStep(st, d).Ok? && Spaced(st, w)
    requires d.Variable? ==> VAR_SIZES[d.typ] >= w
    ensures Spaced(DeclarationStep(st, d).value, w)
  {
    var next := DeclarationStep(st, d).value;
    if d.Variable? {
      assert next.memPoolOffset >= st.memPoolOffset + w;
      forall n | n in next.varOffsets
        ensures 0 <= next.varOffsets[n] && next.varOffsets[n] + w <= next.memPoolOffset
      {
        if n != d.name {
          assert next.varOffsets[n] == st.varOffsets[n];
        }
      }
      forall a, b | a in next.varOffsets && b in next.varOffsets && a != b
        ensures next.varOffsets[a] + w <= next.varOffsets[b] || next.varOffsets[b] + w <= next.varOffsets[a]
      {
        if a != d.name && b != d.name {
          assert next.varOffsets[a] == st.varOffsets[a] && next.varOffsets[b] == st.varOffsets[b];
        }
      }
    }
  }

  // ---------------------------------------------------------------------------
  // Which programs compile
  // ---------------------------------------------------------------------------

  /**
   * A program the generator accepts: every declaration is a variable of a
   * type in the width table, or a function whose statements are assignments
   * of supported expressions, where every name read or assigned is a
   * variable declared earlier in the program.
   */
  predicate WellFormedAt(ds: seq<Declaration>, i: nat)
    requires i < |ds|
  {
    match ds[i]
    case Variable(_, typ) => typ in VAR_SIZES
    case Function(_, stmts) =>
      forall k :: 0 <= k < |stmts| ==>
        stmts[k].Assignment? && Supported(stmts[k].value)
        && Refs(stmts[k].value) + {stmts[k].variableName} <= VarNames(ds[..i])
    case OtherDeclaration(_) => false
  }

  predicate WellFormed(p: Program) {
    forall i :: 0 <= i < |p.declarations| ==> WellFormedAt(p.declarations, i)
  }

  /** A body compiles exactly when its statements are supported assignments over names in `keys`. */
  lemma BodyCodeOkKeys(stmts: seq<Statement>, offsets: map<string, int>)
    ensures BodyCode(stmts, offsets).Ok? <==>
              forall k :: 0 <= k < |stmts| ==>
                stmts[k].Assignment? && Supported(stmts[k].value)
                && Refs(stmts[k].value) + {stmts[k].variableName} <= offsets.Keys
  {
    BodyCodeOk(stmts, offsets);
    forall k | 0 <= k < |stmts| {
      StatementCodeOk(stmts[k], offsets);
    }
  }

  /** From the state reached after `ds[..j]`, the rest compiles exactly when each remaining declaration is well formed. */
  lemma {:induction false} DeclarationsOkFrom(st: GenState, ds: seq<Declaration>, j: nat)
    requires j <= |ds| && st.varOffsets.Keys == VarNames(ds[..j])
    ensures Declarations(st, ds[j..]).Ok? <==> forall i :: j <= i < |ds| ==> WellFormedAt(ds, i)
    decreases |ds| - j
  {
    if j < |ds| {
      DeclarationsNext(st, ds, j);
      StepOk(st, ds[j], ds, j);
      var r := DeclarationStep(st, ds[j]);
      if r.Ok? {
        assert ds[..j + 1] == ds[..j] + [ds[j]];
        VarNamesSnoc(ds[..j], ds[j]);
        DeclarationsOkFrom(r.value, ds, j + 1);
      }
    }
  }

  lemma StepOk(st: GenState, d: Declaration, ds: seq<Declaration>, i: nat)
    requires i < |ds| && ds[i] == d && st.varOffsets.Keys == VarNames(ds[..i])
    ensures DeclarationStep(st, d).Ok? <==> WellFormedAt(ds, i)
    ensures DeclarationStep(st, d).Ok? && d.Variable? ==> DeclarationStep(st, d).value.varOffsets.Keys == st.varOffsets.Keys + {d.name}
    ensures DeclarationStep(st, d).Ok? && d.Function? ==> DeclarationStep(st, d).value.varOffsets == st.varOffsets
  {
    if d.Function? {
      BodyCodeOkKeys(d.statements, st.varOffsets);
    }
  }

  lemma {:induction false} VarNamesSnoc(pre: seq<Declaration>, d: Declaration)
    ensures VarNames(pre + [d]) == VarNames(pre) + (if d.Variable? then {d.name} else {})
  {
    if pre != [] {
      assert (pre + [d])[1..] == pre[1..] + [d];
      VarNamesSnoc(pre[1..], d);
    } else {
      assert [] + [d] == [d];
    }
  }

  /**
   * The generator accepts exactly the well-formed programs; in particular a
   * name must be declared before a function that reads or assigns it.
   */
  lemma GenerateOk(p: Program)
    ensures Generate(p).Ok? <==> WellFormed(p)
  {
    assert p.declarations[..0] == [] && p.declarations[0..] == p.declarations;
    DeclarationsOkFrom(ProgramStart([]), p.declarations, 0);
  }

  /** Once the declarations before it have gone through, a declaration of another class stops the loop with its kind. */
  lemma {:induction false} DeclarationsRejectOther(st: GenState, ds: seq<Declaration>, i: nat)
    requires i < |ds| && ds[i].OtherDeclaration? && Declarations(st, ds[..i]).Ok?
    ensures Declarations(st, ds) == Err(Unsupported(ds[i].kind))
    decreases i
  {
    if i > 0 {
      assert ds[..i][0] == ds[0] && ds[..i][1..] == ds[1..][..i - 1];
      var next := DeclarationStep(st, ds[0]).value;
      DeclarationsRejectOther(next, ds[1..], i - 1);
    }
  }

  /**
   * A declaration of a class other than Variable or Function stops generation
   * with its kind, wherever it occurs, once the declarations before it compile.
   */
  lemma GenerateRejectsOther(p: Program, i: nat)
    requires i < |p.declarations| && p.declarations[i].OtherDeclaration?
    requires Generate(Program(p.declarations[..i])).Ok?
    ensures Generate(p) == Err(Unsupported(p.declarations[i].kind))
  {
    DeclarationsRejectOther(ProgramStart([]), p.declarations, i);
  }

  // ---------------------------------------------------------------------------
  // The generator object
  // ---------------------------------------------------------------------------

  /** `r` reports the outcome of `spec`: success exactly when `spec` succeeds, with the same error otherwise. */
  predicate Reports<T>(r: Outcome<CompileError>, spec: Result<T, CompileError>) {
    (r.Pass? <==> spec.Ok?) && (r.Fail? ==> r.error == spec.error)
  }

  class CodeGenerator {
    var memPoolOffset: int
    var varOffsets: map<string, int>
    var opcodes: seq<Instr>

    function State(): GenState
      reads this
    {
      GenState(memPoolOffset, varOffsets, opcodes)
    }

    /** A generator with no code; the pool and the symbol table are set up by each CompileProgram. */
    constructor()
      ensures State() == ProgramStart([])
    {
      memPoolOffset := 0;
      varOffsets := map[];
      opcodes := [];
    }

    /** emit: append one instruction. */
    method Emit(opcode: int, operands: seq<int>)
      modifies this
      ensures State() == old(State()).(opcodes := old(opcodes) + [Instr(opcode, operands)])
    {
      opcodes := opcodes + [Instr(opcode, operands)];
    }

    /** compile_expression, appending the expression's code. */
    method CompileExpression(e: Expr) returns (r: Outcome<CompileError>)
      modifies this
      ensures memPoolOffset == old(memPoolOffset) && varOffsets == old(varOffsets)
      ensures Reports(r, ExpressionCode(e, varOffsets))
      ensures r.Pass? ==> opcodes == old(opcodes) + ExpressionCode(e, varOffsets).value
      decreases e
    {
      match e
      case Expression(ops) =>
        if |ops| == 1 {
          r := CompileExpression(ops[0]);
        } else if |ops| == 3 {
          r := CompileExpression(ops[0]);
          if r.Fail? {
            return;
          }
          r := CompileExpression(ops[2]);
          if r.Fail? {
            return;
          }
          Emit(OP_ADD, [1]);
          assert opcodes == old(opcodes) + ExpressionCode(ops[0], varOffsets).value
                            + ExpressionCode(ops[2], varOffsets).value + [Instr(OP_ADD, [1])];
        } else {
          r := Fail(BadOperandCount(|ops|));
        }
      case Term(ops) =>
        if |ops| == 0 {
          r := Fail(EmptyTerm);
        } else {
          r := CompileExpression(ops[0]);
        }
      case VariableRef(name) =>
        if name !in varOffsets {
          return Fail(UndefinedSymbol(name));
        }
        Emit(OP_LOAD, [varOffsets[name], 1]);
        r := Pass;
      case Constant(value) =>
        Emit(OP_CONST, [value]);
        r := Pass;
      case Operator(_) =>
        r := Fail(Unsupported("str"));
      case OtherExpr(kind) =>
        r := Fail(Unsupported(kind));
    }

    /** compile_statement: the value's code, the target lookup, then STORE. */
    method CompileStatement(s: Statement) returns (r: Outcome<CompileError>)
      modifies this
      ensures memPoolOffset == old(memPoolOffset) && varOffsets == old(varOffsets)
      ensures Reports(r, StatementCode(s, varOffsets))
      ensures r.Pass? ==> opcodes == old(opcodes) + StatementCode(s, varOffsets).value
    {
      match s
      case Assignment(target, value) =>
        r := CompileExpression(value);
        if r.Fail? {
          return;
        }
        if target !in varOffsets {
          return Fail(UndefinedSymbol(target));
        }
        Emit(OP_STORE, [varOffsets[target], 1]);
      case OtherStatement(kind) =>
        r := Fail(Unsupported(kind));
    }

    /** compile_function: each statement of the body in order. */
    method CompileFunction(statements: seq<Statement>) returns (r: Outcome<CompileError>)
      modifies this
      ensures memPoolOffset == old(memPoolOffset) && varOffsets == old(varOffsets)
      ensures Reports(r, BodyCode(statements, varOffsets))
      ensures r.Pass? ==> opcodes == old(opcodes) + BodyCode(statements, varOffsets).value
    {
      var k := 0;
      assert statements[0..] == statements;
      PrependNoCode(BodyCode(statements, varOffsets));
      assert opcodes[|old(opcodes)|..] == [];
      while k < |statements|
        invariant k <= |statements|
        invariant memPoolOffset == old(memPoolOffset) && varOffsets == old(varOffsets)
        invariant |old(opcodes)| <= |opcodes| && opcodes[..|old(opcodes)|] == old(opcodes)
        invariant PrependCode(opcodes[|old(opcodes)|..], BodyCode(statements[k..], varOffsets)) == BodyCode(statements, varOffsets)
      {
        BodyCodeNext(statements, k, opcodes[|old(opcodes)|..], varOffsets);
        var before := opcodes;
        r := CompileStatement(statements[k]);
        if r.Fail? {
          return;
        }
        assert opcodes[|old(opcodes)|..] == before[|old(opcodes)|..] + StatementCode(statements[k], varOffsets).value;
        k := k + 1;
      }
      assert opcodes[|old(opcodes)|..] + [] == opcodes[|old(opcodes)|..];
      assert opcodes == old(opcodes) + opcodes[|old(opcodes)|..];
      r := Pass;
    }

    /** compile_variable: place the variable at the next free offset and advance by its width. */
    method CompileVariable(name: string, typ: string) returns (r: Outcome<CompileError>)
      modifies this
      ensures Reports(r, DeclarationStep(old(State()), Variable(name, typ)))
      ensures r.Pass? ==> State() == DeclarationStep(old(State()), Variable(name, typ)).value
      ensures r.Fail? ==> State() == old(State())
    {
      if typ !in VAR_SIZES {
        return Fail(UnknownType(typ));
      }
      var size := VAR_SIZES[typ];
      var offset := memPoolOffset;
      varOffsets := varOffsets[name := offset];
      memPoolOffset := memPoolOffset + size;
      r := Pass;
    }

    /** compile_program: reset the pool and the symbol table, then each declaration in order. */
    method CompileProgram(p: Program) returns (r: Outcome<CompileError>)
      modifies this
      ensures Reports(r, Declarations(ProgramStart(old(opcodes)), p.declarations))
      ensures r.Pass? ==> State() == Declarations(ProgramStart(old(opcodes)), p.declarations).value
    {
      memPoolOffset := 0;
      varOffsets := map[];
      var ds := p.declarations;
      var i := 0;
      assert ds[0..] == ds;
      while i < |ds|
        invariant i <= |ds|
        decreases |ds| - i
        invariant Declarations(State(), ds[i..]) == Declarations(ProgramStart(old(opcodes)), ds)
      {
        DeclarationsNext(State(), ds, i);
        match ds[i] {
          case Variable(name, typ) =>
            r := CompileVariable(name, typ);
          case Function(_, statements) =>
            r := CompileFunction(statements);
          case OtherDeclaration(kind) =>
            r := Fail(Unsupported(kind));
        }
        if r.Fail? {
          return;
        }
        i := i + 1;
      }
      r := Pass;
    }

    /** compile: start from an empty instruction list and return the container to be saved. */
    method Compile(p: Program) returns (r: Result<Bytecode, CompileError>)
      modifies this
      ensures r == Generate(p)
    {
      opcodes := [];
      var o := CompileProgram(p);
      if o.Fail? {
        return Err(o.error);
      }
      return Ok(Bytecode(memPoolOffset, opcodes));
    }
  }

  // ---------------------------------------------------------------------------
  // Loop steps
  // ---------------------------------------------------------------------------

  /** What a loop that already emitted `front` yields once the rest of the code, `r`, is produced. */
  function PrependCode(front: seq<Instr>, r: Result<seq<Instr>, CompileError>): Result<seq<Instr>, CompileError> {
    if r.Ok? then Ok(front + r.value) else r
  }

  lemma PrependNoCode(r: Result<seq<Instr>, CompileError>)
    ensures PrependCode([], r) == r
  {
    if r.Ok? {
      assert [] + r.value == r.value;
    }
  }

  /** The next statement either fails the rest of the body or extends what was emitted. */
  lemma BodyCodeNext(stmts: seq<Statement>, k: nat, front: seq<Instr>, offsets: map<string, int>)
    requires k < |stmts|
    ensures var first := StatementCode(stmts[k], offsets);
            PrependCode(front, BodyCode(stmts[k..], offsets)) ==
              if first.Err? then Err(first.error)
              else PrependCode(front + first.value, BodyCode(stmts[k + 1..], offsets))
  {
    assert stmts[k..][0] == stmts[k] && stmts[k..][1..] == stmts[k + 1..];
    var first := StatementCode(stmts[k], offsets);
    var rest := BodyCode(stmts[k + 1..], offsets);
    if first.Ok? && rest.Ok? {
      assert front + (first.value + rest.value) == front + first.value + rest.value;
    }
  }

  /** One declaration of the loop: the remaining declarations from the state after it. */
  lemma DeclarationsNext(st: GenState, ds: seq<Declaration>, i: nat)
    requires i < |ds|
    ensures Declarations(st, ds[i..]) ==
              match DeclarationStep(st, ds[i])
              case Err(err) => Err(err)
              case Ok(next) => Declarations(next, ds[i + 1..])
  {
    assert ds[i..][0] == ds[i] && ds[i..][1..] == ds[i + 1..];
  }
}
