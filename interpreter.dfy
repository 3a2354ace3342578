/**
 * The stack machine that runs a loaded container: a zero-filled memory pool
 * of the container's size, an unbounded stack of integers, and one pass over
 * the instruction list, in order, with no jumps.
 *
 * Step and Exec say what one instruction and a whole list do to a Machine;
 * the class Vm is the machine itself, whose Run is proved to follow Exec.
 */
module Interpreter {
  import opened Wrappers
  import opened BytecodeFile

  /**
   * Why a run stops: a pop from an empty stack, an opcode with no branch, an
   * operand list of the wrong shape for CONST, LOAD or STORE, and a STORE of
   * a value that does not fit a signed 16-bit slot.
   */
  datatype VmError =
    | StackUnderflow
    | NotImplemented(opcode: int)
    | BadOperands(opcode: int)
    | PackRange(value: int)

  /** The memory pool and the stack (top at the end). */
  datatype Machine = Machine(memory: seq<byte>, stack: seq<int>)

  /** The 2-byte slot at `offset` lies inside a memory of `size` bytes. */
  predicate SlotInside(offset: int, size: int) {
    0 <= offset && offset + 2 <= size
  }

  /** _load_mem: the signed 16-bit little-endian value at `offset`. */
  function MemRead(memory: seq<byte>, offset: int): (v: int)
    requires SlotInside(offset, |memory|)
    ensures IsS16(v)
  {
    UnpackS16(memory[offset], memory[offset + 1])
  }

  /**
   * _store_mem: the value packed into the slot at `offset`, every other byte
   * unchanged; a value outside the signed 16-bit range is refused before
   * anything is written.
   */
  function MemWrite(memory: seq<byte>, offset: int, value: int): (r: Result<seq<byte>, VmError>)
    requires SlotInside(offset, |memory|)
    ensures r.Ok? <==> IsS16(value)
    ensures r.Err? ==> r.error == PackRange(value)
    ensures r.Ok? ==> |r.value| == |memory|
    ensures r.Ok? ==> forall j :: 0 <= j < |memory| && j != offset && j != offset + 1 ==> r.value[j] == memory[j]
  {
    match PackS16(value)
    case Err(_) => Err(PackRange(value))
    case Ok(bytes) => Ok(memory[offset := bytes[0]][offset + 1 := bytes[1]])
  }

  /** A slot reads back the value last stored in it. */
  lemma ReadAfterWrite(memory: seq<byte>, offset: int, value: int)
    requires SlotInside(offset, |memory|) && IsS16(value)
    ensures MemRead(MemWrite(memory, offset, value).value, offset) == value
  {
    UnpackPackS16(value);
  }

  /** Storing into one slot leaves a slot that does not overlap it as it was. */
  lemma ReadAfterOtherWrite(memory: seq<byte>, offset: int, value: int, other: int)
    requires SlotInside(offset, |memory|) && SlotInside(other, |memory|) && IsS16(value)
    requires other + 2 <= offset || offset + 2 <= other
    ensures MemRead(MemWrite(memory, offset, value).value, other) == MemRead(memory, other)
  {
  }

  /** Storing the value a slot already holds changes nothing. */
  lemma WriteWhatIsRead(memory: seq<byte>, offset: int)
    requires SlotInside(offset, |memory|)
    ensures MemWrite(memory, offset, MemRead(memory, offset)) == Ok(memory)
  {
    var lo, hi := memory[offset], memory[offset + 1];
    PackUnpackS16(lo, hi);
    assert memory[offset := lo][offset + 1 := hi] == memory;
  }

  /** LOAD and STORE instructions of the usual shape address a slot inside memory. */
  predicate InBounds(ins: Instr, size: int) {
    (ins.opcode == OP_LOAD || ins.opcode == OP_STORE) && |ins.operands| == 2 ==> SlotInside(ins.operands[0], size)
  }

  predicate CodeInBounds(code: seq<Instr>, size: int) {
    forall i :: 0 <= i < |code| ==> InBounds(code[i], size)
  }

  /** How many values an instruction leaves on the stack, less those it takes. */
  function StackEffect(opcode: int): int {
    if opcode == OP_CONST || opcode == OP_LOAD then 1 else -1
  }

  /**
   * One pass of the loop in run: CONST pushes its first operand; LOAD pushes
   * the slot at its offset; STORE pops the top and stores it at its offset;
   * ADD pops the top (lhs) and the next (rhs) and pushes lhs + rhs, with no
   * wrap-around; any other opcode is not implemented.
   */
  function Step(m: Machine, ins: Instr): (r: Result<Machine, VmError>)
    requires InBounds(ins, |m.memory|)
    ensures r.Ok? ==> |r.value.memory| == |m.memory| && |r.value.stack| == |m.stack| + StackEffect(ins.opcode)
    ensures r.Ok? && ins.opcode != OP_STORE ==> r.value.memory == m.memory
  {
    var stack := m.stack;
    if ins.opcode == OP_CONST then
      if |ins.operands| == 0 then Err(BadOperands(OP_CONST))
      else Ok(m.(stack := stack + [ins.operands[0]]))
    else if ins.opcode == OP_LOAD then
      if |ins.operands| != 2 then Err(BadOperands(OP_LOAD))
      else Ok(m.(stack := stack + [MemRead(m.memory, ins.operands[0])]))
    else if ins.opcode == OP_STORE then
      if |ins.operands| != 2 then Err(BadOperands(OP_STORE))
      else if |stack| == 0 then Err(StackUnderflow)
      else
        (match MemWrite(m.memory, ins.operands[0], stack[|stack| - 1])
         case Err(err) => Err(err)
         case Ok(memory) => Ok(Machine(memory, stack[..|stack| - 1])))
    else if ins.opcode == OP_ADD then
      if |stack| < 2 then Err(StackUnderflow)
      else
        var lhs := stack[|stack| - 1];
        var rhs := stack[|stack| - 2];
        Ok(m.(stack := stack[..|stack| - 2] + [lhs + rhs]))
    else Err(NotImplemented(ins.opcode))
  }

  /** The whole loop of run over `code`, stopping at the first error. */
  function Exec(m: Machine, code: seq<Instr>): (r: Result<Machine, VmError>)
    requires CodeInBounds(code, |m.memory|)
    ensures r.Ok? ==> |r.value.memory| == |m.memory|
    decreases code
  {
    if code == [] then Ok(m)
    else
      match Step(m, code[0])
      case Err(err) => Err(err)
      case Ok(next) => Exec(next, code[1..])
  }

  /** Running `a + b` is running `a`, then `b` from where `a` left the machine. */
  lemma {:induction false} ExecAppend(m: Machine, a: seq<Instr>, b: seq<Instr>)
    requires CodeInBounds(a, |m.memory|) && CodeInBounds(b, |m.memory|)
    ensures CodeInBounds(a + b, |m.memory|)
    ensures Exec(m, a + b) == match Exec(m, a)
                              case Err(err) => Err(err)
                              case Ok(mid) => Exec(mid, b)
    decreases a
  {
    assert forall i :: 0 <= i < |a + b| ==> (a + b)[i] == if i < |a| then a[i] else b[i - |a|];
    if a == [] {
      assert a + b == b;
    } else {
      assert (a + b)[0] == a[0] && (a + b)[1..] == a[1..] + b;
      match Step(m, a[0])
      case Err(_) =>
      case Ok(next) =>
        ExecAppend(next, a[1..], b);
    }
  }

  /** An opcode outside the catalog is exactly what the machine refuses as not implemented. */
  lemma StepNotImplemented(m: Machine, ins: Instr)
    requires InBounds(ins, |m.memory|)
    ensures Step(m, ins) == Err(NotImplemented(ins.opcode)) <==> ins.opcode !in NUM_OPERANDS
  {
    NumOperandsCatalog();
  }

  /** An instruction with its catalog arity never fails for the shape of its operands. */
  lemma StepCatalogArity(m: Machine, ins: Instr)
    requires InBounds(ins, |m.memory|) && HasCatalogArity(ins)
    ensures Step(m, ins).Err? ==> Step(m, ins).error == StackUnderflow || Step(m, ins).error.PackRange?
  {
    NumOperandsCatalog();
  }

  /**
   * An instruction with its catalog arity fails on the stack exactly when it
   * pops more than is there: STORE on an empty stack, ADD with fewer than two values.
   */
  lemma StepUnderflow(m: Machine, ins: Instr)
    requires InBounds(ins, |m.memory|) && HasCatalogArity(ins)
    ensures Step(m, ins) == Err(StackUnderflow) <==>
              (ins.opcode == OP_STORE && |m.stack| == 0) || (ins.opcode == OP_ADD && |m.stack| < 2)
  {
    NumOperandsCatalog();
  }

  /**
   * The stack never runs dry: starting from `depth` values, every instruction
   * finds the values it takes (one for STORE, two for ADD).
   */
  predicate StackSafe(code: seq<Instr>, depth: int)
    decreases code
  {
    code == [] ||
    ((code[0].opcode == OP_CONST || code[0].opcode == OP_LOAD || depth >= (if code[0].opcode == OP_ADD then 2 else 1))
     && StackSafe(code[1..], depth + StackEffect(code[0].opcode)))
  }

  /**
   * Code whose instructions all have their catalog arity and whose stack
   * never runs dry can fail only by storing a value out of the 16-bit range.
   */
  lemma {:induction false} ExecOnlyRangeErrors(m: Machine, code: seq<Instr>)
    requires CodeInBounds(code, |m.memory|) && StackSafe(code, |m.stack|)
    requires forall i :: 0 <= i < |code| ==> HasCatalogArity(code[i])
    ensures Exec(m, code).Err? ==> Exec(m, code).error.PackRange?
    decreases code
  {
    if code != [] {
      StepCatalogArity(m, code[0]);
      match Step(m, code[0])
      case Err(_) =>
      case Ok(next) =>
        assert forall i :: 0 <= i < |code[1..]| ==> code[1..][i] == code[i + 1];
        ExecOnlyRangeErrors(next, code[1..]);
    }
  }

  /** The zero-filled memory pool of a freshly loaded container. */
  function Zeros(n: nat): (z: seq<byte>)
    ensures |z| == n && forall j :: 0 <= j < n ==> z[j] == 0
  {
    seq(n, _ => 0)
  }

  class Vm {
    var code: seq<Instr>
    var memory: array<byte>
    var stack: seq<int>

    function State(): Machine
      reads this, memory
    {
      Machine(memory[..], stack)
    }

    /** A machine with no code, no memory and an empty stack. */
    constructor()
      ensures code == [] && memory.Length == 0 && stack == []
    {
      code := [];
      memory := new byte[0];
      stack := [];
    }

    /**
     * load: take the container's code and a fresh zero-filled pool of its
     * size; the stack is left as it was.
     */
    method Load(c: Bytecode)
      requires 0 <= c.memPoolSize
      modifies this
      ensures code == c.opcodes && stack == old(stack)
      ensures fresh(memory) && memory[..] == Zeros(c.memPoolSize)
    {
      code := c.opcodes;
      memory := new byte[c.memPoolSize](_ => 0);
    }

    /** _load_mem. */
    method LoadMem(offset: int, typ: int) returns (value: int)
      requires SlotInside(offset, memory.Length)
      ensures value == MemRead(memory[..], offset)
    {
      value := UnpackS16(memory[offset], memory[offset + 1]);
    }

    /** _store_mem: memory changes only when the value packs. */
    method StoreMem(offset: int, typ: int, value: int) returns (r: Outcome<VmError>)
      requires SlotInside(offset, memory.Length)
      modifies memory
      ensures r.Pass? <==> MemWrite(old(memory[..]), offset, value).Ok?
      ensures r.Fail? ==> r.error == PackRange(value) && memory[..] == old(memory[..])
      ensures r.Pass? ==> memory[..] == MemWrite(old(memory[..]), offset, value).value
    {
      var data := PackS16(value);
      if data.Err? {
        return Fail(PackRange(value));
      }
      memory[offset] := data.value[0];
      memory[offset + 1] := data.value[1];
      r := Pass;
    }

    /** run: every instruction in order, stopping at the first error. */
    method Run() returns (r: Outcome<VmError>)
      requires CodeInBounds(code, memory.Length)
      modifies this, memory
      ensures code == old(code) && memory == old(memory)
      ensures r.Pass? <==> Exec(old(State()), code).Ok?
      ensures r.Fail? ==> r.error == Exec(old(State()), code).error
      ensures r.Pass? ==> State() == Exec(old(State()), code).value
    {
      var i := 0;
      assert code[0..] == code;
      while i < |code|
        invariant i <= |code| && code == old(code) && memory == old(memory)
        invariant CodeInBounds(code[i..], memory.Length)
        invariant Exec(State(), code[i..]) == Exec(old(State()), code)
      {
        var ins := code[i];
        assert code[i..][0] == ins && code[i..][1..] == code[i + 1..];
        var expected := Step(State(), ins);
        if ins.opcode == OP_CONST {
          if |ins.operands| == 0 {
            return Fail(BadOperands(OP_CONST));
          }
          stack := stack + [ins.operands[0]];
        } else if ins.opcode == OP_LOAD {
          if |ins.operands| != 2 {
            return Fail(BadOperands(OP_LOAD));
          }
          var value := LoadMem(ins.operands[0], ins.operands[1]);
          stack := stack + [value];
        } else if ins.opcode == OP_STORE {
          if |ins.operands| != 2 {
            return Fail(BadOperands(OP_STORE));
          }
          if |stack| == 0 {
            return Fail(StackUnderflow);
          }
          var value := stack[|stack| - 1];
          stack := stack[..|stack| - 1];
          r := StoreMem(ins.operands[0], ins.operands[1], value);
          if r.Fail? {
            return;
          }
        } else if ins.opcode == OP_ADD {
          if |stack| == 0 {
            return Fail(StackUnderflow);
          }
          var lhs := stack[|stack| - 1];
          stack := stack[..|stack| - 1];
          if |stack| == 0 {
            return Fail(StackUnderflow);
          }
          var rhs := stack[|stack| - 1];
          stack := stack[..|stack| - 1];
          stack := stack + [lhs + rhs];
        } else {
          return Fail(NotImplemented(ins.opcode));
        }
        assert State() == expected.value;
        i := i + 1;
      }
      r := Pass;
    }
  }

  /** The module-level run: a new machine, the container loaded, then run. */
  method RunContainer(c: Bytecode) returns (r: Outcome<VmError>, vm: Vm)
    requires 0 <= c.memPoolSize && CodeInBounds(c.opcodes, c.memPoolSize)
    ensures r.Pass? <==> Exec(Machine(Zeros(c.memPoolSize), []), c.opcodes).Ok?
    ensures r.Fail? ==> r.error == Exec(Machine(Zeros(c.memPoolSize), []), c.opcodes).error
    ensures r.Pass? ==> vm.State() == Exec(Machine(Zeros(c.memPoolSize), []), c.opcodes).value
  {
    vm := new Vm();
    vm.Load(c);
    r := vm.Run();
  }
}
