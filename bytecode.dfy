/**
 * The "DSL" bytecode container: the opcode catalog, the in-memory container
 * (memory-pool size plus an ordered instruction list), the little-endian
 * integer packers, and the binary encoder (`save`) and decoder (`load`).
 *
 * The byte stream is modelled as the whole sequence of bytes plus a cursor:
 * every reader takes the cursor and returns what it read together with the
 * cursor after the read.
 */
module BytecodeFile {
  import opened Wrappers

  /** One byte of the binary stream. */
  type byte = b: int | 0 <= b < 0x100

  predicate IsU8(v: int) { 0 <= v < 0x100 }
  predicate IsU16(v: int) { 0 <= v < 0x1_0000 }
  predicate IsS16(v: int) { -0x8000 <= v < 0x8000 }

  // ---------------------------------------------------------------------------
  // Opcode catalog
  // ---------------------------------------------------------------------------

  /** A row of the catalog: mnemonic, numeric code and the names of its operands. */
  datatype OpcodeEntry = OpcodeEntry(mnemonic: string, code: int, operandKinds: seq<string>)

  const OPCODES: seq<OpcodeEntry> := [
    OpcodeEntry("OP_LOAD", 1, ["offset", "typ"]),
    OpcodeEntry("OP_STORE", 2, ["offset", "typ"]),
    OpcodeEntry("OP_CONST", 3, ["s16"]),
    OpcodeEntry("OP_ADD", 4, ["ty"])
  ]

  /**
   * The dictionary built from the catalog, code to operand count. As with a
   * dictionary comprehension, a later row with the same code replaces an
   * earlier one.
   */
  function ArityTable(entries: seq<OpcodeEntry>): map<int, nat>
  {
    if entries == [] then map[]
    else
      var last := entries[|entries| - 1];
      ArityTable(entries[..|entries| - 1])[last.code := |last.operandKinds|]
  }

  const NUM_OPERANDS: map<int, nat> := ArityTable(OPCODES)

  // The codes the code generator and the VM use. Note that they swap the
  // codes the catalog lists for CONST and ADD (see OpcodeNumberClash).
  const OP_LOAD: int := 1
  const OP_STORE: int := 2
  const OP_ADD: int := 3
  const OP_CONST: int := 4

  /** The catalog gives codes 1 and 2 two operands, codes 3 and 4 one, and has no other code. */
  lemma NumOperandsCatalog()
    ensures NUM_OPERANDS == map[1 := 2, 2 := 2, 3 := 1, 4 := 1]
  {
    assert OPCODES[..0] == [];
    assert OPCODES[..1][..0] == OPCODES[..0];
    assert OPCODES[..2][..1] == OPCODES[..1];
    assert OPCODES[..3][..2] == OPCODES[..2];
    assert OPCODES[..4][..3] == OPCODES[..3];
    assert ArityTable(OPCODES[..1]) == map[1 := 2];
    assert ArityTable(OPCODES[..2]) == map[1 := 2, 2 := 2];
    assert ArityTable(OPCODES[..3]) == map[1 := 2, 2 := 2, 3 := 1];
    assert OPCODES[..4] == OPCODES;
  }

  /**
   * The catalog's row for code 3 is named OP_CONST and its row for code 4 is
   * named OP_ADD, the reverse of the constants; both have one operand, so the
   * operand count the codec uses is the same either way.
   */
  lemma OpcodeNumberClash()
    ensures OPCODES[2].mnemonic == "OP_CONST" && OPCODES[2].code == OP_ADD
    ensures OPCODES[3].mnemonic == "OP_ADD" && OPCODES[3].code == OP_CONST
    ensures OP_ADD in NUM_OPERANDS && OP_CONST in NUM_OPERANDS && NUM_OPERANDS[OP_ADD] == NUM_OPERANDS[OP_CONST] == 1
    ensures OP_LOAD in NUM_OPERANDS && OP_STORE in NUM_OPERANDS && NUM_OPERANDS[OP_LOAD] == NUM_OPERANDS[OP_STORE] == 2
  {
    NumOperandsCatalog();
  }

  // ---------------------------------------------------------------------------
  // The container
  // ---------------------------------------------------------------------------

  /** An instruction: its numeric opcode and its operand values. */
  datatype Instr = Instr(opcode: int, operands: seq<int>)

  /** The in-memory program: memory-pool size and the ordered instruction list. */
  datatype Bytecode = Bytecode(memPoolSize: int, opcodes: seq<Instr>)

  /** The operand count matches the catalog's arity for the opcode. */
  predicate HasCatalogArity(ins: Instr) {
    ins.opcode in NUM_OPERANDS && |ins.operands| == NUM_OPERANDS[ins.opcode]
  }

  predicate AllS16(vs: seq<int>) {
    forall i :: 0 <= i < |vs| ==> IsS16(vs[i])
  }

  predicate EncodableInstr(ins: Instr) {
    HasCatalogArity(ins) && AllS16(ins.operands)
  }

  predicate AllEncodable(code: seq<Instr>) {
    forall i :: 0 <= i < |code| ==> EncodableInstr(code[i])
  }

  /** Every field fits its binary width and every instruction has its catalog arity. */
  predicate Encodable(c: Bytecode) {
    IsU16(c.memPoolSize) && IsU16(|c.opcodes|) && AllEncodable(c.opcodes)
  }

  /**
   * Bytes one instruction takes in the stream: the opcode byte and one s16 per
   * operand. For an instruction with its catalog arity this is 1 + 2 * arity.
   */
  function InstrSize(ins: Instr): nat {
    1 + 2 * |ins.operands|
  }

  /** Bytes a list of instructions takes in the stream. */
  function CodeSize(code: seq<Instr>): nat {
    if code == [] then 0 else InstrSize(code[0]) + CodeSize(code[1..])
  }

  /**
   * Why a load or a save fails: a missing "DSL" marker or a short read
   * (ByteCodeError), an opcode missing from the catalog (a failed dictionary
   * lookup), a value that does not fit its binary width (struct.error), or an
   * operand count that differs from the arity (the assertion in save).
   */
  datatype CodecError =
    | BadMarker
    | ShortRead(amount: nat, offset: nat)
    | UnknownOpcode(opcode: int)
    | OutOfRange(format: char, value: int)
    | ArityMismatch(opcode: int, count: nat)

  const MAGIC: seq<byte> := [0x44, 0x53, 0x4C]  // "DSL"
  const VERSION: byte := 1

  // ---------------------------------------------------------------------------
  // Integer packers: struct formats 'B', 'H' and 'h', little-endian
  // ---------------------------------------------------------------------------

  function PackU8(v: int): (r: Result<seq<byte>, CodecError>)
    ensures r.Ok? <==> IsU8(v)
    ensures r.Ok? ==> r.value == [v]
    ensures r.Err? ==> r.error == OutOfRange('B', v)
  {
    if IsU8(v) then Ok([v]) else Err(OutOfRange('B', v))
  }

  /** The u16 whose low byte is `lo` and whose high byte is `hi`. */
  function UnpackU16(lo: byte, hi: byte): (v: int)
    ensures IsU16(v)
  {
    lo as int + 0x100 * (hi as int)
  }

  function PackU16(v: int): (r: Result<seq<byte>, CodecError>)
    ensures r.Ok? <==> IsU16(v)
    ensures r.Ok? ==> |r.value| == 2
    ensures r.Err? ==> r.error == OutOfRange('H', v)
  {
    if IsU16(v) then Ok([v % 0x100, v / 0x100]) else Err(OutOfRange('H', v))
  }

  /** The s16 whose two's-complement low byte is `lo` and high byte is `hi`. */
  function UnpackS16(lo: byte, hi: byte): (v: int)
    ensures IsS16(v)
  {
    var u := UnpackU16(lo, hi);
    if u < 0x8000 then u else u - 0x1_0000
  }

  function PackS16(v: int): (r: Result<seq<byte>, CodecError>)
    ensures r.Ok? <==> IsS16(v)
    ensures r.Ok? ==> |r.value| == 2
    ensures r.Err? ==> r.error == OutOfRange('h', v)
  {
    if IsS16(v) then
      var u := if v < 0 then v + 0x1_0000 else v;
      Ok([u % 0x100, u / 0x100])
    else
      Err(OutOfRange('h', v))
  }

  /** Unpacking what 'H' packs gives the value back. */
  lemma UnpackPackU16(v: int)
    requires IsU16(v)
    ensures UnpackU16(PackU16(v).value[0], PackU16(v).value[1]) == v
  {
  }

  /** Unpacking what 'h' packs gives the value back. */
  lemma UnpackPackS16(v: int)
    requires IsS16(v)
    ensures UnpackS16(PackS16(v).value[0], PackS16(v).value[1]) == v
  {
  }

  /** Every two bytes are the packing of the u16 they unpack to. */
  lemma PackUnpackU16(lo: byte, hi: byte)
    ensures PackU16(UnpackU16(lo, hi)) == Ok([lo, hi])
  {
    var u := lo as int + 0x100 * (hi as int);
    assert u % 0x100 == lo && u / 0x100 == hi;
  }

  /** Every two bytes are the packing of the s16 they unpack to. */
  lemma PackUnpackS16(lo: byte, hi: byte)
    ensures PackS16(UnpackS16(lo, hi)) == Ok([lo, hi])
  {
    var u := lo as int + 0x100 * (hi as int);
    assert u % 0x100 == lo && u / 0x100 == hi;
  }

  // ---------------------------------------------------------------------------
  // Reader
  // ---------------------------------------------------------------------------

  /**
   * Reader.read: the `amount` bytes at cursor `pos`. When fewer remain, the
   * read consumes the rest of the stream and fails, reporting the amount and
   * the offset the stream is then left at, which is its length.
   */
  function Read(data: seq<byte>, pos: nat, amount: nat): (r: Result<seq<byte>, CodecError>)
    requires pos <= |data|
    ensures r.Ok? <==> pos + amount <= |data|
    ensures r.Ok? ==> |r.value| == amount && At(data, pos, r.value)
    ensures r.Err? ==> r.error == ShortRead(amount, |data|)
  {
    if |data| - pos < amount then Err(ShortRead(amount, |data|)) else Ok(data[pos..pos + amount])
  }

  // Reader.read_u8, read_u16 and read_s16: a read of the format's size (1, 2
  // and 2 bytes), unpacked. The cursor after a successful read is `pos` plus
  // that size.

  function ReadU8(data: seq<byte>, pos: nat): (r: Result<int, CodecError>)
    requires pos <= |data|
    ensures r.Ok? <==> pos + 1 <= |data|
    ensures r.Ok? ==> IsU8(r.value) && PackU8(r.value) == Ok([data[pos]])
    ensures r.Err? ==> r.error == ShortRead(1, |data|)
  {
    if |data| - pos < 1 then Err(ShortRead(1, |data|)) else Ok(data[pos] as int)
  }

  function ReadU16(data: seq<byte>, pos: nat): (r: Result<int, CodecError>)
    requires pos <= |data|
    ensures r.Ok? <==> pos + 2 <= |data|
    ensures r.Ok? ==> IsU16(r.value)
    ensures r.Err? ==> r.error == ShortRead(2, |data|)
  {
    if |data| - pos < 2 then Err(ShortRead(2, |data|)) else Ok(UnpackU16(data[pos], data[pos + 1]))
  }

  function ReadS16(data: seq<byte>, pos: nat): (r: Result<int, CodecError>)
    requires pos <= |data|
    ensures r.Ok? <==> pos + 2 <= |data|
    ensures r.Ok? ==> IsS16(r.value)
    ensures r.Err? ==> r.error == ShortRead(2, |data|)
  {
    if |data| - pos < 2 then Err(ShortRead(2, |data|)) else Ok(UnpackS16(data[pos], data[pos + 1]))
  }

  /** What read_u16 and read_s16 return is what 'H' and 'h' pack back to the two bytes read. */
  lemma ReadPacks(data: seq<byte>, pos: nat)
    requires pos + 2 <= |data|
    ensures PackU16(ReadU16(data, pos).value) == Ok(data[pos..pos + 2])
    ensures PackS16(ReadS16(data, pos).value) == Ok(data[pos..pos + 2])
  {
    PackUnpackU16(data[pos], data[pos + 1]);
    PackUnpackS16(data[pos], data[pos + 1]);
    assert data[pos..pos + 2] == [data[pos], data[pos + 1]];
  }

  // ---------------------------------------------------------------------------
  // Decoder (Bytecode.load)
  // ---------------------------------------------------------------------------

  /** Read `n` s16 operands from `pos`: it succeeds exactly when 2n bytes remain. */
  function DecodeOperands(data: seq<byte>, pos: nat, n: nat): (r: Result<seq<int>, CodecError>)
    requires pos <= |data|
    ensures r.Ok? <==> pos + 2 * n <= |data|
    ensures r.Ok? ==> |r.value| == n
    ensures r.Err? ==> r.error == ShortRead(2, |data|)
    decreases n
  {
    if n == 0 then Ok([])
    else
      match ReadS16(data, pos)
      case Err(e) => Err(e)
      case Ok(v) =>
        match DecodeOperands(data, pos + 2, n - 1)
        case Err(e) => Err(e)
        case Ok(more) => Ok([v] + more)
  }

  /** Read an opcode byte, look up its arity, then read that many operands. */
  function DecodeInstr(data: seq<byte>, pos: nat): (r: Result<Instr, CodecError>)
    requires pos <= |data|
    ensures r.Ok? ==> pos + InstrSize(r.value) <= |data|
    ensures r.Err? ==> r.error.ShortRead? || (pos < |data| && r.error == UnknownOpcode(data[pos]))
  {
    match ReadU8(data, pos)
    case Err(e) => Err(e)
    case Ok(code) =>
      if code !in NUM_OPERANDS then Err(UnknownOpcode(code))
      else
        match DecodeOperands(data, pos + 1, NUM_OPERANDS[code])
        case Err(e) => Err(e)
        case Ok(ops) => Ok(Instr(code, ops))
  }

  /** Read `n` instructions one after the other, each starting where the previous one ends. */
  function DecodeInstrs(data: seq<byte>, pos: nat, n: nat): (r: Result<seq<Instr>, CodecError>)
    requires pos <= |data|
    ensures r.Ok? ==> |r.value| == n
    decreases n
  {
    if n == 0 then Ok([])
    else
      match DecodeInstr(data, pos)
      case Err(e) => Err(e)
      case Ok(ins) =>
        match DecodeInstrs(data, pos + InstrSize(ins), n - 1)
        case Err(e) => Err(e)
        case Ok(more) => Ok([ins] + more)
  }

  /**
   * Bytecode.load: the marker, a version byte that is read and not checked,
   * the pool size, the instruction count and the instructions. Bytes after the
   * last instruction are never read.
   */
  function Decode(data: seq<byte>): (r: Result<Bytecode, CodecError>)
    ensures r.Ok? ==> 8 + CodeSize(r.value.opcodes) <= |data| && data[..3] == MAGIC
    ensures r.Ok? ==> r.value.memPoolSize == UnpackU16(data[4], data[5])
    ensures r.Ok? ==> |r.value.opcodes| == UnpackU16(data[6], data[7])
  {
    var marker :- Read(data, 0, 3);
    if marker != MAGIC then Err(BadMarker)
    else
      var version :- Read(data, 3, 1);
      var pool :- ReadU16(data, 4);
      var count :- ReadU16(data, 6);
      var code :- DecodeInstrs(data, 8, count);
      DecodeInstrsEncodable(data, 8, count);
      Ok(Bytecode(pool, code))
  }

  /** Every operand read is an s16. */
  lemma {:induction false} DecodeOperandsS16(data: seq<byte>, pos: nat, n: nat)
    requires pos <= |data| && DecodeOperands(data, pos, n).Ok?
    ensures AllS16(DecodeOperands(data, pos, n).value)
    decreases n
  {
    if n > 0 {
      DecodeOperandsS16(data, pos + 2, n - 1);
    }
  }

  /** A decoded instruction has its catalog arity and s16 operands, so save accepts it. */
  lemma DecodeInstrEncodable(data: seq<byte>, pos: nat)
    requires pos <= |data| && DecodeInstr(data, pos).Ok?
    ensures EncodableInstr(DecodeInstr(data, pos).value)
  {
    DecodeOperandsS16(data, pos + 1, NUM_OPERANDS[data[pos]]);
  }

  /** Decoded instructions are all encodable and end within the stream. */
  lemma {:induction false} DecodeInstrsEncodable(data: seq<byte>, pos: nat, n: nat)
    requires pos <= |data| && DecodeInstrs(data, pos, n).Ok?
    ensures AllEncodable(DecodeInstrs(data, pos, n).value)
    ensures pos + CodeSize(DecodeInstrs(data, pos, n).value) <= |data|
    decreases n
  {
    if n > 0 {
      var ins, rest := DecodeInstrsStep(data, pos, n);
      DecodeInstrEncodable(data, pos);
      DecodeInstrsEncodable(data, pos + InstrSize(ins), n - 1);
      assert forall i :: 1 <= i < n ==> ([ins] + rest)[i] == rest[i - 1];
    }
  }

  /** A loaded container is one save accepts. */
  lemma DecodeEncodable(data: seq<byte>)
    requires Decode(data).Ok?
    ensures Encodable(Decode(data).value)
  {
    DecodeInstrsEncodable(data, 8, UnpackU16(data[6], data[7]));
  }


  // ---------------------------------------------------------------------------
  // Encoder (Bytecode.save)
  // ---------------------------------------------------------------------------

  function EncodeOperands(ops: seq<int>): (r: Result<seq<byte>, CodecError>)
    ensures r.Ok? <==> AllS16(ops)
    ensures r.Ok? ==> |r.value| == 2 * |ops|
  {
    if ops == [] then Ok([])
    else
      var first :- PackS16(ops[0]);
      var more :- EncodeOperands(ops[1..]);
      Ok(first + more)
  }

  /** The opcode byte, the arity lookup, the arity assertion, then the operands. */
  function EncodeInstr(ins: Instr): (r: Result<seq<byte>, CodecError>)
    ensures r.Ok? <==> EncodableInstr(ins)
    ensures r.Ok? ==> |r.value| == InstrSize(ins) && r.value[0] == ins.opcode
  {
    NumOperandsCatalog();
    var op :- PackU8(ins.opcode);
    if ins.opcode !in NUM_OPERANDS then Err(UnknownOpcode(ins.opcode))
    else if |ins.operands| != NUM_OPERANDS[ins.opcode] then Err(ArityMismatch(ins.opcode, |ins.operands|))
    else
      var operands :- EncodeOperands(ins.operands);
      Ok(op + operands)
  }

  function EncodeInstrs(code: seq<Instr>): (r: Result<seq<byte>, CodecError>)
    ensures r.Ok? <==> AllEncodable(code)
    ensures r.Ok? ==> |r.value| == CodeSize(code)
  {
    if code == [] then Ok([])
    else
      var first :- EncodeInstr(code[0]);
      var more :- EncodeInstrs(code[1..]);
      Ok(first + more)
  }

  /**
   * Bytecode.save: the 8-byte header ("DSL", version 1, u16 pool size, u16
   * instruction count) and then every instruction in order.
   */
  function Encode(c: Bytecode): (r: Result<seq<byte>, CodecError>)
    ensures r.Ok? <==> Encodable(c)
    ensures r.Ok? ==> |r.value| == 8 + CodeSize(c.opcodes)
    ensures r.Ok? ==> r.value[..3] == MAGIC && r.value[3] == VERSION
    ensures r.Ok? ==> UnpackU16(r.value[4], r.value[5]) == c.memPoolSize
    ensures r.Ok? ==> UnpackU16(r.value[6], r.value[7]) == |c.opcodes|
  {
    var pool :- PackU16(c.memPoolSize);
    var count :- PackU16(|c.opcodes|);
    var body :- EncodeInstrs(c.opcodes);
    UnpackPackU16(c.memPoolSize);
    UnpackPackU16(|c.opcodes|);
    Ok(MAGIC + [VERSION] + pool + count + body)
  }


  // ---------------------------------------------------------------------------
  // Byte placement
  // ---------------------------------------------------------------------------

  /** `bytes` occurs in `data` starting at offset `pos`. */
  predicate At(data: seq<byte>, pos: nat, bytes: seq<byte>) {
    pos + |bytes| <= |data| && forall i :: 0 <= i < |bytes| ==> data[pos + i] == bytes[i]
  }

  lemma AtSplit(data: seq<byte>, pos: nat, a: seq<byte>, b: seq<byte>)
    requires At(data, pos, a + b)
    ensures At(data, pos, a) && At(data, pos + |a|, b)
  {
    forall i | 0 <= i < |a| ensures data[pos + i] == a[i] {
      assert (a + b)[i] == a[i];
    }
    forall i | 0 <= i < |b| ensures data[pos + |a| + i] == b[i] {
      assert (a + b)[|a| + i] == b[i];
    }
  }

  lemma AtJoin(data: seq<byte>, pos: nat, a: seq<byte>, b: seq<byte>)
    requires At(data, pos, a) && At(data, pos + |a|, b)
    ensures At(data, pos, a + b)
  {
    forall i | 0 <= i < |a + b| ensures data[pos + i] == (a + b)[i] {
      if i >= |a| {
        assert data[pos + |a| + (i - |a|)] == b[i - |a|];
      }
    }
  }

  lemma AtSuffix(front: seq<byte>, bytes: seq<byte>)
    ensures At(front + bytes, |front|, bytes)
  {
    forall i | 0 <= i < |bytes| ensures (front + bytes)[|front| + i] == bytes[i] {
    }
  }

  // ---------------------------------------------------------------------------
  // Round trip: load(save(c)) == c
  // ---------------------------------------------------------------------------

  lemma {:induction false} DecodeEncodeOperands(ops: seq<int>, data: seq<byte>, pos: nat)
    requires EncodeOperands(ops).Ok? && At(data, pos, EncodeOperands(ops).value)
    ensures DecodeOperands(data, pos, |ops|) == Ok(ops)
  {
    if ops != [] {
      var first := PackS16(ops[0]).value;
      UnpackPackS16(ops[0]);
      var more := EncodeOperands(ops[1..]).value;
      AtSplit(data, pos, first, more);
      assert data[pos + 0] == first[0] && data[pos + 1] == first[1];
      DecodeEncodeOperands(ops[1..], data, pos + 2);
      assert [ops[0]] + ops[1..] == ops;
    }
  }

  lemma DecodeEncodeInstr(ins: Instr, data: seq<byte>, pos: nat)
    requires EncodeInstr(ins).Ok? && At(data, pos, EncodeInstr(ins).value)
    ensures DecodeInstr(data, pos) == Ok(ins)
  {
    NumOperandsCatalog();
    var operands := EncodeOperands(ins.operands).value;
    assert EncodeInstr(ins).value == [ins.opcode] + operands;
    AtSplit(data, pos, [ins.opcode], operands);
    assert data[pos + 0] == ins.opcode;
    DecodeEncodeOperands(ins.operands, data, pos + 1);
  }

  /** A first instruction followed by the rest decodes as the list with that head. */
  lemma DecodeInstrsCons(data: seq<byte>, pos: nat, n: nat, ins: Instr, more: seq<Instr>)
    requires pos <= |data| && n > 0
    requires DecodeInstr(data, pos) == Ok(ins)
    requires DecodeInstrs(data, pos + InstrSize(ins), n - 1) == Ok(more)
    ensures DecodeInstrs(data, pos, n) == Ok([ins] + more)
  {
  }

  lemma {:induction false} DecodeEncodeInstrs(code: seq<Instr>, data: seq<byte>, pos: nat)
    requires EncodeInstrs(code).Ok? && At(data, pos, EncodeInstrs(code).value)
    ensures DecodeInstrs(data, pos, |code|) == Ok(code)
  {
    if code != [] {
      var first := EncodeInstr(code[0]).value;
      var more := EncodeInstrs(code[1..]).value;
      AtSplit(data, pos, first, more);
      DecodeEncodeInstr(code[0], data, pos);
      DecodeEncodeInstrs(code[1..], data, pos + |first|);
      DecodeInstrsCons(data, pos, |code|, code[0], code[1..]);
      assert [code[0]] + code[1..] == code;
    }
  }

  /** load succeeds on a marked stream whose instruction section decodes. */
  lemma DecodeFromParts(data: seq<byte>, code: seq<Instr>)
    requires |data| >= 8 && data[..3] == MAGIC
    requires DecodeInstrs(data, 8, UnpackU16(data[6], data[7])) == Ok(code)
    ensures Decode(data) == Ok(Bytecode(UnpackU16(data[4], data[5]), code))
  {
    assert data[0..3] == data[..3];
  }

  /** In save's output the instructions start right after the 8-byte header. */
  lemma EncodeBodyAt(c: Bytecode)
    requires Encodable(c)
    ensures At(Encode(c).value, 8, EncodeInstrs(c.opcodes).value)
  {
    var body := EncodeInstrs(c.opcodes).value;
    var header := MAGIC + [VERSION] + PackU16(c.memPoolSize).value + PackU16(|c.opcodes|).value;
    assert Encode(c).value == header + body;
    AtSuffix(header, body);
  }

  /** The instruction section of save's output decodes to the saved instructions. */
  lemma EncodeThenDecodeInstrs(c: Bytecode)
    requires Encodable(c)
    ensures DecodeInstrs(Encode(c).value, 8, |c.opcodes|) == Ok(c.opcodes)
  {
    EncodeBodyAt(c);
    DecodeEncodeInstrs(c.opcodes, Encode(c).value, 8);
  }

  /** Saving an encodable container and loading the bytes gives the same container back. */
  lemma RoundTrip(c: Bytecode)
    requires Encodable(c)
    ensures Decode(Encode(c).value) == Ok(c)
  {
    EncodeThenDecodeInstrs(c);
    DecodeFromParts(Encode(c).value, c.opcodes);
  }

  // ---------------------------------------------------------------------------
  // The other direction: what load accepts, save reproduces
  // ---------------------------------------------------------------------------

  lemma {:induction false} EncodeDecodeOperands(data: seq<byte>, pos: nat, n: nat)
    requires pos <= |data| && DecodeOperands(data, pos, n).Ok?
    ensures var ops := DecodeOperands(data, pos, n).value;
            EncodeOperands(ops).Ok? && At(data, pos, EncodeOperands(ops).value)
    decreases n
  {
    if n > 0 {
      var ops := DecodeOperands(data, pos, n).value;
      assert ops[0] == UnpackS16(data[pos], data[pos + 1]);
      assert ops[1..] == DecodeOperands(data, pos + 2, n - 1).value;
      PackUnpackS16(data[pos], data[pos + 1]);
      EncodeDecodeOperands(data, pos + 2, n - 1);
      AtJoin(data, pos, [data[pos], data[pos + 1]], EncodeOperands(ops[1..]).value);
    }
  }

  lemma EncodeDecodeInstr(data: seq<byte>, pos: nat)
    requires pos <= |data| && DecodeInstr(data, pos).Ok?
    ensures var ins := DecodeInstr(data, pos).value;
            EncodeInstr(ins).Ok? && At(data, pos, EncodeInstr(ins).value)
  {
    var ins := DecodeInstr(data, pos).value;
    NumOperandsCatalog();
    EncodeDecodeOperands(data, pos + 1, NUM_OPERANDS[data[pos]]);
    AtJoin(data, pos, [data[pos]], EncodeOperands(ins.operands).value);
  }

  /** One unfolding of a successful DecodeInstrs: the first instruction, then the rest. */
  lemma DecodeInstrsStep(data: seq<byte>, pos: nat, n: nat) returns (ins: Instr, rest: seq<Instr>)
    requires pos <= |data| && n > 0 && DecodeInstrs(data, pos, n).Ok?
    ensures DecodeInstr(data, pos) == Ok(ins) && pos + InstrSize(ins) <= |data|
    ensures DecodeInstrs(data, pos + InstrSize(ins), n - 1) == Ok(rest)
    ensures DecodeInstrs(data, pos, n).value == [ins] + rest
    ensures CodeSize(DecodeInstrs(data, pos, n).value) == InstrSize(ins) + CodeSize(rest)
  {
    ins := DecodeInstr(data, pos).value;
    rest := DecodeInstrs(data, pos + InstrSize(ins), n - 1).value;
    CodeSizeCons(ins, rest);
  }

  lemma CodeSizeCons(ins: Instr, rest: seq<Instr>)
    ensures CodeSize([ins] + rest) == InstrSize(ins) + CodeSize(rest)
  {
    assert ([ins] + rest)[0] == ins && ([ins] + rest)[1..] == rest;
  }

  /** Encoding a list with a given head: the head's bytes, then the tail's. */
  lemma EncodeInstrsCons(ins: Instr, rest: seq<Instr>)
    requires EncodeInstr(ins).Ok? && EncodeInstrs(rest).Ok?
    ensures EncodeInstrs([ins] + rest) == Ok(EncodeInstr(ins).value + EncodeInstrs(rest).value)
  {
    assert ([ins] + rest)[0] == ins && ([ins] + rest)[1..] == rest;
  }

  lemma {:induction false} EncodeDecodeInstrs(data: seq<byte>, pos: nat, n: nat)
    requires pos <= |data| && DecodeInstrs(data, pos, n).Ok?
    ensures var code := DecodeInstrs(data, pos, n).value;
            EncodeInstrs(code).Ok? && At(data, pos, EncodeInstrs(code).value)
    decreases n
  {
    if n > 0 {
      var ins, rest := DecodeInstrsStep(data, pos, n);
      var next := pos + InstrSize(ins);
      EncodeDecodeInstr(data, pos);
      EncodeDecodeInstrs(data, next, n - 1);
      EncodeInstrsCons(ins, rest);
      AtJoin(data, pos, EncodeInstr(ins).value, EncodeInstrs(rest).value);
    }
  }

  /** Header fields read from bytes 4 to 8 pack back to the same bytes. */
  lemma HeaderFieldsPack(data: seq<byte>, pool: int, count: int)
    requires |data| >= 8 && pool == UnpackU16(data[4], data[5]) && count == UnpackU16(data[6], data[7])
    ensures PackU16(pool) == Ok(data[4..6]) && PackU16(count) == Ok(data[6..8])
  {
    ReadPacks(data, 4);
    ReadPacks(data, 6);
  }

  /** save's output, given what the two header fields and the instructions pack to. */
  lemma EncodeHeader(c: Bytecode, pool: seq<byte>, count: seq<byte>, body: seq<byte>)
    requires PackU16(c.memPoolSize) == Ok(pool) && PackU16(|c.opcodes|) == Ok(count)
    requires EncodeInstrs(c.opcodes) == Ok(body)
    ensures Encode(c) == Ok(MAGIC + [VERSION] + (pool + count + body))
  {
    assert MAGIC + [VERSION] + pool + count + body == MAGIC + [VERSION] + (pool + count + body);
  }

  lemma HeaderThenBody(data: seq<byte>, body: seq<byte>)
    requires At(data, 8, body)
    ensures data[4..8 + |body|] == data[4..6] + data[6..8] + body
  {
  }

  /**
   * A stream that loads is, up to the last byte the loader consumed, exactly
   * what save writes for the loaded container, except for the version byte,
   * which save always writes as 1.
   */
  lemma DecodeThenEncode(data: seq<byte>)
    requires Decode(data).Ok?
    ensures var c := Decode(data).value;
            Encode(c) == Ok(MAGIC + [VERSION] + data[4..8 + CodeSize(c.opcodes)])
  {
    var c := Decode(data).value;
    EncodeDecodeInstrs(data, 8, |c.opcodes|);
    HeaderFieldsPack(data, c.memPoolSize, |c.opcodes|);
    EncodeHeader(c, data[4..6], data[6..8], EncodeInstrs(c.opcodes).value);
    HeaderThenBody(data, EncodeInstrs(c.opcodes).value);
  }

  // ---------------------------------------------------------------------------
  // Loading depends only on the bytes it consumes
  // ---------------------------------------------------------------------------

  /** `a` and `b` hold the same bytes at every offset in [lo, hi). */
  predicate Agree(a: seq<byte>, b: seq<byte>, lo: nat, hi: nat) {
    lo <= hi <= |a| && hi <= |b| && forall i :: lo <= i < hi ==> a[i] == b[i]
  }

  lemma AgreeWithin(a: seq<byte>, b: seq<byte>, lo: nat, hi: nat, lo2: nat, hi2: nat)
    requires Agree(a, b, lo, hi) && lo <= lo2 <= hi2 <= hi
    ensures Agree(a, b, lo2, hi2)
  {
  }

  lemma {:induction false} DecodeOperandsAgree(data: seq<byte>, other: seq<byte>, pos: nat, n: nat)
    requires pos <= |data| && DecodeOperands(data, pos, n).Ok?
    requires Agree(data, other, pos, pos + 2 * n)
    ensures DecodeOperands(other, pos, n) == DecodeOperands(data, pos, n)
    decreases n
  {
    if n > 0 {
      DecodeOperandsAgree(data, other, pos + 2, n - 1);
    }
  }

  lemma DecodeInstrAgree(data: seq<byte>, other: seq<byte>, pos: nat)
    requires pos <= |data| && DecodeInstr(data, pos).Ok?
    requires Agree(data, other, pos, pos + InstrSize(DecodeInstr(data, pos).value))
    ensures DecodeInstr(other, pos) == DecodeInstr(data, pos)
  {
    NumOperandsCatalog();
    DecodeOperandsAgree(data, other, pos + 1, NUM_OPERANDS[data[pos]]);
  }

  lemma {:induction false} DecodeInstrsAgree(data: seq<byte>, other: seq<byte>, pos: nat, n: nat)
    requires pos <= |data| && DecodeInstrs(data, pos, n).Ok?
    requires Agree(data, other, pos, pos + CodeSize(DecodeInstrs(data, pos, n).value))
    ensures DecodeInstrs(other, pos, n) == DecodeInstrs(data, pos, n)
    decreases n
  {
    if n > 0 {
      var ins, rest := DecodeInstrsStep(data, pos, n);
      var mid, end := pos + InstrSize(ins), pos + CodeSize(DecodeInstrs(data, pos, n).value);
      AgreeWithin(data, other, pos, end, pos, mid);
      AgreeWithin(data, other, pos, end, mid, end);
      DecodeInstrAgree(data, other, pos);
      DecodeInstrsAgree(data, other, mid, n - 1);
      DecodeInstrsCons(other, pos, n, ins, rest);
    }
  }

  /** Bytes after the last declared instruction are never read. */
  lemma DecodeIgnoresTrailing(data: seq<byte>, extra: seq<byte>)
    requires Decode(data).Ok?
    ensures Decode(data + extra) == Decode(data)
  {
    var c := Decode(data).value;
    var all := data + extra;
    assert all[..3] == data[..3];
    DecodeInstrsAgree(data, all, 8, |c.opcodes|);
    DecodeFromParts(all, c.opcodes);
  }

  lemma {:induction false} DecodeOperandsSameFrom(a: seq<byte>, b: seq<byte>, pos: nat, n: nat)
    requires pos <= |a| == |b| && Agree(a, b, pos, |a|)
    ensures DecodeOperands(b, pos, n) == DecodeOperands(a, pos, n)
    decreases n
  {
    if n > 0 && pos + 2 <= |a| {
      DecodeOperandsSameFrom(a, b, pos + 2, n - 1);
    }
  }

  lemma DecodeInstrSameFrom(a: seq<byte>, b: seq<byte>, pos: nat)
    requires pos <= |a| == |b| && Agree(a, b, pos, |a|)
    ensures DecodeInstr(b, pos) == DecodeInstr(a, pos)
  {
    if pos < |a| && a[pos] in NUM_OPERANDS {
      DecodeOperandsSameFrom(a, b, pos + 1, NUM_OPERANDS[a[pos]]);
    }
  }

  lemma {:induction false} DecodeInstrsSameFrom(a: seq<byte>, b: seq<byte>, pos: nat, n: nat)
    requires pos <= |a| == |b| && Agree(a, b, pos, |a|)
    ensures DecodeInstrs(b, pos, n) == DecodeInstrs(a, pos, n)
    decreases n
  {
    if n > 0 {
      DecodeInstrSameFrom(a, b, pos);
      var first := DecodeInstr(a, pos);
      if first.Ok? {
        DecodeInstrsSameFrom(a, b, pos + InstrSize(first.value), n - 1);
      }
    }
  }

  /** The version byte is read and never checked: whatever it holds, load does the same. */
  lemma DecodeIgnoresVersion(data: seq<byte>, version: byte)
    requires |data| >= 4
    ensures Decode(data[3 := version]) == Decode(data)
  {
    var other := data[3 := version];
    assert other[..3] == data[..3];
    if |data| >= 8 {
      DecodeInstrsSameFrom(data, other, 8, UnpackU16(data[6], data[7]));
    }
  }

  // ---------------------------------------------------------------------------
  // Rejected input
  // ---------------------------------------------------------------------------

  /** A stream shorter than the marker, or one that does not start with "DSL", is rejected first. */
  lemma DecodeRejectsBadMarker(data: seq<byte>)
    ensures |data| < 3 ==> Decode(data) == Err(ShortRead(3, |data|))
    ensures |data| >= 3 && data[..3] != MAGIC ==> Decode(data) == Err(BadMarker)
  {
    if |data| >= 3 {
      assert data[0..3] == data[..3];
    }
  }

  /**
   * Once `k` instructions have been read, an opcode byte missing from the
   * catalog where the next one starts stops the loop with that byte.
   */
  lemma {:induction false} DecodeInstrsUnknown(data: seq<byte>, pos: nat, n: nat, k: nat, code: seq<Instr>)
    requires pos <= |data| && k < n && DecodeInstrs(data, pos, k) == Ok(code)
    requires pos + CodeSize(code) < |data| && data[pos + CodeSize(code)] !in NUM_OPERANDS
    ensures DecodeInstrs(data, pos, n) == Err(UnknownOpcode(data[pos + CodeSize(code)]))
    decreases k
  {
    if k == 0 {
      assert code == [] && CodeSize(code) == 0;
      assert DecodeInstr(data, pos) == Err(UnknownOpcode(data[pos]));
    } else {
      var ins, rest := DecodeInstrsStep(data, pos, k);
      DecodeInstrsUnknown(data, pos + InstrSize(ins), n - 1, k - 1, rest);
    }
  }

  /**
   * An opcode byte missing from the catalog is rejected, at whichever
   * instruction it occurs, once the instructions before it have been read.
   */
  lemma DecodeRejectsUnknownOpcode(data: seq<byte>, k: nat, code: seq<Instr>)
    requires |data| >= 8 && data[..3] == MAGIC && k < UnpackU16(data[6], data[7])
    requires DecodeInstrs(data, 8, k) == Ok(code)
    requires 8 + CodeSize(code) < |data| && data[8 + CodeSize(code)] !in NUM_OPERANDS
    ensures Decode(data) == Err(UnknownOpcode(data[8 + CodeSize(code)]))
  {
    assert data[0..3] == data[..3];
    DecodeInstrsUnknown(data, 8, UnpackU16(data[6], data[7]), k, code);
  }

  /** save's assertion: an opcode in the catalog with another operand count is refused. */
  lemma EncodeRejectsArityMismatch(ins: Instr)
    requires IsU8(ins.opcode) && ins.opcode in NUM_OPERANDS
    requires |ins.operands| != NUM_OPERANDS[ins.opcode]
    ensures EncodeInstr(ins) == Err(ArityMismatch(ins.opcode, |ins.operands|))
  {
  }

  // ---------------------------------------------------------------------------
  // Truncated streams
  // ---------------------------------------------------------------------------

  lemma DecodeInstrTruncated(data: seq<byte>, pos: nat, k: nat)
    requires pos <= |data| && DecodeInstr(data, pos).Ok?
    requires pos <= k < pos + InstrSize(DecodeInstr(data, pos).value)
    ensures DecodeInstr(data[..k], pos).Err?
    ensures DecodeInstr(data[..k], pos).error.ShortRead? && DecodeInstr(data[..k], pos).error.offset == k
  {
    if pos < k {
      assert data[..k][pos] == data[pos];
    }
  }

  lemma {:induction false} DecodeInstrsTruncated(data: seq<byte>, pos: nat, n: nat, k: nat)
    requires pos <= |data| && DecodeInstrs(data, pos, n).Ok?
    requires pos <= k < pos + CodeSize(DecodeInstrs(data, pos, n).value) <= |data|
    ensures DecodeInstrs(data[..k], pos, n).Err?
    ensures DecodeInstrs(data[..k], pos, n).error.ShortRead? && DecodeInstrs(data[..k], pos, n).error.offset == k
    decreases n
  {
    var ins, rest := DecodeInstrsStep(data, pos, n);
    var next := pos + InstrSize(ins);
    if k < next {
      DecodeInstrTruncated(data, pos, k);
    } else {
      DecodeInstrAgree(data, data[..k], pos);
      DecodeInstrsTruncated(data, next, n - 1, k);
    }
  }

  /**
   * Cutting a loadable stream anywhere before the end of its last instruction
   * makes load fail with a short read that reports the cut as the offset.
   */
  lemma DecodeTruncated(data: seq<byte>, k: nat)
    requires Decode(data).Ok? && k < 8 + CodeSize(Decode(data).value.opcodes)
    ensures Decode(data[..k]).Err? && Decode(data[..k]).error.ShortRead?
    ensures Decode(data[..k]).error.offset == k
  {
    var c := Decode(data).value;
    if k >= 3 {
      assert data[..k][..3] == data[..3];
      assert data[..k][0..3] == data[..k][..3];
    }
    if k >= 8 {
      DecodeInstrsTruncated(data, 8, |c.opcodes|, k);
    }
  }

  // ---------------------------------------------------------------------------
  // load as the loops it is
  // ---------------------------------------------------------------------------

  /**
   * What a loop that already produced `front` yields once the rest, `r`, is
   * produced: `front` followed by the rest, or the rest's failure.
   */
  function PrependTo<T>(front: seq<T>, r: Result<seq<T>, CodecError>): Result<seq<T>, CodecError> {
    if r.Ok? then Ok(front + r.value) else r
  }

  lemma PrependNothing<T>(r: Result<seq<T>, CodecError>)
    ensures PrependTo([], r) == r
  {
    if r.Ok? {
      assert [] + r.value == r.value;
    }
  }

  /** The next operand either fails the whole remaining decode or joins the decoded prefix. */
  lemma DecodeOperandsNext(data: seq<byte>, pos: nat, m: nat, front: seq<int>)
    requires pos <= |data| && m > 0
    ensures var first := ReadS16(data, pos);
            PrependTo(front, DecodeOperands(data, pos, m)) ==
              if first.Err? then Err(first.error)
              else PrependTo(front + [first.value], DecodeOperands(data, pos + 2, m - 1))
  {
    var first := ReadS16(data, pos);
    if first.Ok? {
      var rest := DecodeOperands(data, pos + 2, m - 1);
      if rest.Ok? {
        assert front + ([first.value] + rest.value) == front + [first.value] + rest.value;
      }
    }
  }

  /** The next instruction either fails the whole remaining decode or joins the decoded prefix. */
  lemma DecodeInstrsNext(data: seq<byte>, pos: nat, m: nat, front: seq<Instr>)
    requires pos <= |data| && m > 0
    ensures var first := DecodeInstr(data, pos);
            PrependTo(front, DecodeInstrs(data, pos, m)) ==
              if first.Err? then Err(first.error)
              else PrependTo(front + [first.value], DecodeInstrs(data, pos + InstrSize(first.value), m - 1))
  {
    var first := DecodeInstr(data, pos);
    if first.Ok? {
      var rest := DecodeInstrs(data, pos + InstrSize(first.value), m - 1);
      if rest.Ok? {
        assert front + ([first.value] + rest.value) == front + [first.value] + rest.value;
      }
    }
  }

  /** The operand loop of Bytecode.load: `n` s16 reads, appended in order. */
  method LoadOperands(data: seq<byte>, start: nat, n: nat) returns (r: Result<seq<int>, CodecError>)
    requires start <= |data|
    ensures r == DecodeOperands(data, start, n)
  {
    var pos: nat := start;
    var operands: seq<int> := [];
    var j := 0;
    PrependNothing(DecodeOperands(data, start, n));
    while j < n
      invariant j <= n && pos <= |data|
      invariant PrependTo(operands, DecodeOperands(data, pos, n - j)) == DecodeOperands(data, start, n)
    {
      DecodeOperandsNext(data, pos, n - j, operands);
      var operand :- ReadS16(data, pos);
      operands := operands + [operand];
      pos := pos + 2;
      j := j + 1;
    }
    assert operands + [] == operands;
    return Ok(operands);
  }

  /** One pass of the instruction loop of Bytecode.load: the opcode byte, the lookup, the operands. */
  method LoadInstr(data: seq<byte>, pos: nat) returns (r: Result<Instr, CodecError>)
    requires pos <= |data|
    ensures r == DecodeInstr(data, pos)
  {
    var code :- ReadU8(data, pos);
    if code !in NUM_OPERANDS {
      return Err(UnknownOpcode(code));
    }
    var operands :- LoadOperands(data, pos + 1, NUM_OPERANDS[code]);
    return Ok(Instr(code, operands));
  }

  /**
   * The instruction loop of Bytecode.load: `n` instructions, appended in
   * order, the stream advancing past each instruction's opcode byte and
   * operands.
   */
  method LoadInstrs(data: seq<byte>, start: nat, n: nat) returns (r: Result<seq<Instr>, CodecError>)
    requires start <= |data|
    ensures r == DecodeInstrs(data, start, n)
  {
    var pos: nat := start;
    var code: seq<Instr> := [];
    var i := 0;
    PrependNothing(DecodeInstrs(data, start, n));
    while i < n
      invariant i <= n && pos <= |data|
      invariant PrependTo(code, DecodeInstrs(data, pos, n - i)) == DecodeInstrs(data, start, n)
    {
      DecodeInstrsNext(data, pos, n - i, code);
      var ins :- LoadInstr(data, pos);
      code := code + [ins];
      pos := pos + InstrSize(ins);
      i := i + 1;
    }
    assert code + [] == code;
    return Ok(code);
  }

  /** Bytecode.load: the marker check, the version, pool size and count reads, then the instructions. */
  method Load(data: seq<byte>) returns (r: Result<Bytecode, CodecError>)
    ensures r == Decode(data)
  {
    var marker :- Read(data, 0, 3);
    if marker != MAGIC {
      return Err(BadMarker);
    }
    var version :- Read(data, 3, 1);
    var pool :- ReadU16(data, 4);
    var count :- ReadU16(data, 6);
    var code :- LoadInstrs(data, 8, count);
    return Ok(Bytecode(pool, code));
  }

  // ---------------------------------------------------------------------------
  // save as the loops it is
  // ---------------------------------------------------------------------------

  /** The next operand either fails the remaining encode or extends what was written. */
  lemma EncodeOperandsNext(ops: seq<int>, j: nat, front: seq<byte>)
    requires j < |ops|
    ensures var first := PackS16(ops[j]);
            PrependTo(front, EncodeOperands(ops[j..])) ==
              if first.Err? then Err(first.error)
              else PrependTo(front + first.value, EncodeOperands(ops[j + 1..]))
  {
    assert ops[j..][0] == ops[j] && ops[j..][1..] == ops[j + 1..];
    var first := PackS16(ops[j]);
    var rest := EncodeOperands(ops[j + 1..]);
    if first.Ok? && rest.Ok? {
      assert front + (first.value + rest.value) == front + first.value + rest.value;
    }
  }

  /** The next instruction either fails the remaining encode or extends what was written. */
  lemma EncodeInstrsNext(code: seq<Instr>, i: nat, front: seq<byte>)
    requires i < |code|
    ensures var first := EncodeInstr(code[i]);
            PrependTo(front, EncodeInstrs(code[i..])) ==
              if first.Err? then Err(first.error)
              else PrependTo(front + first.value, EncodeInstrs(code[i + 1..]))
  {
    assert code[i..][0] == code[i] && code[i..][1..] == code[i + 1..];
    var first := EncodeInstr(code[i]);
    var rest := EncodeInstrs(code[i + 1..]);
    if first.Ok? && rest.Ok? {
      assert front + (first.value + rest.value) == front + first.value + rest.value;
    }
  }

  /** The operand loop of Bytecode.save: one s16 per operand, in order. */
  method SaveOperands(ops: seq<int>) returns (r: Result<seq<byte>, CodecError>)
    ensures r == EncodeOperands(ops)
  {
    var out: seq<byte> := [];
    var j := 0;
    assert ops[0..] == ops;
    PrependNothing(EncodeOperands(ops));
    while j < |ops|
      invariant j <= |ops|
      invariant PrependTo(out, EncodeOperands(ops[j..])) == EncodeOperands(ops)
    {
      EncodeOperandsNext(ops, j, out);
      var bytes :- PackS16(ops[j]);
      out := out + bytes;
      j := j + 1;
    }
    assert out + [] == out;
    return Ok(out);
  }

  /** One pass of the instruction loop of Bytecode.save: the opcode byte, the arity check, the operands. */
  method SaveInstr(ins: Instr) returns (r: Result<seq<byte>, CodecError>)
    ensures r == EncodeInstr(ins)
  {
    var op :- PackU8(ins.opcode);
    if ins.opcode !in NUM_OPERANDS {
      return Err(UnknownOpcode(ins.opcode));
    }
    if |ins.operands| != NUM_OPERANDS[ins.opcode] {
      return Err(ArityMismatch(ins.opcode, |ins.operands|));
    }
    var operands :- SaveOperands(ins.operands);
    return Ok(op + operands);
  }

  /** Bytecode.save: the header, then the instruction loop. */
  method Save(c: Bytecode) returns (r: Result<seq<byte>, CodecError>)
    ensures r == Encode(c)
  {
    var pool :- PackU16(c.memPoolSize);
    var count :- PackU16(|c.opcodes|);
    var header := MAGIC + [VERSION] + pool + count;
    var body: seq<byte> := [];
    var i := 0;
    assert c.opcodes[0..] == c.opcodes;
    PrependNothing(EncodeInstrs(c.opcodes));
    while i < |c.opcodes|
      invariant i <= |c.opcodes|
      invariant PrependTo(body, EncodeInstrs(c.opcodes[i..])) == EncodeInstrs(c.opcodes)
    {
      EncodeInstrsNext(c.opcodes, i, body);
      var bytes :- SaveInstr(c.opcodes[i]);
      body := body + bytes;
      i := i + 1;
    }
    assert body + [] == body;
    return Ok(header + body);
  }
}
