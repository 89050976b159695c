/**
 * Cloning an op array by relocation (runkit_functions.c): opcodes and literals are copied to a new
 * block, and the operands that hold addresses are rewritten.  Addresses are numbers.
 */
module OpArrayClone {

  /** 64-bit builds store 32-bit displacements from the opline, 32-bit builds absolute addresses. */
  datatype Mode = Relative | Absolute

  datatype OperandType = CONST | UNUSED | TMP | VAR | CV

  /** The jumps the copy knows, and every other opcode with what the engine makes of its operands. */
  datatype Opcode = FAST_CALL | JMP | JMPZ | JMPNZ | JMPZ_EX | JMPNZ_EX | JMP_SET
                  | Other(code: nat, jump1: bool, jump2: bool)

  /** A zend_op; `rest` is everything else in it: the result operand, the extended value and the line number. */
  datatype Op = Op(opcode: Opcode, type1: OperandType, op1: int, type2: OperandType, op2: int, rest: nat)

  const OP_SIZE := 32
  const ZVAL_SIZE := 16

  /** Reading a uint32_t field as int32_t. */
  function Int32(x: int): int {
    (x + 0x8000_0000) % 0x1_0000_0000 - 0x8000_0000
  }

  predicate Fits32(x: int) {
    -0x8000_0000 <= x < 0x8000_0000
  }

  function Align16(n: nat): (r: nat)
    ensures r % 16 == 0 && n <= r < n + 16
  {
    (n + 15) / 16 * 16
  }

  /** OP_JMP_ADDR and RT_CONSTANT: the address an operand of the opline at `line` stands for. */
  function Resolve(mode: Mode, line: int, operand: int): int {
    if mode.Relative? then line + operand else operand
  }

  predicate Listed1(opcode: Opcode) {
    opcode.FAST_CALL? || opcode.JMP?
  }

  predicate Listed2(opcode: Opcode) {
    opcode.JMPZ? || opcode.JMPNZ? || opcode.JMPZ_EX? || opcode.JMPNZ_EX? || opcode.JMP_SET?
  }

  /** Where op arrays live: `count` opcodes at `code` and `literals` zvals at `data`. */
  datatype Layout = Layout(code: int, count: nat, data: int, literals: nat)

  function Line(l: Layout, i: int): int {
    l.code + OP_SIZE * i
  }

  function Datum(l: Layout, i: int): int {
    l.data + ZVAL_SIZE * i
  }

  // ----- what an op array means

  /** A literal, an opcode to continue at, a variable slot, or an address outside the op array. */
  datatype Meaning<V> = Literal(index: nat, value: V) | Goto(index: nat) | Slot(n: int) | Wild

  datatype Instr<V> = Instr(opcode: Opcode, type1: OperandType, first: Meaning<V>,
                            type2: OperandType, second: Meaning<V>, rest: nat)

  function MeaningOf<V>(mode: Mode, l: Layout, values: seq<V>, line: int, ty: OperandType, jump: bool,
                        operand: int): Meaning<V>
    requires |values| == l.literals
  {
    var addr := Resolve(mode, line, operand);
    if ty.CONST? then
      if l.data <= addr < Datum(l, l.literals) && (addr - l.data) % ZVAL_SIZE == 0
      then Literal((addr - l.data) / ZVAL_SIZE, values[(addr - l.data) / ZVAL_SIZE]) else Wild
    else if jump then
      if l.code <= addr < Line(l, l.count) && (addr - l.code) % OP_SIZE == 0
      then Goto((addr - l.code) / OP_SIZE) else Wild
    else Slot(operand)
  }

  predicate Jumps1(opcode: Opcode) {
    Listed1(opcode) || (opcode.Other? && opcode.jump1)
  }

  predicate Jumps2(opcode: Opcode) {
    Listed2(opcode) || (opcode.Other? && opcode.jump2)
  }

  function Decode<V>(mode: Mode, l: Layout, values: seq<V>, i: nat, op: Op): Instr<V>
    requires |values| == l.literals
  {
    Instr(op.opcode, op.type1, MeaningOf(mode, l, values, Line(l, i), op.type1, Jumps1(op.opcode), op.op1),
          op.type2, MeaningOf(mode, l, values, Line(l, i), op.type2, Jumps2(op.opcode), op.op2), op.rest)
  }

  /** The program an op array at layout l stands for. */
  function Program<V>(mode: Mode, l: Layout, values: seq<V>, ops: seq<Op>): (p: seq<Instr<V>>)
    requires |values| == l.literals
  {
    seq(|ops|, i requires 0 <= i < |ops| => Decode(mode, l, values, i, ops[i]))
  }

  /** No operand leads out of the op array. */
  predicate WellFormed<V>(mode: Mode, l: Layout, values: seq<V>, ops: seq<Op>)
    requires |values| == l.literals
  {
    && |ops| == l.count
    && forall i | 0 <= i < |ops| ::
         !Decode(mode, l, values, i, ops[i]).first.Wild? && !Decode(mode, l, values, i, ops[i]).second.Wild?
  }

  predicate Apart(a: int, aSize: int, b: int, bSize: int) {
    a + aSize <= b || b + bSize <= a
  }

  // ----- what the copy does to one operand

  /** A jump operand of the opline at `line` of the copy. */
  function FixJump(mode: Mode, from: Layout, to: Layout, line: int, operand: int): int {
    var addr := Resolve(mode, line, operand);
    if from.code <= addr < Line(from, from.count) then
      if mode.Absolute? then to.code + (operand - from.code) / OP_SIZE * OP_SIZE
      else Int32(operand + (from.code - to.code))
    else operand
  }

  function FixJumps(mode: Mode, from: Layout, to: Layout, i: nat, op: Op): Op {
    op.(op1 := if !op.type1.CONST? && Listed1(op.opcode) then FixJump(mode, from, to, Line(to, i), op.op1) else op.op1,
        op2 := if !op.type2.CONST? && Listed2(op.opcode) then FixJump(mode, from, to, Line(to, i), op.op2) else op.op2)
  }

  /** The operand that makes the opline at `line` refer to `addr`. */
  function Encode(mode: Mode, line: int, addr: int): int {
    if mode.Relative? then Int32(addr - line) else addr
  }

  /** The scan for the literal an operand refers to, from literal n - 1 down. */
  function FixConst(mode: Mode, from: Layout, to: Layout, i: nat, n: nat, operand: int): int {
    if n == 0 then operand
    else if Resolve(mode, Line(from, i), operand) == Datum(from, n - 1) then
      Encode(mode, Line(to, i), Datum(to, n - 1))
    else FixConst(mode, from, to, i, n - 1, operand)
  }

  function FixConsts(mode: Mode, from: Layout, to: Layout, i: nat, op: Op): Op {
    op.(op1 := if op.type1.CONST? then FixConst(mode, from, to, i, from.literals, op.op1) else op.op1,
        op2 := if op.type2.CONST? then FixConst(mode, from, to, i, from.literals, op.op2) else op.op2)
  }

  function Fixed(mode: Mode, from: Layout, to: Layout, i: nat, op: Op): Op {
    FixConsts(mode, from, to, i, FixJumps(mode, from, to, i, op))
  }

  /** The copied opcodes. */
  function FixedOps(mode: Mode, from: Layout, to: Layout, ops: seq<Op>): seq<Op> {
    seq(|ops|, i requires 0 <= i < |ops| => Fixed(mode, from, to, i, ops[i]))
  }

  // ----- the same operand by operand

  /** The signed value of the low 32 bits of y. */
  predicate Low32(x: int, y: int) {
    -0x8000_0000 <= x < 0x8000_0000 && (x - y) % 0x1_0000_0000 == 0
  }

  /** Nothing but addresses moved: of the operands only constants and the jumps the copy lists may change. */
  predicate OnlyAddressesMoved(a: Op, b: Op) {
    && b.opcode == a.opcode && b.type1 == a.type1 && b.type2 == a.type2 && b.rest == a.rest
    && (a.type1 != CONST && a.opcode !in {FAST_CALL, JMP} ==> b.op1 == a.op1)
    && (a.type2 != CONST && a.opcode !in {JMPZ, JMPNZ, JMPZ_EX, JMPNZ_EX, JMP_SET} ==> b.op2 == a.op2)
  }

  /** Operand x of opcode i refers to literal j. */
  predicate Refers(mode: Mode, l: Layout, i: nat, j: int, x: int) {
    0 <= j < l.literals && (if mode == Relative then l.code + 32 * i + x else x) == l.data + 16 * j
  }

  /** A constant operand moves with the literal it refers to, and stays when it refers to none. */
  ghost predicate ConstMoved(mode: Mode, from: Layout, to: Layout, i: nat, x: int, y: int) {
    && (forall j | Refers(mode, from, i, j, x) ::
          if mode == Relative then Low32(y, to.data + 16 * j - to.code - 32 * i) else y == to.data + 16 * j)
    && ((forall j :: !Refers(mode, from, i, j, x)) ==> y == x)
  }

  /** A listed jump whose target, read in the copy, lies in the old opcodes is moved by the distance of the blocks. */
  predicate JumpMoved(mode: Mode, from: Layout, to: Layout, i: nat, x: int, y: int) {
    if mode == Relative then
      if from.code <= to.code + 32 * i + x < from.code + 32 * from.count then Low32(y, x + from.code - to.code)
      else y == x
    else y == if from.code <= x < from.code + 32 * from.count then to.code + (x - from.code) / 32 * 32 else x
  }

  lemma {:induction false} FixConstMoves(mode: Mode, from: Layout, to: Layout, i: nat, n: nat, x: int)
    requires n <= from.literals && forall j | Refers(mode, from, i, j, x) :: j < n
    ensures ConstMoved(mode, from, to, i, x, FixConst(mode, from, to, i, n, x))
  {
    if n > 0 {
      if Resolve(mode, Line(from, i), x) == Datum(from, n - 1) {
        assert Refers(mode, from, i, n - 1, x);
      } else {
        FixConstMoves(mode, from, to, i, n - 1, x);
      }
    }
  }

  lemma FixJumpMoves(mode: Mode, from: Layout, to: Layout, i: nat, x: int)
    ensures JumpMoved(mode, from, to, i, x, FixJump(mode, from, to, Line(to, i), x))
  {
  }

  lemma FixedAt(mode: Mode, from: Layout, to: Layout, ops: seq<Op>, i: nat)
    requires i < |ops|
    ensures OnlyAddressesMoved(ops[i], FixedOps(mode, from, to, ops)[i])
  {
  }

  /** What the copy is, operand by operand. */
  lemma FixedOperands(mode: Mode, from: Layout, to: Layout, ops: seq<Op>, i: nat)
    requires i < |ops|
    ensures var a, b := ops[i], FixedOps(mode, from, to, ops)[i];
            && (a.type1 == CONST ==> ConstMoved(mode, from, to, i, a.op1, b.op1))
            && (a.type2 == CONST ==> ConstMoved(mode, from, to, i, a.op2, b.op2))
            && (a.type1 != CONST && a.opcode in {FAST_CALL, JMP} ==> JumpMoved(mode, from, to, i, a.op1, b.op1))
            && (a.type2 != CONST && a.opcode in {JMPZ, JMPNZ, JMPZ_EX, JMPNZ_EX, JMP_SET} ==>
                  JumpMoved(mode, from, to, i, a.op2, b.op2))
  {
    var a := ops[i];
    FixConstMoves(mode, from, to, i, from.literals, a.op1);
    FixConstMoves(mode, from, to, i, from.literals, a.op2);
    FixJumpMoves(mode, from, to, i, a.op1);
    FixJumpMoves(mode, from, to, i, a.op2);
  }

  // ----- the copy itself

  class OpArray<V(0)> {
    const mode: Mode
    const donePassTwo: bool
    var opcodes: array<Op>
    var opcodesAt: int
    var literals: array?<V>
    var literalsAt: int

    constructor (mode: Mode, donePassTwo: bool, opcodes: array<Op>, opcodesAt: int, literals: array?<V>,
                 literalsAt: int)
      ensures this.mode == mode && this.donePassTwo == donePassTwo
      ensures this.opcodes == opcodes && this.opcodesAt == opcodesAt
      ensures this.literals == literals && this.literalsAt == literalsAt
    {
      this.mode, this.donePassTwo := mode, donePassTwo;
      this.opcodes, this.opcodesAt, this.literals, this.literalsAt := opcodes, opcodesAt, literals, literalsAt;
    }

    /** Without literals there is nothing at the literal address. */
    function Where(): Layout
      reads this
    {
      Layout(opcodesAt, opcodes.Length, literalsAt, if literals == null then 0 else literals.Length)
    }

    function Values(): (r: seq<V>)
      reads this, literals
      ensures |r| == Where().literals
    {
      if literals == null then [] else literals[..]
    }

    /** One block holds opcodes and literals, so that displacements stay small. */
    predicate SharesBlock()
      reads this
    {
      mode.Relative? && donePassTwo && literals != null
    }

    /** The bytes of the block allocated for the opcodes. */
    function BlockSize(): (size: nat)
      reads this
      ensures size == 32 * opcodes.Length + if mode == Relative && donePassTwo && literals != null
                                            then 16 * literals.Length else 0
    {
      AlignedAlready(2 * opcodes.Length);
      assert OP_SIZE * opcodes.Length == 16 * (2 * opcodes.Length);
      if SharesBlock() then Align16(OP_SIZE * opcodes.Length) + ZVAL_SIZE * literals.Length
      else OP_SIZE * opcodes.Length
    }

    /** The layout of the copy, when the allocator returns `block` and, if asked, `separate`. */
    function Target(block: int, separate: int): Layout
      reads this
    {
      Layout(block, opcodes.Length,
             if literals == null then literalsAt
             else if SharesBlock() then block + Align16(OP_SIZE * opcodes.Length) else separate,
             Where().literals)
    }

    /** Replaces opcodes and literals by their relocated copies; the originals stay as they are. */
    method CopyCtor(block: int, separate: int)
      modifies this
      ensures Where() == old(Target(block, separate))
      ensures fresh(opcodes) && (literals != null ==> fresh(literals))
      ensures Values() == old(Values())
      ensures opcodes.Length == old(opcodes.Length)
      ensures opcodesAt == block
      ensures literals != null ==>
                literalsAt == if mode == Relative && donePassTwo then block + 32 * opcodes.Length else separate
      ensures forall i | 0 <= i < opcodes.Length :: OnlyAddressesMoved(old(opcodes[..])[i], opcodes[i])
      ensures opcodes[..] == FixedOps(mode, old(Where()), Where(), old(opcodes[..]))
      ensures old(SharesBlock()) && old(BlockSize()) <= 0x8000_0000
              && Apart(old(opcodesAt), OP_SIZE * old(opcodes.Length), block, old(BlockSize()))
              && WellFormed(mode, old(Where()), old(Values()), old(opcodes[..])) ==>
                Program(mode, Where(), Values(), opcodes[..])
                  == Program(mode, old(Where()), old(Values()), old(opcodes[..]))
    {
      ghost var was := opcodes[..];
      var from, to := Where(), Target(block, separate);
      var copy := CopyOpcodes(from, to);
      if literals != null {
        var values := CopyLiterals();
        RelocateConstants(from, to, copy);
        literals := values;
        literalsAt := to.data;
      } else {
        forall i | 0 <= i < |was| ensures FixConsts(mode, from, to, i, copy[i]) == copy[i] {
          assert FixConst(mode, from, to, i, 0, copy[i].op1) == copy[i].op1;
          assert FixConst(mode, from, to, i, 0, copy[i].op2) == copy[i].op2;
        }
      }
      opcodes := copy;
      opcodesAt := block;
      assert copy[..] == FixedOps(mode, from, to, was);
      forall i | 0 <= i < copy.Length ensures OnlyAddressesMoved(was[i], copy[i]) {
        FixedAt(mode, from, to, was, i);
        assert copy[..][i] == copy[i];
      }
      if mode.Relative? && donePassTwo && literals != null {
        AlignedAlready(2 * copy.Length);
        assert OP_SIZE * copy.Length == 16 * (2 * copy.Length);
      }
      SharedBlockKeepsProgram(from, to, old(Values()), was, old(SharesBlock()), old(BlockSize()));
    }

    method CopyOpcodes(from: Layout, to: Layout) returns (copy: array<Op>)
      requires from == Where()
      ensures fresh(copy) && copy.Length == opcodes.Length
      ensures forall i | 0 <= i < copy.Length :: OnlyAddressesMoved(opcodes[i], copy[i])
      ensures forall i | 0 <= i < copy.Length :: copy[i] == FixJumps(mode, from, to, i, opcodes[i])
    {
      copy := new Op[opcodes.Length];
      var lastOp := Line(from, from.count);
      for i := 0 to opcodes.Length
        invariant forall j | 0 <= j < i :: copy[j] == FixJumps(mode, from, to, j, opcodes[j])
      {
        copy[i] := opcodes[i];
        if !copy[i].type1.CONST? && Listed1(copy[i].opcode) {
          var addr := Resolve(mode, Line(to, i), copy[i].op1);
          if from.code <= addr && addr < lastOp {
            if mode.Absolute? {
              copy[i] := copy[i].(op1 := to.code + (opcodes[i].op1 - from.code) / OP_SIZE * OP_SIZE);
            } else {
              copy[i] := copy[i].(op1 := Int32(copy[i].op1 + (from.code - to.code)));
            }
          }
        }
        if !copy[i].type2.CONST? && Listed2(copy[i].opcode) {
          var addr := Resolve(mode, Line(to, i), copy[i].op2);
          if from.code <= addr && addr < lastOp {
            if mode.Absolute? {
              copy[i] := copy[i].(op2 := to.code + (opcodes[i].op2 - from.code) / OP_SIZE * OP_SIZE);
            } else {
              copy[i] := copy[i].(op2 := Int32(copy[i].op2 + (from.code - to.code)));
            }
          }
        }
      }
    }

    method CopyLiterals() returns (values: array<V>)
      requires literals != null
      ensures fresh(values) && values[..] == literals[..]
    {
      values := new V[literals.Length];
      var i := literals.Length;
      while i > 0
        invariant 0 <= i <= literals.Length
        invariant forall j | i <= j < literals.Length :: values[j] == literals[j]
      {
        i := i - 1;
        values[i] := literals[i];
      }
    }

    method RelocateConstants(from: Layout, to: Layout, copy: array<Op>)
      requires copy.Length == from.count && from == Where()
      modifies copy
      ensures forall k | 0 <= k < copy.Length :: copy[k] == FixConsts(mode, from, to, k, old(copy[k]))
    {
      for k := 0 to copy.Length
        invariant forall j | 0 <= j < k :: copy[j] == FixConsts(mode, from, to, j, old(copy[j]))
        invariant forall j | k <= j < copy.Length :: copy[j] == old(copy[j])
      {
        var foundOp1, foundOp2 := false, false;
        var oldLine, newLine := Line(from, k), Line(to, k);
        var i := from.literals;
        ghost var op := copy[k];
        while i > 0
          invariant 0 <= i <= from.literals
          invariant forall j | 0 <= j < k :: copy[j] == FixConsts(mode, from, to, j, old(copy[j]))
          invariant forall j | k < j < copy.Length :: copy[j] == old(copy[j])
          invariant copy[k] == op.(op1 := copy[k].op1, op2 := copy[k].op2)
          invariant Scanned(mode, from, to, k, i, op.type1, op.op1, foundOp1, copy[k].op1)
          invariant Scanned(mode, from, to, k, i, op.type2, op.op2, foundOp2, copy[k].op2)
        {
          i := i - 1;
          if !foundOp1 && copy[k].type1.CONST? && Resolve(mode, oldLine, copy[k].op1) == Datum(from, i) {
            copy[k] := copy[k].(op1 := Encode(mode, newLine, Datum(to, i)));
            foundOp1 := true;
          }
          if !foundOp2 && copy[k].type2.CONST? && Resolve(mode, oldLine, copy[k].op2) == Datum(from, i) {
            copy[k] := copy[k].(op2 := Encode(mode, newLine, Datum(to, i)));
            foundOp2 := true;
          }
        }
      }
    }
  }

  /** Literals i and up have been tried for an operand that was x and now is y. */
  predicate Scanned(mode: Mode, from: Layout, to: Layout, k: nat, i: nat, ty: OperandType, x: int, found: bool,
                    y: int) {
    if !ty.CONST? then !found && y == x
    else FixConst(mode, from, to, k, from.literals, x) == (if found then y else FixConst(mode, from, to, k, i, x))
         && (!found ==> y == x)
  }

  // ----- jumps

  /** Under relative addressing the in-range test never fires, and the jump keeps its opcode index. */
  lemma RelativeJumpKept(from: Layout, to: Layout, i: nat, t: nat, x: int)
    requires i < from.count && t < from.count && to.count == from.count
    requires Apart(from.code, OP_SIZE * from.count, to.code, OP_SIZE * to.count)
    requires Resolve(Relative, Line(from, i), x) == Line(from, t)
    ensures FixJump(Relative, from, to, Line(to, i), x) == x
    ensures Resolve(Relative, Line(to, i), x) == Line(to, t)
  {
    assert Line(to, i) + x == Line(to, t);
  }

  /** Under absolute addressing it always fires, and the jump is rebased. */
  lemma AbsoluteJumpRebased(from: Layout, to: Layout, line: int, t: nat, x: int)
    requires t < from.count
    requires Resolve(Absolute, line, x) == Line(from, t)
    ensures FixJump(Absolute, from, to, line, x) == Line(to, t)
  {
  }

  // ----- literals

  lemma {:induction false} FixConstAt(mode: Mode, from: Layout, to: Layout, i: nat, n: nat, j: nat, x: int)
    requires j < n && Resolve(mode, Line(from, i), x) == Datum(from, j)
    ensures FixConst(mode, from, to, i, n, x) == Encode(mode, Line(to, i), Datum(to, j))
  {
    if j < n - 1 { FixConstAt(mode, from, to, i, n - 1, j, x); }
  }

  lemma Int32Exact(x: int)
    ensures Int32(x) == x <==> Fits32(x)
  {
  }

  /** A constant operand of the copy refers to the copy of its literal exactly when the displacement fits. */
  lemma ConstExactIff(mode: Mode, from: Layout, to: Layout, i: nat, j: nat, x: int)
    requires j < from.literals && Resolve(mode, Line(from, i), x) == Datum(from, j)
    ensures Resolve(mode, Line(to, i), FixConst(mode, from, to, i, from.literals, x)) == Datum(to, j)
            <==> mode.Absolute? || Fits32(Datum(to, j) - Line(to, i))
  {
    FixConstAt(mode, from, to, i, from.literals, j, x);
    Int32Exact(Datum(to, j) - Line(to, i));
  }

  /** In a single block every displacement is positive and smaller than the block. */
  lemma SingleBlockDisplacements(to: Layout, i: nat, j: nat)
    requires i < to.count && j < to.literals
    requires to.data == to.code + Align16(OP_SIZE * to.count)
    ensures to.data % 16 == to.code % 16
    ensures 0 < Datum(to, j) - Line(to, i) < Align16(OP_SIZE * to.count) + ZVAL_SIZE * to.literals
    ensures Line(to, to.count) <= to.data
  {
    assert OP_SIZE * to.count == 16 * (2 * to.count);
    AlignedAlready(2 * to.count);
  }

  lemma AlignedAlready(k: nat)
    ensures Align16(16 * k) == 16 * k
  {
  }

  /** Whether relative constants need rewriting at all: only when the distance to the literals changes. */
  lemma ConstUnchangedIff(from: Layout, to: Layout, i: nat, j: nat, x: int)
    requires j < from.literals && Resolve(Relative, Line(from, i), x) == Datum(from, j)
    requires Fits32(Datum(to, j) - Line(to, i))
    ensures FixConst(Relative, from, to, i, from.literals, x) == x <==> to.data - to.code == from.data - from.code
  {
    FixConstAt(Relative, from, to, i, from.literals, j, x);
    Int32Exact(Datum(to, j) - Line(to, i));
  }

  /** The scan as it would be without the found flags. */
  function FixConstUnflagged(from: Layout, to: Layout, i: nat, n: nat, operand: int): int {
    if n == 0 then operand
    else FixConstUnflagged(from, to, i, n - 1,
                           if Resolve(Relative, Line(from, i), operand) == Datum(from, n - 1)
                           then Encode(Relative, Line(to, i), Datum(to, n - 1)) else operand)
  }

  /** The flags are needed: a rewritten operand may look like a reference to a literal still to be tried. */
  lemma FlagNeeded()
    ensures var from, to := Layout(0, 1, 48, 2), Layout(1000, 1, 1032, 2);
            && Resolve(Relative, Line(from, 0), 64) == Datum(from, 1)
            && Resolve(Relative, Line(to, 0), FixConst(Relative, from, to, 0, 2, 64)) == Datum(to, 1)
            && Resolve(Relative, Line(to, 0), FixConstUnflagged(from, to, 0, 2, 64)) == Datum(to, 0)
  {
    var from, to := Layout(0, 1, 48, 2), Layout(1000, 1, 1032, 2);
    assert FixConstUnflagged(from, to, 0, 1, 48) == 32;
  }

  // ----- the clone means what its source means

  /** The guard an operand must meet for its copy to mean the same. */
  predicate Kept(mode: Mode, from: Layout, to: Layout, i: nat, ty: OperandType, jump: bool, listed: bool,
                 operand: int) {
    if ty.CONST? then
      mode.Absolute? || Fits32(Resolve(mode, Line(from, i), operand) - from.data + to.data - Line(to, i))
    else mode.Absolute? && jump ==> listed
  }

  predicate OpKept(mode: Mode, from: Layout, to: Layout, i: nat, op: Op) {
    && Kept(mode, from, to, i, op.type1, Jumps1(op.opcode), Listed1(op.opcode), op.op1)
    && Kept(mode, from, to, i, op.type2, Jumps2(op.opcode), Listed2(op.opcode), op.op2)
  }

  function FixedOperand(mode: Mode, from: Layout, to: Layout, i: nat, ty: OperandType, listed: bool,
                        operand: int): int {
    if ty.CONST? then FixConst(mode, from, to, i, from.literals, operand)
    else if listed then FixJump(mode, from, to, Line(to, i), operand) else operand
  }

  /** The new block lies apart from the old opcodes. */
  predicate Placed(from: Layout, to: Layout) {
    && to.count == from.count && to.literals == from.literals
    && Apart(from.code, OP_SIZE * from.count, to.code, OP_SIZE * to.count)
  }

  lemma ConstMeaningIff<V>(mode: Mode, from: Layout, to: Layout, values: seq<V>, i: nat, jump: bool, listed: bool,
                           x: int)
    requires |values| == from.literals && Placed(from, to) && i < from.count
    requires !MeaningOf(mode, from, values, Line(from, i), CONST, jump, x).Wild?
    ensures (MeaningOf(mode, to, values, Line(to, i), CONST, jump, FixedOperand(mode, from, to, i, CONST, listed, x))
             == MeaningOf(mode, from, values, Line(from, i), CONST, jump, x))
            <==> Kept(mode, from, to, i, CONST, jump, listed, x)
  {
    var j := (Resolve(mode, Line(from, i), x) - from.data) / ZVAL_SIZE;
    assert Resolve(mode, Line(from, i), x) == Datum(from, j);
    ConstExactIff(mode, from, to, i, j, x);
    LiteralAt(mode, to, values, Line(to, i), jump, FixedOperand(mode, from, to, i, CONST, listed, x), j);
  }

  lemma LiteralAt<V>(mode: Mode, l: Layout, values: seq<V>, line: int, jump: bool, x: int, j: nat)
    requires |values| == l.literals && j < l.literals
    ensures (MeaningOf(mode, l, values, line, CONST, jump, x) == Literal(j, values[j]))
         == (Resolve(mode, line, x) == Datum(l, j))
  {
  }

  lemma JumpMeaningIff<V>(mode: Mode, from: Layout, to: Layout, values: seq<V>, i: nat, ty: OperandType, jump: bool,
                          listed: bool, x: int)
    requires |values| == from.literals && Placed(from, to) && i < from.count && !ty.CONST? && (listed ==> jump)
    requires !MeaningOf(mode, from, values, Line(from, i), ty, jump, x).Wild?
    ensures (MeaningOf(mode, to, values, Line(to, i), ty, jump, FixedOperand(mode, from, to, i, ty, listed, x))
             == MeaningOf(mode, from, values, Line(from, i), ty, jump, x))
            <==> Kept(mode, from, to, i, ty, jump, listed, x)
  {
    if jump {
      var t := (Resolve(mode, Line(from, i), x) - from.code) / OP_SIZE;
      assert Resolve(mode, Line(from, i), x) == Line(from, t);
      if mode.Relative? {
        RelativeJumpKept(from, to, i, t, x);
      } else {
        AbsoluteJumpRebased(from, to, Line(to, i), t, x);
      }
    }
  }

  /** One opcode of the copy means what it meant exactly when the guard holds for both operands. */
  lemma DecodeKeptIff<V>(mode: Mode, from: Layout, to: Layout, values: seq<V>, i: nat, op: Op)
    requires |values| == from.literals && Placed(from, to) && i < from.count
    requires !Decode(mode, from, values, i, op).first.Wild? && !Decode(mode, from, values, i, op).second.Wild?
    ensures Decode(mode, to, values, i, Fixed(mode, from, to, i, op)) == Decode(mode, from, values, i, op)
            <==> OpKept(mode, from, to, i, op)
  {
    if op.type1.CONST? {
      ConstMeaningIff(mode, from, to, values, i, Jumps1(op.opcode), Listed1(op.opcode), op.op1);
    } else {
      JumpMeaningIff(mode, from, to, values, i, op.type1, Jumps1(op.opcode), Listed1(op.opcode), op.op1);
    }
    if op.type2.CONST? {
      ConstMeaningIff(mode, from, to, values, i, Jumps2(op.opcode), Listed2(op.opcode), op.op2);
    } else {
      JumpMeaningIff(mode, from, to, values, i, op.type2, Jumps2(op.opcode), Listed2(op.opcode), op.op2);
    }
  }

  /** The clone stands for the same program exactly when every opcode meets the guard. */
  lemma ProgramKeptIff<V>(mode: Mode, from: Layout, to: Layout, values: seq<V>, ops: seq<Op>)
    requires |values| == from.literals && Placed(from, to) && WellFormed(mode, from, values, ops)
    ensures Program(mode, to, values, FixedOps(mode, from, to, ops)) == Program(mode, from, values, ops)
            <==> forall i | 0 <= i < |ops| :: OpKept(mode, from, to, i, ops[i])
  {
    var copy := FixedOps(mode, from, to, ops);
    var before, after := Program(mode, from, values, ops), Program(mode, to, values, copy);
    forall i | 0 <= i < |ops| ensures after[i] == before[i] <==> OpKept(mode, from, to, i, ops[i]) {
      DecodeKeptIff(mode, from, to, values, i, ops[i]);
    }
    if forall i | 0 <= i < |ops| :: OpKept(mode, from, to, i, ops[i]) {
      assert after == before;
    }
  }

  /** On 64-bit builds a single block below 2 GiB always gives a clone of the same meaning. */
  lemma SingleBlockKeepsProgram<V>(from: Layout, to: Layout, values: seq<V>, ops: seq<Op>)
    requires |values| == from.literals && Placed(from, to) && WellFormed(Relative, from, values, ops)
    requires to.data == to.code + Align16(OP_SIZE * to.count)
    requires Align16(OP_SIZE * to.count) + ZVAL_SIZE * to.literals <= 0x8000_0000
    ensures Program(Relative, to, values, FixedOps(Relative, from, to, ops)) == Program(Relative, from, values, ops)
  {
    forall i | 0 <= i < |ops| ensures OpKept(Relative, from, to, i, ops[i]) {
      var op := ops[i];
      assert !Decode(Relative, from, values, i, op).first.Wild?;
      if op.type1.CONST? { ConstFits(from, to, values, i, Jumps1(op.opcode), op.op1); }
      if op.type2.CONST? { ConstFits(from, to, values, i, Jumps2(op.opcode), op.op2); }
    }
    ProgramKeptIff(Relative, from, to, values, ops);
  }

  /** The same in the terms of the copy constructor. */
  lemma SharedBlockKeepsProgram<V>(from: Layout, to: Layout, values: seq<V>, ops: seq<Op>, shares: bool, size: nat)
    requires |values| == from.literals && to.count == from.count && to.literals == from.literals
    requires shares ==> to.data == to.code + Align16(OP_SIZE * to.count)
                        && size == Align16(OP_SIZE * to.count) + ZVAL_SIZE * to.literals
    ensures shares && size <= 0x8000_0000 && Apart(from.code, OP_SIZE * from.count, to.code, size)
            && WellFormed(Relative, from, values, ops) ==>
              Program(Relative, to, values, FixedOps(Relative, from, to, ops)) == Program(Relative, from, values, ops)
  {
    if shares && size <= 0x8000_0000 && Apart(from.code, OP_SIZE * from.count, to.code, size)
       && WellFormed(Relative, from, values, ops) {
      assert OP_SIZE * to.count <= Align16(OP_SIZE * to.count);
      SingleBlockKeepsProgram(from, to, values, ops);
    }
  }

  lemma ConstFits<V>(from: Layout, to: Layout, values: seq<V>, i: nat, jump: bool, x: int)
    requires |values| == from.literals && Placed(from, to) && i < from.count
    requires !MeaningOf(Relative, from, values, Line(from, i), CONST, jump, x).Wild?
    requires to.data == to.code + Align16(OP_SIZE * to.count)
    requires Align16(OP_SIZE * to.count) + ZVAL_SIZE * to.literals <= 0x8000_0000
    ensures Fits32(Resolve(Relative, Line(from, i), x) - from.data + to.data - Line(to, i))
  {
    var j := (Resolve(Relative, Line(from, i), x) - from.data) / ZVAL_SIZE;
    assert Resolve(Relative, Line(from, i), x) == Datum(from, j);
    SingleBlockDisplacements(to, i, j);
  }
}
