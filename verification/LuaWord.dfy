/** Instructions as 32-bit words: the operand fields of `src/lua/lopcodes.h`, and the proof that
    an instruction whose operands are in range can be read back from its word. */
module LuaWord {
  import opened LuaSource
  import opened LuaMachine

  /** The operands, by instruction format.  A jump stores its offset in excess 131071. */
  datatype Fields = ABC(a: int, b: int, c: int) | ABx(a: int, bx: int)

  function Bit(b: bool): int {
    if b then 1 else 0
  }

  function FieldsOf(i: Instr): Fields {
    match i
    case MOVE(a, b) => ABC(a, b, 0)
    case LOADK(a, bx) => ABx(a, bx)
    case LOADBOOL(a, value, skip) => ABC(a, Bit(value), Bit(skip))
    case LOADNIL(a, b) => ABC(a, b, 0)
    case GETGLOBAL(a, bx) => ABx(a, bx)
    case NOT(a, b) => ABC(a, b, 0)
    case JMP(sbx) => ABx(0, sbx + 131071)
    case CMP(_, accept, b, c) => ABC(Bit(accept), b, c)
    case TEST(a, cond) => ABC(a, 0, Bit(cond))
    case TESTSET(a, b, cond) => ABC(a, b, Bit(cond))
    case RETURN(a, n) => ABC(a, n, 0)
  }

  /** Every operand fits its field: 8 bits for A, 9 for B and C, 18 for Bx. */
  predicate Encodable(i: Instr) {
    match FieldsOf(i)
    case ABC(a, b, c) => 0 <= a <= 255 && 0 <= b <= 511 && 0 <= c <= 511
    case ABx(a, bx) => 0 <= a <= 255 && 0 <= bx <= 262143
  }

  function Opcode(i: Instr): int {
    match i
    case MOVE(_, _) => 0
    case LOADK(_, _) => 1
    case LOADBOOL(_, _, _) => 2
    case LOADNIL(_, _) => 3
    case GETGLOBAL(_, _) => 5
    case NOT(_, _) => 19
    case JMP(_) => 22
    case CMP(op, _, _, _) => (match op case CmpEq => 23 case CmpLt => 24 case CmpLe => 25)
    case TEST(_, _) => 26
    case TESTSET(_, _, _) => 27
    case RETURN(_, _) => 30
  }

  /** `CREATE_ABC` and `CREATE_ABx`: A from bit 6, C from bit 14, B from bit 23, Bx from bit 14. */
  function Encode(i: Instr): int {
    match FieldsOf(i)
    case ABC(a, b, c) => Opcode(i) + 64 * a + 16384 * c + 8388608 * b
    case ABx(a, bx) => Opcode(i) + 64 * a + 16384 * bx
  }

  function ArgA(w: nat): nat { w / 64 % 256 }
  function ArgC(w: nat): nat { w / 16384 % 512 }
  function ArgB(w: nat): nat { w / 8388608 % 512 }
  function ArgBx(w: nat): nat { w / 16384 % 262144 }

  function Decode(w: nat): Option<Instr> {
    var a, b, c, bx := ArgA(w), ArgB(w), ArgC(w), ArgBx(w);
    match w % 64
    case 0 => Some(MOVE(a, b))
    case 1 => Some(LOADK(a, bx))
    case 2 => Some(LOADBOOL(a, b != 0, c != 0))
    case 3 => Some(LOADNIL(a, b))
    case 5 => Some(GETGLOBAL(a, bx))
    case 19 => Some(NOT(a, b))
    case 22 => Some(JMP(bx - 131071))
    case 23 => Some(CMP(CmpEq, a != 0, b, c))
    case 24 => Some(CMP(CmpLt, a != 0, b, c))
    case 25 => Some(CMP(CmpLe, a != 0, b, c))
    case 26 => Some(TEST(a, c != 0))
    case 27 => Some(TESTSET(a, b, c != 0))
    case 30 => Some(RETURN(a, b))
    case _ => None
  }

  lemma FieldsABC(op: nat, a: nat, b: nat, c: nat)
    requires op < 64 && a < 256 && b < 512 && c < 512
    ensures var w := op + 64 * a + 16384 * c + 8388608 * b;
            w < 0x1_0000_0000 && w % 64 == op && ArgA(w) == a && ArgC(w) == c && ArgB(w) == b
  {
    var w := op + 64 * a + 16384 * c + 8388608 * b;
    assert w / 64 == a + 256 * c + 131072 * b;
    assert w / 16384 == c + 512 * b;
    assert w / 8388608 == b;
  }

  lemma FieldsABx(op: nat, a: nat, bx: nat)
    requires op < 64 && a < 256 && bx < 262144
    ensures var w := op + 64 * a + 16384 * bx;
            w < 0x1_0000_0000 && w % 64 == op && ArgA(w) == a && ArgBx(w) == bx
  {
    var w := op + 64 * a + 16384 * bx;
    assert w / 64 == a + 256 * bx;
    assert w / 16384 == bx;
  }

  /** An instruction that fits its fields is a 32-bit word, and is read back unchanged. */
  lemma RoundTrip(i: Instr)
    requires Encodable(i)
    ensures 0 <= Encode(i) < 0x1_0000_0000 && Decode(Encode(i)) == Some(i)
  {
    hide ArgA, ArgB, ArgC, ArgBx;
    match FieldsOf(i)
    case ABC(a, b, c) => FieldsABC(Opcode(i), a, b, c);
    case ABx(a, bx) => FieldsABx(Opcode(i), a, bx);
  }

  function EncodeAll(c: Code): seq<int> {
    seq(|c|, i requires 0 <= i < |c| => Encode(c[i]))
  }

  /** The code can be read back from its words. */
  ghost predicate ReadBack(c: Code) {
    && |EncodeAll(c)| == |c|
    && forall i :: 0 <= i < |c| ==> 0 <= EncodeAll(c)[i] < 0x1_0000_0000 && Decode(EncodeAll(c)[i]) == Some(c[i])
  }

  lemma CodeReadBack(c: Code)
    requires forall i :: 0 <= i < |c| ==> Encodable(c[i])
    ensures ReadBack(c)
  {
    forall i | 0 <= i < |c|
      ensures 0 <= Encode(c[i]) < 0x1_0000_0000 && Decode(Encode(c[i])) == Some(c[i])
    {
      RoundTrip(c[i]);
    }
  }

  // ---------- operands of comparisons ----------

  /** `ISK` and `INDEXK`: an operand from 256 on is a constant, a smaller one a register. */
  lemma RKMeans(x: nat, k: seq<Value>, regs: Regs)
    ensures x < 256 ==> RK(x, k, regs) == Get(regs, x)
    ensures x >= 256 && x - 256 < |k| ==> RK(x, k, regs) == k[x - 256]
  {
  }
}
