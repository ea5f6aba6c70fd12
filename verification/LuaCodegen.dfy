/** What each operation of the code generator does, on values: jump lists are sequences of
    jump positions, and a jump that is still in some list is stored as OPEN.  The class in
    LuaFuncState.dfy threads the same lists through the instructions. */
module LuaCodegen {
  import opened LuaSource
  import opened LuaMachine

  /** The generator state.  `err` is set once the original would have raised an error. */
  datatype Gen = Gen(
    code: Code,
    jpc: seq<nat>,
    lasttarget: int,
    freereg: nat,
    maxstack: nat,
    nactvar: nat,
    k: seq<Value>,
    err: bool)

  datatype Kind =
    | VNil
    | VTrue
    | VFalse
    | VK(info: nat)
    | VKNum(nval: real)
    | VLocal(reg: nat)
    | VGlobal(name: nat)
    | VJmp(pc: nat)
    | VReloc(pc: nat)
    | VNonReloc(reg: nat)

  datatype Exp = Exp(k: Kind, t: seq<nat>, f: seq<nat>)

  predicate HasJumps(e: Exp) {
    e.t != [] || e.f != []
  }

  // ---------- jump lists ----------

  predicate TooFar(j: nat, dest: int) {
    dest - (j + 1) > MAXARG_SBX || (j + 1) - dest > MAXARG_SBX
  }

  /** Concatenation links the last jump of the first list to the head of the second. */
  predicate LinkTooFar(l1: seq<nat>, l2: seq<nat>) {
    l1 != [] && l2 != [] && TooFar(l1[|l1| - 1], l2[0])
  }

  function PatchedTest(i: Instr, reg: nat): Instr
    requires i.TESTSET?
  {
    if reg != NO_REG && reg != i.b then TESTSET(reg, i.b, i.cond) else TEST(i.b, i.cond)
  }

  /** Instruction `i` after every jump of `list` was sent to `vtarget`, when a TESTSET
      guards it, and else to `dtarget`; those TESTSETs store into `reg`. */
  function PatchedAt(code: Code, list: seq<nat>, vtarget: nat, reg: nat, dtarget: nat, i: nat): Instr
    requires i < |code|
  {
    if i in list then JMP((if Guarded(code, i) then vtarget else dtarget) - (i + 1))
    else if code[i].TESTSET? && i + 1 in list then PatchedTest(code[i], reg)
    else code[i]
  }

  function Patch(code: Code, list: seq<nat>, vtarget: nat, reg: nat, dtarget: nat): (r: Code)
    ensures |r| == |code|
  {
    seq(|code|, i requires 0 <= i < |code| => PatchedAt(code, list, vtarget, reg, dtarget, i))
  }

  predicate PatchTooFar(code: Code, list: seq<nat>, vtarget: nat, dtarget: nat) {
    exists j :: j in list && TooFar(j, if Guarded(code, j) then vtarget else dtarget)
  }

  /** `removevalues`: the TESTSETs of the listed jumps no longer produce a value. */
  function RemoveValues(code: Code, list: seq<nat>): (r: Code)
    ensures |r| == |code|
  {
    seq(|code|, i requires 0 <= i < |code| =>
      if code[i].TESTSET? && i + 1 in list then TEST(code[i].b, code[i].cond) else code[i])
  }

  /** Some jump of the list does not offer a value. */
  predicate NeedValue(code: Code, list: seq<nat>) {
    exists j :: j in list && !Guarded(code, j)
  }

  // ---------- emitting ----------

  /** `luaK_code`: the pending jumps are fixed to land here, then the instruction follows. */
  function Emit(g: Gen, i: Instr): (r: Gen)
    ensures g.err ==> r.err
  {
    var n := |g.code|;
    g.(code := Patch(g.code, g.jpc, n, NO_REG, n) + [i],
       jpc := [],
       err := g.err || PatchTooFar(g.code, g.jpc, n, n) || n >= MAX_INT)
  }

  /** `luaK_jump`: an open jump; the jumps pending to here join its list instead. */
  function Jump(g: Gen): (r: (Gen, seq<nat>))
    ensures g.err ==> r.0.err
  {
    var n := |g.code|;
    (g.(code := g.code + [OPEN], jpc := [],
        err := g.err || n >= MAX_INT || LinkTooFar([n], g.jpc)),
     [n] + g.jpc)
  }

  function CondJump(g: Gen, i: Instr): (r: (Gen, seq<nat>))
    ensures g.err ==> r.0.err
  {
    Jump(Emit(g, i))
  }

  function GetLabel(g: Gen): (r: Gen)
    ensures g.err ==> r.err
  {
    g.(lasttarget := |g.code|)
  }

  function PatchToHere(g: Gen, list: seq<nat>): (r: Gen)
    ensures g.err ==> r.err
  {
    g.(lasttarget := |g.code|, jpc := g.jpc + list, err := g.err || LinkTooFar(g.jpc, list))
  }

  function LoadNil(g: Gen, from: nat): (r: Gen)
    ensures g.err ==> r.err
  {
    var n := |g.code|;
    if n > g.lasttarget && n == 0 && from >= g.nactvar then g
    else if n > g.lasttarget && n > 0 && g.code[n - 1].LOADNIL?
            && g.code[n - 1].a <= from <= g.code[n - 1].b + 1 then
      var prev := g.code[n - 1];
      if from > prev.b then g.(code := g.code[n - 1 := LOADNIL(prev.a, from)]) else g
    else Emit(g, LOADNIL(from, from))
  }

  // ---------- registers and constants ----------

  function ReserveReg(g: Gen): (r: Gen)
    ensures g.err ==> r.err
  {
    var top := g.freereg + 1;
    g.(freereg := top,
       maxstack := if top > g.maxstack && top < MAXSTACK then top else g.maxstack,
       err := g.err || (top > g.maxstack && top >= MAXSTACK))
  }

  /** Frees a register that is neither a constant operand nor a local. */
  function FreeReg(g: Gen, reg: nat): (r: Gen)
    ensures g.err ==> r.err
  {
    if reg < BITRK && reg >= g.nactvar && g.freereg > 0 then g.(freereg := g.freereg - 1) else g
  }

  function FreeExp(g: Gen, e: Exp): (r: Gen)
    ensures g.err ==> r.err
  {
    if e.k.VNonReloc? then FreeReg(g, e.k.reg) else g
  }

  function AddK(g: Gen, v: Value): (r: (Gen, nat))
    ensures g.err ==> r.0.err
  {
    (g.(k := Pooled(g.k, v), err := g.err || (v !in g.k && |g.k| >= MAXARG_BX)),
     IndexOf(Pooled(g.k, v), v))
  }

  // ---------- discharging ----------

  function DischargeVars(g: Gen, e: Exp): (r: (Gen, Exp))
    ensures g.err ==> r.0.err
  {
    match e.k
    case VLocal(r) => (g, e.(k := VNonReloc(r)))
    case VGlobal(name) =>
      var g' := Emit(g, GETGLOBAL(0, name));
      (g', e.(k := VReloc(|g.code|)))
    case _ => (g, e)
  }

  function SetA(i: Instr, reg: nat): Instr {
    match i
    case NOT(_, b) => NOT(reg, b)
    case GETGLOBAL(_, bx) => GETGLOBAL(reg, bx)
    case _ => i
  }

  function Discharge2Reg(g0: Gen, e0: Exp, reg: nat): (r: (Gen, Exp))
    ensures g0.err ==> r.0.err
  {
    var (g, e) := DischargeVars(g0, e0);
    match e.k
    case VNil => (LoadNil(g, reg), e.(k := VNonReloc(reg)))
    case VFalse => (Emit(g, LOADBOOL(reg, false, false)), e.(k := VNonReloc(reg)))
    case VTrue => (Emit(g, LOADBOOL(reg, true, false)), e.(k := VNonReloc(reg)))
    case VK(info) => (Emit(g, LOADK(reg, info)), e.(k := VNonReloc(reg)))
    case VKNum(n) =>
      var (g1, info) := AddK(g, Num(n));
      (Emit(g1, LOADK(reg, info)), e.(k := VNonReloc(reg)))
    case VReloc(pc) =>
      if pc < |g.code| then (g.(code := g.code[pc := SetA(g.code[pc], reg)]), e.(k := VNonReloc(reg)))
      else (g, e)
    case VNonReloc(r) =>
      if r != reg then (Emit(g, MOVE(reg, r)), e.(k := VNonReloc(reg))) else (g, e)
    case _ => (g, e)
  }

  function Discharge2AnyReg(g: Gen, e: Exp): (r: (Gen, Exp))
    ensures g.err ==> r.0.err
  {
    if e.k.VNonReloc? then (g, e)
    else Discharge2Reg(ReserveReg(g), e, g.freereg)
  }

  /** The two LOADBOOLs that jumps without a value go to, and the jump over them. */
  function LoadBools(g0: Gen, isJmp: bool, reg: nat): (r: (Gen, nat, nat))
    ensures g0.err ==> r.0.err
  {
    var (g1, fj) := if isJmp then (g0, []) else Jump(g0);
    var pf := |g1.code|;
    var g2 := Emit(GetLabel(g1), LOADBOOL(reg, false, true));
    var g3 := Emit(GetLabel(g2), LOADBOOL(reg, true, false));
    (PatchToHere(g3, fj), pf, pf + 1)
  }

  function PatchExits(g0: Gen, e: Exp, reg: nat, pf: nat, pt: nat): (r: Gen)
    ensures g0.err ==> r.err
  {
    var g := GetLabel(g0);
    var last := |g.code|;
    var c1 := Patch(g.code, e.f, last, reg, pf);
    var c2 := Patch(c1, e.t, last, reg, pt);
    g.(code := c2, err := g.err || PatchTooFar(g.code, e.f, last, pf) || PatchTooFar(c1, e.t, last, pt))
  }

  /** The first steps of `exp2reg`: the value goes to `reg`, but a comparison only adds its
      jump to the exits-when-true. */
  function ToList(g: Gen, e: Exp, reg: nat): (r: (Gen, Exp))
    ensures g.err ==> r.0.err
  {
    if e.k.VJmp? then
      (g.(err := g.err || LinkTooFar(e.t, [e.k.pc])), e.(t := e.t + [e.k.pc]))
    else Discharge2Reg(g, e, reg)
  }

  /** The last steps of `exp2reg`: all exits lead behind the expression. */
  function Resolve(g: Gen, e: Exp, isJmp: bool, reg: nat): (r: Gen)
    ensures g.err ==> r.err
  {
    if !HasJumps(e) then g
    else if NeedValue(g.code, e.t) || NeedValue(g.code, e.f) then
      var (g', pf, pt) := LoadBools(g, isJmp, reg);
      PatchExits(g', e, reg, pf, pt)
    else PatchExits(g, e, reg, |g.code|, |g.code|)
  }

  function Exp2Reg(g: Gen, e: Exp, reg: nat): (r: (Gen, Exp))
    ensures g.err ==> r.0.err
  {
    var (g1, e1) := ToList(g, e, reg);
    (Resolve(g1, e1, e.k.VJmp?, reg), Exp(VNonReloc(reg), [], []))
  }

  function Exp2NextReg(g0: Gen, e0: Exp): (r: (Gen, Exp))
    ensures g0.err ==> r.0.err
  {
    var (g1, e1) := DischargeVars(g0, e0);
    var g2 := FreeExp(g1, e1);
    Exp2Reg(ReserveReg(g2), e1, g2.freereg)
  }

  function Exp2AnyReg(g0: Gen, e0: Exp): (r: (Gen, Exp))
    ensures g0.err ==> r.0.err
  {
    var (g, e) := DischargeVars(g0, e0);
    if e.k.VNonReloc? && !HasJumps(e) then (g, e)
    else if e.k.VNonReloc? && e.k.reg >= g.nactvar then Exp2Reg(g, e, e.k.reg)
    else Exp2NextReg(g, e)
  }

  function Exp2Val(g: Gen, e: Exp): (r: (Gen, Exp))
    ensures g.err ==> r.0.err
  {
    if HasJumps(e) then Exp2AnyReg(g, e) else DischargeVars(g, e)
  }

  /** An operand: a constant index small enough, or else a register. */
  function Exp2RK(g0: Gen, e0: Exp): (r: (Gen, Exp, nat))
    ensures g0.err ==> r.0.err
  {
    var (g, e) := Exp2Val(g0, e0);
    if (e.k.VNil? || e.k.VTrue? || e.k.VFalse? || e.k.VKNum?) && |g.k| <= MAXINDEXRK then
      var v := match e.k
        case VNil => Nil
        case VKNum(n) => Num(n)
        case _ => Bool(e.k.VTrue?);
      var (g', info) := AddK(g, v);
      (g', e.(k := VK(info)), info + BITRK)
    else if e.k.VK? && e.k.info <= MAXINDEXRK then (g, e, e.k.info + BITRK)
    else
      var (g', e') := Exp2AnyReg(g, e);
      (g', e', if e'.k.VNonReloc? then e'.k.reg else 0)
  }

  // ---------- logical operators ----------

  function InvertJump(g: Gen, j: nat): (r: Gen)
    ensures g.err ==> r.err
  {
    if 1 <= j <= |g.code| && g.code[j - 1].CMP? then
      g.(code := g.code[j - 1 := g.code[j - 1].(accept := !g.code[j - 1].accept)])
    else g
  }

  function JumpOnCond(g: Gen, e: Exp, cond: bool): (r: (Gen, seq<nat>))
    ensures g.err ==> r.0.err
  {
    if e.k.VReloc? && e.k.pc < |g.code| && g.code[e.k.pc].NOT? then
      CondJump(g.(code := g.code[..|g.code| - 1]), TEST(g.code[e.k.pc].b, !cond))
    else
      var (g1, e1) := Discharge2AnyReg(g, e);
      CondJump(FreeExp(g1, e1), TESTSET(NO_REG, if e1.k.VNonReloc? then e1.k.reg else 0, cond))
  }

  /** The new jumps of `luaK_goiftrue`, taken when `e` is false. */
  function JumpIfFalse(g: Gen, e: Exp): (r: (Gen, seq<nat>))
    ensures g.err ==> r.0.err
  {
    match e.k
    case VK(_) => (g, [])
    case VKNum(_) => (g, [])
    case VTrue => (g, [])
    case VFalse => Jump(g)
    case VJmp(j) => (InvertJump(g, j), [j])
    case _ => JumpOnCond(g, e, false)
  }

  /** The new jumps of `luaK_goiffalse`, taken when `e` is true. */
  function JumpIfTrue(g: Gen, e: Exp): (r: (Gen, seq<nat>))
    ensures g.err ==> r.0.err
  {
    match e.k
    case VNil => (g, [])
    case VFalse => (g, [])
    case VTrue => Jump(g)
    case VJmp(j) => (g, [j])
    case _ => JumpOnCond(g, e, true)
  }

  /** Adds `pc` to the exits `out` and sends the jumps `here` to the next instruction. */
  function Part(g: Gen, out: seq<nat>, pc: seq<nat>, here: seq<nat>): (r: Gen)
    ensures g.err ==> r.err
  {
    PatchToHere(g.(err := g.err || LinkTooFar(out, pc)), here)
  }

  function GoIfTrue(g0: Gen, e0: Exp): (r: (Gen, Exp))
    ensures g0.err ==> r.0.err
  {
    var (g, e) := DischargeVars(g0, e0);
    var (g1, pc) := JumpIfFalse(g, e);
    (Part(g1, e.f, pc, e.t), Exp(e.k, [], e.f + pc))
  }

  function GoIfFalse(g0: Gen, e0: Exp): (r: (Gen, Exp))
    ensures g0.err ==> r.0.err
  {
    var (g, e) := DischargeVars(g0, e0);
    var (g1, pc) := JumpIfTrue(g, e);
    (Part(g1, e.t, pc, e.f), Exp(e.k, e.t + pc, []))
  }

  /** `codenot` before it interchanges the lists: the negated value. */
  function Negate(g: Gen, e: Exp): (r: (Gen, Kind))
    ensures g.err ==> r.0.err
  {
    match e.k
    case VNil => (g, VTrue)
    case VFalse => (g, VTrue)
    case VK(_) => (g, VFalse)
    case VKNum(_) => (g, VFalse)
    case VTrue => (g, VFalse)
    case VJmp(j) => (InvertJump(g, j), e.k)
    case _ =>
      var (g1, e1) := Discharge2AnyReg(g, e);
      var g2 := FreeExp(g1, e1);
      (Emit(g2, NOT(0, if e1.k.VNonReloc? then e1.k.reg else 0)), VReloc(|g2.code|))
  }

  function CodeNot(g0: Gen, e0: Exp): (r: (Gen, Exp))
    ensures g0.err ==> r.0.err
  {
    var (g, e) := DischargeVars(g0, e0);
    var (g1, k1) := Negate(g, e);
    (g1.(code := RemoveValues(RemoveValues(g1.code, e.t), e.f)), Exp(k1, e.f, e.t))
  }

  // ---------- comparisons ----------

  function OpcodeOf(op: RelOp): CmpOp {
    match op
    case OpNe => CmpEq
    case OpEq => CmpEq
    case OpLt => CmpLt
    case OpGt => CmpLt
    case OpLe => CmpLe
    case OpGe => CmpLe
  }

  predicate Direct(op: RelOp) {
    op == OpEq || op == OpLt || op == OpLe
  }

  function CodeComp(g0: Gen, op: CmpOp, cond: bool, e1: Exp, e2: Exp): (r: (Gen, Exp))
    ensures g0.err ==> r.0.err
  {
    var (g1, e1', o1) := Exp2RK(g0, e1);
    var (g2, e2', o2) := Exp2RK(g1, e2);
    var g3 := FreeExp(FreeExp(g2, e2'), e1');
    var swap := !cond && op != CmpEq;
    var (g4, l) := CondJump(g3, if swap then CMP(op, true, o2, o1) else CMP(op, cond, o1, o2));
    (g4, Exp(VJmp(|g4.code| - 1), e1'.t, e1'.f))
  }

  // ---------- the calls the parser makes ----------

  /** The sequence of code generator calls for a source expression: prefix, infix and
      posfix hooks around the operands, in source order. */
  function Compile(g: Gen, s: Expr): (r: (Gen, Exp))
    ensures g.err ==> r.0.err
    decreases s
  {
    match s
    case ENil => (g, Exp(VNil, [], []))
    case ETrue => (g, Exp(VTrue, [], []))
    case EFalse => (g, Exp(VFalse, [], []))
    case ENum(n) => (g, Exp(VKNum(n), [], []))
    case EStr(str) => var (g', i) := AddK(g, Str(str)); (g', Exp(VK(i), [], []))
    case ELocal(r) => (g, Exp(VLocal(r), [], []))
    case EGlobal(name) => var (g', i) := AddK(g, Str(name)); (g', Exp(VGlobal(i), [], []))
    case EParen(e) => var (g1, e1) := Compile(g, e); DischargeVars(g1, e1)
    case ENot(e) => var (g1, e1) := Compile(g, e); CodeNot(g1, e1)
    case EAnd(a, b) =>
      var (g1, ea) := Compile(g, a);
      var (g2, ea') := GoIfTrue(g1, ea);
      var (g3, eb) := Compile(g2, b);
      JoinAnd(g3, ea', eb)
    case EOr(a, b) =>
      var (g1, ea) := Compile(g, a);
      var (g2, ea') := GoIfFalse(g1, ea);
      var (g3, eb) := Compile(g2, b);
      JoinOr(g3, ea', eb)
    case ERel(op, a, b) =>
      var (g1, ea) := Compile(g, a);
      var (g2, ea', _) := Exp2RK(g1, ea);
      var (g3, eb) := Compile(g2, b);
      CodeComp(g3, OpcodeOf(op), Direct(op), ea', eb)
  }

  // How each operator is taken apart; an error raised by any call is reported at the end.

  lemma ParenCalls(g: Gen, a: Expr)
    ensures var (g1, e1) := Compile(g, a);
            Compile(g, EParen(a)) == DischargeVars(g1, e1) && (g1.err ==> DischargeVars(g1, e1).0.err)
  {
    hide GoIfTrue, GoIfFalse, JoinAnd, JoinOr, Exp2RK, CodeComp, CodeNot, DischargeVars, AddK;
  }

  lemma NotCalls(g: Gen, a: Expr)
    ensures var (g1, e1) := Compile(g, a);
            Compile(g, ENot(a)) == CodeNot(g1, e1) && (g1.err ==> CodeNot(g1, e1).0.err)
  {
    hide GoIfTrue, GoIfFalse, JoinAnd, JoinOr, Exp2RK, CodeComp, CodeNot, DischargeVars, AddK;
  }

  lemma AndCalls(g: Gen, a: Expr, b: Expr)
    ensures var (g1, ea) := Compile(g, a);
            var (g2, ea') := GoIfTrue(g1, ea);
            var (g3, eb) := Compile(g2, b);
            && Compile(g, EAnd(a, b)) == JoinAnd(g3, ea', eb)
            && (g1.err || g2.err || g3.err ==> JoinAnd(g3, ea', eb).0.err)
  {
    hide GoIfTrue, GoIfFalse, JoinAnd, JoinOr, Exp2RK, CodeComp, CodeNot, DischargeVars, AddK;
  }

  lemma OrCalls(g: Gen, a: Expr, b: Expr)
    ensures var (g1, ea) := Compile(g, a);
            var (g2, ea') := GoIfFalse(g1, ea);
            var (g3, eb) := Compile(g2, b);
            && Compile(g, EOr(a, b)) == JoinOr(g3, ea', eb)
            && (g1.err || g2.err || g3.err ==> JoinOr(g3, ea', eb).0.err)
  {
    hide GoIfTrue, GoIfFalse, JoinAnd, JoinOr, Exp2RK, CodeComp, CodeNot, DischargeVars, AddK;
  }

  lemma RelCalls(g: Gen, op: RelOp, a: Expr, b: Expr)
    ensures var (g1, ea) := Compile(g, a);
            var (g2, ea', _) := Exp2RK(g1, ea);
            var (g3, eb) := Compile(g2, b);
            var r := CodeComp(g3, OpcodeOf(op), Direct(op), ea', eb);
            && Compile(g, ERel(op, a, b)) == r
            && (g1.err || g2.err || g3.err ==> r.0.err)
  {
    hide GoIfTrue, GoIfFalse, JoinAnd, JoinOr, Exp2RK, CodeComp, CodeNot, DischargeVars, AddK;
  }

  /** `luaK_posfix` for `and`. */
  function JoinAnd(g: Gen, ea: Exp, eb: Exp): (r: (Gen, Exp))
    ensures g.err ==> r.0.err
  {
    var (g1, e2) := DischargeVars(g, eb);
    (g1.(err := g1.err || LinkTooFar(e2.f, ea.f)), e2.(f := e2.f + ea.f))
  }

  /** `luaK_posfix` for `or`. */
  function JoinOr(g: Gen, ea: Exp, eb: Exp): (r: (Gen, Exp))
    ensures g.err ==> r.0.err
  {
    var (g1, e2) := DischargeVars(g, eb);
    (g1.(err := g1.err || LinkTooFar(e2.t, ea.t)), e2.(t := e2.t + ea.t))
  }

  /** `return s`: the value in some register, then OP_RETURN. */
  function CompileReturn(g: Gen, s: Expr): (r: Gen)
    ensures g.err ==> r.err
  {
    var (g1, e1) := Compile(g, s);
    var (g2, e2) := Exp2AnyReg(g1, e1);
    Emit(g2, RETURN(if e2.k.VNonReloc? then e2.k.reg else 0, 2))
  }
}
