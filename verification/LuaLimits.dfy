/** When compilation succeeds: a function within limits on its own size is compiled without an
    error, and the 51st local variable is one. */
module LuaLimits {
  import opened LuaSource
  import opened LuaMachine
  import opened LuaCodegen
  import opened LuaRun
  import opened LuaInvariant
  import opened LuaOperands
  import opened LuaProgram
  import opened LuaBlock

  // ---------- measures of the source ----------

  function Size(s: Expr): nat {
    match s
    case EParen(e) => 1 + Size(e)
    case ENot(e) => 1 + Size(e)
    case EAnd(a, b) => 1 + Size(a) + Size(b)
    case EOr(a, b) => 1 + Size(a) + Size(b)
    case ERel(_, a, b) => 1 + Size(a) + Size(b)
    case _ => 1
  }

  /** Registers it takes to have the value in one. */
  function Depth(s: Expr): (n: nat)
    ensures n >= 1
  {
    match s
    case EParen(e) => Depth(e)
    case ENot(e) => Depth(e)
    case EAnd(a, b) => Max(Depth(a), Depth(b))
    case EOr(a, b) => Max(Depth(a), Depth(b))
    case ERel(_, a, b) => Max(Depth(a), 1 + Depth(b))
    case _ => 1
  }

  function Max(a: nat, b: nat): nat {
    if a < b then b else a
  }

  function BlockSize(b: Block): nat {
    match b
    case Return(e) => 1 + Size(e)
    case Local(e, rest) => 1 + Size(e) + BlockSize(rest)
    case If(s, body, rest) => 1 + Size(s) + BlockSize(body) + BlockSize(rest)
    case IfEmpty(s, rest) => 1 + Size(s) + BlockSize(rest)
  }

  /** Variables declared at a time. */
  function Variables(b: Block): nat {
    match b
    case Return(_) => 0
    case Local(_, rest) => 1 + Variables(rest)
    case If(_, body, rest) => Max(Variables(body), Variables(rest))
    case IfEmpty(_, rest) => Variables(rest)
  }

  /** Registers beside the parameters. */
  function BlockDepth(b: Block): nat {
    match b
    case Return(e) => Depth(e)
    case Local(e, rest) => Max(Depth(e), 1 + BlockDepth(rest))
    case If(s, body, rest) => Max(Depth(s), Max(BlockDepth(body), BlockDepth(rest)))
    case IfEmpty(s, rest) => Max(Depth(s), BlockDepth(rest))
  }

  /** At most 50 variables and 249 registers at a time, and a size of which 16 instructions for
      every part stay within the reach of a jump. */
  predicate WithinLimits(b: Block, nactvar: nat) {
    && nactvar + Variables(b) <= 50
    && nactvar + BlockDepth(b) < 250
    && 16 * BlockSize(b) < 131071
  }

  // ---------- room for what is still to come ----------

  /** No error so far, and room for `n` more instructions and constants. */
  ghost predicate Room(g: Gen, n: nat) {
    !g.err && |g.code| + n <= 131071 && |g.k| + n <= 262143
  }

  lemma PatchFits(c: Code, list: seq<nat>, vtarget: nat, dtarget: nat)
    requires Opens(c, list) && |c| <= 131071 && vtarget <= |c| && dtarget <= |c|
    ensures !PatchTooFar(c, list, vtarget, dtarget)
  {
  }

  lemma LinkFits(c: Code, l1: seq<nat>, l2: seq<nat>)
    requires Opens(c, l1) && Opens(c, l2) && |c| <= 131071
    ensures !LinkTooFar(l1, l2)
  {
    if l1 != [] && l2 != [] {
      assert l1[|l1| - 1] in l1 && l2[0] in l2;
    }
  }

  lemma EmitFits(g: Gen, i: Instr, n: nat)
    requires GenOK(g) && Room(g, 1 + n)
    ensures Room(Emit(g, i), n)
  {
    hide JumpsWithin, NilRanges, NoDup, Opens;
    PatchFits(g.code, g.jpc, |g.code|, |g.code|);
  }

  lemma JumpFits(g: Gen, n: nat)
    requires JumpList(g.code, g.jpc) && Room(g, 1 + n)
    ensures Room(Jump(g).0, n)
  {
    if g.jpc != [] { assert g.jpc[0] in g.jpc; }
  }

  lemma CondJumpFits(g: Gen, i: Instr, n: nat)
    requires GenOK(g) && Room(g, 2 + n)
    ensures Room(CondJump(g, i).0, n)
  {
    hide GenOK;
    EmitFits(g, i, 1 + n);
    JumpFits(Emit(g, i), n);
  }

  lemma HereFits(g: Gen, list: seq<nat>, n: nat)
    requires GenOK(g) && Opens(g.code, list) && Room(g, n)
    ensures Room(PatchToHere(g, list), n)
  {
    hide JumpsWithin, NilRanges, NoDup, Opens;
    LinkFits(g.code, g.jpc, list);
  }

  lemma LoadNilFits(g: Gen, from: nat, n: nat)
    requires GenOK(g) && Room(g, 1 + n)
    ensures Room(LoadNil(g, from), n)
  {
    hide GenOK, Emit;
    EmitFits(g, LOADNIL(from, from), n);
  }

  lemma ReserveFits(g: Gen, n: nat)
    requires Room(g, n) && g.freereg + 1 < 250
    ensures Room(ReserveReg(g), n)
  {
  }

  lemma AddKFits(g: Gen, v: Value, n: nat)
    requires Room(g, 1 + n)
    ensures Room(AddK(g, v).0, n)
  {
  }

  // ---------- discharging ----------

  lemma DischargeVarsFits(g: Gen, e: Exp, n: nat)
    requires GenOK(g) && Room(g, 1 + n)
    ensures Room(DischargeVars(g, e).0, n)
  {
    hide GenOK, Emit;
    if e.k.VGlobal? { EmitFits(g, GETGLOBAL(0, e.k.name), n); }
  }

  lemma Discharge2RegFits(g: Gen, e: Exp, reg: nat, n: nat)
    requires ExpOK(g, e) && Room(g, 3 + n)
    ensures Room(Discharge2Reg(g, e, reg).0, n)
  {
    hide GenOK, Emit, Discharge2Reg, DischargeVars;
    DischargeVarsOK(g, e);
    DischargeVarsFits(g, e, 2 + n);
    DischargedAgain(g, e, reg);
    var (g1, e1) := DischargeVars(g, e);
    DischargedFits(g1, e1, reg, n);
  }

  lemma DischargedAgain(g: Gen, e: Exp, reg: nat)
    ensures var (g1, e1) := DischargeVars(g, e); Discharge2Reg(g1, e1, reg) == Discharge2Reg(g, e, reg)
    ensures !DischargeVars(g, e).1.k.VGlobal?
  {
    hide Emit, LoadNil, AddK;
  }

  lemma DischargedFits(g: Gen, e: Exp, reg: nat, n: nat)
    requires ExpOK(g, e) && Room(g, 2 + n) && !e.k.VGlobal?
    ensures Room(Discharge2Reg(g, e, reg).0, n)
  {
    hide JumpsWithin, NilRanges, NoDup, Opens, Emit, LoadNil, AddK;
    match e.k
    case VNil => LoadNilFits(g, reg, 1 + n);
    case VFalse => EmitFits(g, LOADBOOL(reg, false, false), 1 + n);
    case VTrue => EmitFits(g, LOADBOOL(reg, true, false), 1 + n);
    case VK(info) => EmitFits(g, LOADK(reg, info), 1 + n);
    case VKNum(v) =>
      AddKFits(g, Num(v), 1 + n);
      AddKOK(g, Num(v));
      EmitFits(AddK(g, Num(v)).0, LOADK(reg, AddK(g, Num(v)).1), n);
    case VNonReloc(r) => EmitFits(g, MOVE(reg, r), 1 + n);
    case VLocal(r) => EmitFits(g, MOVE(reg, r), 1 + n);
    case _ =>
  }

  lemma Discharge2AnyRegFits(g: Gen, e: Exp, n: nat)
    requires ExpOK(g, e) && Room(g, 3 + n) && g.freereg + 1 < 250
    ensures Room(Discharge2AnyReg(g, e).0, n)
  {
    hide JumpsWithin, NilRanges, NoDup, Opens, Discharge2Reg;
    if !e.k.VNonReloc? {
      ReserveRegOK(g);
      ReserveFits(g, 3 + n);
      Discharge2RegFits(ReserveReg(g), e, g.freereg, n);
    }
  }

  // ---------- into a register ----------

  lemma ToListFits(g: Gen, e: Exp, reg: nat, n: nat)
    requires ExpOK(g, e) && Room(g, 3 + n)
    ensures Room(ToList(g, e, reg).0, n)
  {
    hide GenOK, Discharge2Reg;
    if e.k.VJmp? {
      LinkFits(g.code, e.t, [e.k.pc]);
    } else {
      Discharge2RegFits(g, e, reg, n);
    }
  }

  lemma LoadBoolsFits(g: Gen, isJmp: bool, reg: nat, n: nat)
    requires GenOK(g) && (isJmp ==> g.jpc == []) && Room(g, 3 + n)
    ensures Room(LoadBools(g, isJmp, reg).0, n)
  {
    hide Emit, JumpsWithin, NilRanges, NoDup;
    var (g1, fj) := if isJmp then (g, []) else Jump(g);
    if !isJmp { JumpOK(g); JumpFits(g, 2 + n); }
    LabelEmitFits(g1, LOADBOOL(reg, false, true), 1 + n);
    var g2 := Emit(GetLabel(g1), LOADBOOL(reg, false, true));
    LabelEmitFits(g2, LOADBOOL(reg, true, false), n);
  }

  lemma LabelEmitFits(g: Gen, i: Instr, n: nat)
    requires g.jpc == [] && Room(g, 1 + n)
    ensures Room(Emit(GetLabel(g), i), n) && Emit(GetLabel(g), i).jpc == []
  {
    PatchFits(g.code, [], |g.code|, |g.code|);
  }

  lemma PatchExitsFits(g: Gen, e: Exp, reg: nat, pf: nat, pt: nat, n: nat)
    requires GenOK(g) && Resolvable(g, e, pf, pt) && Room(g, n)
    ensures Room(PatchExits(g, e, reg, pf, pt), n)
  {
    hide JumpsWithin, NilRanges, NoDup, Patch;
    var c1 := Patch(g.code, e.f, |g.code|, reg, pf);
    PatchOK(g.code, e.f, |g.code|, reg, pf, g.lasttarget, |g.code|);
    ListKept(g.code, c1, e.f, e.t);
    PatchFits(g.code, e.f, |g.code|, pf);
    PatchFits(c1, e.t, |g.code|, pt);
  }

  lemma ResolveFits(g: Gen, e: Exp, isJmp: bool, reg: nat, n: nat)
    requires GenOK(g) && Resolvable(g, e, |g.code|, |g.code|) && (isJmp ==> g.jpc == []) && Room(g, 3 + n)
    ensures Room(Resolve(g, e, isJmp, reg), n)
  {
    hide LoadBools, PatchExits, GenOK, Resolvable;
    if HasJumps(e) {
      if NeedValue(g.code, e.t) || NeedValue(g.code, e.f) {
        BoolsResolvable(g, e, isJmp, reg);
        LoadBoolsFits(g, isJmp, reg, n);
        var (g1, pf, pt) := LoadBools(g, isJmp, reg);
        PatchExitsFits(g1, e, reg, pf, pt, n);
      } else {
        PatchExitsFits(g, e, reg, |g.code|, |g.code|, n);
      }
    }
  }

  lemma Exp2RegFits(g: Gen, e: Exp, reg: nat, n: nat)
    requires ExpOK(g, e) && reg < g.freereg && Room(g, 6 + n)
    ensures Room(Exp2Reg(g, e, reg).0, n)
  {
    hide ToList, Resolve, GenOK, Resolvable;
    ToListOK(g, e, reg);
    ToListFits(g, e, reg, 3 + n);
    var (g1, e1) := ToList(g, e, reg);
    ResolveFits(g1, e1, e.k.VJmp?, reg, n);
  }

  lemma Exp2NextRegFits(g: Gen, e: Exp, n: nat)
    requires ExpOK(g, e) && TopTemp(g, e) && Room(g, 7 + n) && Level(g, e) + 1 < 250
    ensures Room(Exp2NextReg(g, e).0, n)
  {
    hide DischargeVars, Exp2Reg, FreeExp, ReserveReg, GenOK, JumpList, Apart, Level;
    DischargeVarsOK(g, e);
    DischargedLevel(g, e);
    DischargeVarsFits(g, e, 6 + n);
    var (g1, e1) := DischargeVars(g, e);
    FreshReg(g1, e1);
    FreedFits(g1, e1, 6 + n);
    ReserveFits(FreeExp(g1, e1), 6 + n);
    Exp2RegFits(ReserveReg(FreeExp(g1, e1)), e1, FreeExp(g1, e1).freereg, n);
  }

  lemma FreedFits(g: Gen, e: Exp, n: nat)
    requires Room(g, n)
    ensures Room(FreeExp(g, e), n)
  {
  }

  lemma Exp2AnyRegFits(g: Gen, e: Exp, n: nat)
    requires ExpOK(g, e) && TopTemp(g, e) && Room(g, 7 + n) && Level(g, e) + 1 < 250
    ensures Room(Exp2AnyReg(g, e).0, n)
  {
    hide Exp2AnyReg, Exp2NextReg, Exp2Reg, GenOK;
    AnyRegCases(g, e);
    if (e.k.VLocal? || e.k.VNonReloc?) && !HasJumps(e) {
    } else if e.k.VNonReloc? && e.k.reg >= g.nactvar {
      Exp2RegFits(g, e, e.k.reg, 1 + n);
    } else {
      Exp2NextRegFits(g, e, n);
    }
  }

  lemma Exp2RKFits(g: Gen, e: Exp, n: nat)
    requires ExpOK(g, e) && TopTemp(g, e) && Room(g, 7 + n) && Level(g, e) + 1 < 250
    ensures Room(Exp2RK(g, e).0, n)
  {
    hide Exp2RK, Exp2AnyReg, AddK, GenOK, ExpOK, TopTemp, Level;
    Exp2RKCases(g, e);
    if Inline(e, g.k) {
      if !e.k.VK? { AddKFits(g, InlineValue(e), 6 + n); }
    } else {
      Exp2AnyRegFits(g, e, n);
    }
  }

  // ---------- and, or, not ----------

  lemma JumpOnCondFits(g: Gen, e: Exp, cond: bool, n: nat)
    requires ExpOK(g, e) && !e.k.VJmp? && TopTemp(g, e) && Room(g, 5 + n) && g.freereg + 1 < 250
    ensures Room(JumpOnCond(g, e, cond).0, n)
  {
    hide CondJump, Discharge2AnyReg, FreeExp, JumpsWithin, NilRanges, NoDup;
    if e.k.VReloc? && g.code[e.k.pc].NOT? {
      CutOK(g, e);
      CondJumpFits(g.(code := g.code[..|g.code| - 1]), TEST(g.code[e.k.pc].b, !cond), n);
    } else {
      Discharge2AnyRegFits(g, e, 2 + n);
      FreedAgain(g, e);
      var (g1, e1) := Discharge2AnyReg(g, e);
      FreedFits(g1, e1, 2 + n);
      CondJumpFits(FreeExp(g1, e1), TESTSET(NO_REG, e1.k.reg, cond), n);
    }
  }

  lemma JumpIfFalseFits(g: Gen, e: Exp, n: nat)
    requires ExpOK(g, e) && TopTemp(g, e) && Room(g, 5 + n) && g.freereg + 1 < 250
    ensures Room(JumpIfFalse(g, e).0, n)
  {
    hide Jump, JumpOnCond, JumpsWithin, NilRanges, NoDup, TopTemp;
    match e.k
    case VFalse => JumpFits(g, 4 + n);
    case VK(_) =>
    case VKNum(_) =>
    case VTrue =>
    case VJmp(_) =>
    case _ => JumpOnCondFits(g, e, false, n);
  }

  lemma JumpIfTrueFits(g: Gen, e: Exp, n: nat)
    requires ExpOK(g, e) && TopTemp(g, e) && Room(g, 5 + n) && g.freereg + 1 < 250
    ensures Room(JumpIfTrue(g, e).0, n)
  {
    hide Jump, JumpOnCond, JumpsWithin, NilRanges, NoDup, TopTemp;
    match e.k
    case VTrue => JumpFits(g, 4 + n);
    case VNil =>
    case VFalse =>
    case VJmp(_) =>
    case _ => JumpOnCondFits(g, e, true, n);
  }

  lemma PartFits(g: Gen, e: Exp, g1: Gen, pc: seq<nat>, out: seq<nat>, here: seq<nat>, n: nat)
    requires Branches(g, e, g1, pc) && Room(g1, n)
    requires (here == e.t && out == e.f) || (here == e.f && out == e.t)
    ensures Room(Part(g1, out, pc, here), n)
  {
    hide JumpsWithin, NilRanges, NoDup, Opens;
    LinkFits(g1.code, out, pc);
    HereFits(g1, here, n);
  }

  lemma GoIfTrueFits(g: Gen, e: Exp, n: nat)
    requires ExpOK(g, e) && TopTemp(g, e) && Room(g, 6 + n) && g.freereg + 1 < 250
    ensures Room(GoIfTrue(g, e).0, n)
  {
    hide DischargeVars, JumpIfFalse, Part, GenOK, JumpList, Apart, TopTemp, Level, Branches;
    DischargeVarsOK(g, e);
    DischargedLevel(g, e);
    DischargeVarsFits(g, e, 5 + n);
    var (g0, e0) := DischargeVars(g, e);
    JumpIfFalseFits(g0, e0, n);
    JumpIfFalseOK(g0, e0);
    var (g1, pc) := JumpIfFalse(g0, e0);
    PartFits(g0, e0, g1, pc, e0.f, e0.t, n);
  }

  lemma GoIfFalseFits(g: Gen, e: Exp, n: nat)
    requires ExpOK(g, e) && TopTemp(g, e) && Room(g, 6 + n) && g.freereg + 1 < 250
    ensures Room(GoIfFalse(g, e).0, n)
  {
    hide DischargeVars, JumpIfTrue, Part, GenOK, JumpList, Apart, TopTemp, Level, Branches;
    DischargeVarsOK(g, e);
    DischargedLevel(g, e);
    DischargeVarsFits(g, e, 5 + n);
    var (g0, e0) := DischargeVars(g, e);
    JumpIfTrueFits(g0, e0, n);
    JumpIfTrueOK(g0, e0);
    var (g1, pc) := JumpIfTrue(g0, e0);
    PartFits(g0, e0, g1, pc, e0.t, e0.f, n);
  }

  lemma NegateFits(g: Gen, e: Exp, n: nat)
    requires ExpOK(g, e) && TopTemp(g, e) && Room(g, 4 + n) && g.freereg + 1 < 250
    ensures Room(Negate(g, e).0, n)
  {
    hide Emit, Discharge2AnyReg, FreeExp, TopTemp, JumpsWithin, NilRanges, NoDup, Opens;
    if e.k.VReloc? || e.k.VNonReloc? || e.k.VLocal? || e.k.VGlobal? {
      Discharge2AnyRegFits(g, e, 1 + n);
      FreedAgain(g, e);
      var (g1, e1) := Discharge2AnyReg(g, e);
      FreedFits(g1, e1, 1 + n);
      EmitFits(FreeExp(g1, e1), NOT(0, e1.k.reg), n);
    }
  }

  lemma CodeNotFits(g: Gen, e: Exp, n: nat)
    requires ExpOK(g, e) && TopTemp(g, e) && Room(g, 5 + n) && g.freereg + 1 < 250
    ensures Room(CodeNot(g, e).0, n)
  {
    hide DischargeVars, Negate, RemoveValues, GenOK, JumpList, Apart, TopTemp, Level;
    DischargeVarsOK(g, e);
    DischargedLevel(g, e);
    DischargeVarsFits(g, e, 4 + n);
    NegateFits(DischargeVars(g, e).0, DischargeVars(g, e).1, n);
  }

  // ---------- whole expressions ----------

  lemma CodeCompFits(g: Gen, op: CmpOp, cond: bool, e1: Exp, rk1: nat, base: nat, e2: Exp, n: nat)
    requires ExpOK(g, e2) && TopTemp(g, e2) && Held(g.(freereg := Level(g, e2)), e1, rk1, base)
    requires Room(g, 9 + n) && Level(g, e2) + 1 < 250
    ensures Room(CodeComp(g, op, cond, e1, e2).0, n)
  {
    hide Exp2RK, CodeComp, CondJump, FreeExp, Level, CompareInstr, JumpsWithin, NilRanges, NoDup, Opens, OpenAlike;
    HeldAgain(g, e1, rk1, base, Level(g, e2));
    CompareUnfolded(g, op, cond, e1, rk1, e2);
    Exp2RKFits(g, e2, 2 + n);
    Exp2RKOK(g, e2);
    var (g2, e2', o2) := Exp2RK(g, e2);
    HeldLater(g.(freereg := Level(g, e2)), e1, rk1, base, g2.(freereg := Level(g, e2)));
    FreeOperands(g2, e1, rk1, e2', o2, base, Level(g, e2));
    CondJumpFits(g2.(freereg := base), CompareInstr(op, cond, rk1, o2), n);
  }

  lemma JoinAndFits(g: Gen, e1: Exp, e2: Exp, n: nat)
    requires ExpOK(g, e2) && JumpList(g.code, e1.f) && Apart(Lists(g, e2), e1.f) && Room(g, 1 + n)
    ensures Room(JoinAnd(g, e1, e2).0, n)
  {
    hide DischargeVars, GenOK, NoDup, Opens;
    DischargeVarsOK(g, e2);
    DischargeVarsFits(g, e2, n);
    var (g1, e2') := DischargeVars(g, e2);
    ListKept(g.code, g1.code, Lists(g, e2), e1.f);
    LinkFits(g1.code, e2'.f, e1.f);
  }

  lemma JoinOrFits(g: Gen, e1: Exp, e2: Exp, n: nat)
    requires ExpOK(g, e2) && JumpList(g.code, e1.t) && Apart(Lists(g, e2), e1.t) && Room(g, 1 + n)
    ensures Room(JoinOr(g, e1, e2).0, n)
  {
    hide DischargeVars, GenOK, NoDup, Opens;
    DischargeVarsOK(g, e2);
    DischargeVarsFits(g, e2, n);
    var (g1, e2') := DischargeVars(g, e2);
    ListKept(g.code, g1.code, Lists(g, e2), e1.t);
    LinkFits(g1.code, e2'.t, e1.t);
  }

  lemma LeafFits(g: Gen, s: Expr, n: nat)
    requires Leaf(s) && Room(g, 1 + n)
    ensures Room(Compile(g, s).0, n)
  {
    hide AddK, GoIfTrue, GoIfFalse, Exp2RK, CodeNot, JoinAnd, JoinOr, CodeComp, DischargeVars;
    if s.EStr? { AddKFits(g, Str(s.s), n); }
    if s.EGlobal? { AddKFits(g, Str(s.name), n); }
  }

  lemma AndMeasured(a: Expr, b: Expr)
    ensures Size(EAnd(a, b)) == 1 + Size(a) + Size(b)
    ensures Depth(a) <= Depth(EAnd(a, b)) && Depth(b) <= Depth(EAnd(a, b))
  {
  }

  lemma OrMeasured(a: Expr, b: Expr)
    ensures Size(EOr(a, b)) == 1 + Size(a) + Size(b)
    ensures Depth(a) <= Depth(EOr(a, b)) && Depth(b) <= Depth(EOr(a, b))
  {
  }

  lemma RelMeasured(op: RelOp, a: Expr, b: Expr)
    ensures Size(ERel(op, a, b)) == 1 + Size(a) + Size(b)
    ensures Depth(a) <= Depth(ERel(op, a, b)) && Depth(b) + 1 <= Depth(ERel(op, a, b))
  {
  }

  /** Every part of an expression takes at most 16 instructions, constants included. */
  lemma {:induction false} CompileFits(g: Gen, s: Expr, n: nat)
    requires GenOK(g) && Scoped(s, g.nactvar) && Room(g, 16 * Size(s) + n) && g.freereg + Depth(s) < 250
    ensures Room(Compile(g, s).0, n)
    decreases s
  {
    hide Compile, GenOK, DischargeVars, CodeNot, TopTemp, Level, Compiled;
    match s
    case EParen(a) =>
      ParenCalls(g, a);
      CompileFits(g, a, 1 + n);
      CompileOK(g, a);
      OperandFits(g, a);
      DischargeVarsFits(Compile(g, a).0, Compile(g, a).1, n);
    case ENot(a) =>
      NotCalls(g, a);
      CompileFits(g, a, 5 + n);
      CompileOK(g, a);
      OperandFits(g, a);
      CodeNotFits(Compile(g, a).0, Compile(g, a).1, n);
    case EAnd(a, b) => AndFits(g, a, b, n);
    case EOr(a, b) => OrFits(g, a, b, n);
    case ERel(op, a, b) => RelFits(g, op, a, b, n);
    case _ => LeafFits(g, s, 15 + n);
  }

  /** What the operators need to know of their operand. */
  lemma OperandFits(g: Gen, s: Expr)
    requires Compiled(g, s, Compile(g, s).0, Compile(g, s).1)
    ensures var (g1, e1) := Compile(g, s);
            && GenOK(g1) && ExpOK(g1, e1) && TopTemp(g1, e1) && Level(g1, e1) == g1.freereg == g.freereg
            && g1.nactvar == g.nactvar
  {
    hide Compile, GenOK;
    NoTempLevel(Compile(g, s).0, Compile(g, s).1);
  }

  lemma {:induction false} AndFits(g: Gen, a: Expr, b: Expr, n: nat)
    requires GenOK(g) && Scoped(EAnd(a, b), g.nactvar) && Room(g, 16 * Size(EAnd(a, b)) + n) && g.freereg + Depth(EAnd(a, b)) < 250
    ensures Room(Compile(g, EAnd(a, b)).0, n)
    decreases EAnd(a, b), 0
  {
    hide Compile, GoIfTrue, JoinAnd, GenOK, ExpOK, TopTemp, Level, JumpList, Apart, Untouched, From, Compiled, Size, Depth;
    AndMeasured(a, b);
    AndCalls(g, a, b);
    var (g1, ea) := Compile(g, a);
    CompileFits(g, a, 16 * Size(b) + 16 + n);
    CompileOK(g, a);
    OperandFits(g, a);
    GoIfTrueFits(g1, ea, 16 * Size(b) + 10 + n);
    GoIfTrueOK(g1, ea);
    var (g2, ea') := GoIfTrue(g1, ea);
    CompileFits(g2, b, 10 + n);
    CompileOK(g2, b);
    BesideFits(g2, ea'.f, b);
    JoinAndFits(Compile(g2, b).0, ea', Compile(g2, b).1, 9 + n);
  }

  /** The exits of the first operand are still a list of their own after the second. */
  lemma BesideFits(g: Gen, out: seq<nat>, b: Expr)
    requires Compiled(g, b, Compile(g, b).0, Compile(g, b).1) && JumpList(g.code, out) && Apart(g.jpc, out)
    ensures var (g1, e1) := Compile(g, b);
            ExpOK(g1, e1) && JumpList(g1.code, out) && Apart(Lists(g1, e1), out)
  {
    hide Compile, GenOK, NoDup, Opens;
    var (g1, e1) := Compile(g, b);
    assert Apart(out, g.jpc);
    ListKept(g.code, g1.code, g.jpc, out);
    OutsideLists(g, out, g1, Lists(g1, e1));
  }

  lemma {:induction false} OrFits(g: Gen, a: Expr, b: Expr, n: nat)
    requires GenOK(g) && Scoped(EOr(a, b), g.nactvar) && Room(g, 16 * Size(EOr(a, b)) + n) && g.freereg + Depth(EOr(a, b)) < 250
    ensures Room(Compile(g, EOr(a, b)).0, n)
    decreases EOr(a, b), 0
  {
    hide Compile, GoIfFalse, JoinOr, GenOK, ExpOK, TopTemp, Level, JumpList, Apart, Untouched, From, Compiled, Size, Depth;
    OrMeasured(a, b);
    OrCalls(g, a, b);
    var (g1, ea) := Compile(g, a);
    CompileFits(g, a, 16 * Size(b) + 16 + n);
    CompileOK(g, a);
    OperandFits(g, a);
    GoIfFalseFits(g1, ea, 16 * Size(b) + 10 + n);
    GoIfFalseOK(g1, ea);
    var (g2, ea') := GoIfFalse(g1, ea);
    CompileFits(g2, b, 10 + n);
    CompileOK(g2, b);
    BesideFits(g2, ea'.t, b);
    JoinOrFits(Compile(g2, b).0, ea', Compile(g2, b).1, 9 + n);
  }

  lemma {:induction false} RelFits(g: Gen, op: RelOp, a: Expr, b: Expr, n: nat)
    requires GenOK(g) && Scoped(ERel(op, a, b), g.nactvar) && Room(g, 16 * Size(ERel(op, a, b)) + n) && g.freereg + Depth(ERel(op, a, b)) < 250
    ensures Room(Compile(g, ERel(op, a, b)).0, n)
    decreases ERel(op, a, b), 0
  {
    hide Compile, Exp2RK, CodeComp, GenOK, TopTemp, Level, JumpList, Apart, Untouched, From, Compiled, Size, Depth;
    RelMeasured(op, a, b);
    RelCalls(g, op, a, b);
    var (g1, ea) := Compile(g, a);
    CompileFits(g, a, 16 * Size(b) + 16 + n);
    CompileOK(g, a);
    OperandFits(g, a);
    Exp2RKFits(g1, ea, 16 * Size(b) + 9 + n);
    Exp2RKOK(g1, ea);
    var (g2, ea', rk) := Exp2RK(g1, ea);
    CompileFits(g2, b, 9 + n);
    CompileOK(g2, b);
    OperandFits(g2, b);
    var (g3, eb) := Compile(g2, b);
    CompiledGrows(g2, b, g3, eb);
    HeldLater(g2, ea', rk, g.freereg, g3);
    CodeCompFits(g3, OpcodeOf(op), Direct(op), ea', rk, g.freereg, eb, n);
  }

  lemma CompiledGrows(g: Gen, s: Expr, g1: Gen, e1: Exp)
    requires Compiled(g, s, g1, e1)
    ensures g.k <= g1.k && g1.freereg == g.freereg && g1.nactvar == g.nactvar
  {
  }

  // ---------- statements and functions ----------

  lemma ReturnFits(g: Gen, e: Expr, n: nat)
    requires GenOK(g) && Scoped(e, g.nactvar) && Room(g, 16 + 16 * Size(e) + n) && g.freereg + Depth(e) < 250
    ensures Room(CompileReturn(g, e), n)
  {
    hide Compile, Exp2AnyReg, Emit, GenOK, TopTemp, Level, JumpList, Compiled;
    CompileFits(g, e, 16 + n);
    CompileOK(g, e);
    OperandFits(g, e);
    var (g1, e1) := Compile(g, e);
    Exp2AnyRegFits(g1, e1, 1 + n);
    Exp2AnyRegOK(g1, e1);
    var (g2, e2) := Exp2AnyReg(g1, e1);
    EmitFits(g2, RETURN(if e2.k.VNonReloc? then e2.k.reg else 0, 2), n);
  }

  lemma LocalFits(g: Gen, e: Expr, n: nat)
    requires GenOK(g) && Scoped(e, g.nactvar) && Room(g, 16 + 16 * Size(e) + n)
    requires g.freereg + Depth(e) < 250 && g.nactvar + 1 <= 50
    ensures Room(CompileLocal(g, e), n)
  {
    hide Compile, Exp2NextReg, GenOK, TopTemp, Level, JumpList, Compiled;
    CompileFits(g, e, 16 + n);
    CompileOK(g, e);
    OperandFits(g, e);
    Exp2NextRegFits(Compile(g, e).0, Compile(g, e).1, 9 + n);
  }

  lemma CondFits(g: Gen, s: Expr, n: nat)
    requires GenOK(g) && Scoped(s, g.nactvar) && Room(g, 16 + 16 * Size(s) + n) && g.freereg + Depth(s) < 250
    ensures Room(CompileCond(g, s).0, n)
  {
    hide Compile, GoIfTrue, GenOK, JumpList, TopTemp, Level;
    CompileFits(g, s, 16 + n);
    CompileOK(g, s);
    OperandFits(g, s);
    var (g1, e1) := Compile(g, s);
    NilIsFalse(g1, e1);
    var e1' := if e1.k.VNil? then e1.(k := VFalse) else e1;
    NoTempLevel(g1, e1');
    GoIfTrueFits(g1, e1', 10 + n);
  }

  lemma AfterIfFits(g: Gen, out: seq<nat>, n: nat)
    requires GenOK(g) && JumpList(g.code, out) && Room(g, n)
    ensures Room(AfterIf(g, out), n)
  {
    hide JumpsWithin, NilRanges, NoDup, Opens;
    HereFits(g.(freereg := g.nactvar), out, n);
  }

  lemma LocalMeasured(e: Expr, rest: Block)
    ensures var b := Local(e, rest);
            && BlockSize(b) == 1 + Size(e) + BlockSize(rest) && Variables(b) == 1 + Variables(rest)
            && Depth(e) <= BlockDepth(b) && 1 + BlockDepth(rest) <= BlockDepth(b)
  {
  }

  lemma IfMeasured(s: Expr, body: Block, rest: Block)
    ensures var b := If(s, body, rest);
            && BlockSize(b) == 1 + Size(s) + BlockSize(body) + BlockSize(rest)
            && Variables(body) <= Variables(b) && Variables(rest) <= Variables(b)
            && Depth(s) <= BlockDepth(b) && BlockDepth(body) <= BlockDepth(b) && BlockDepth(rest) <= BlockDepth(b)
  {
  }

  lemma EmptyIfMeasured(s: Expr, rest: Block)
    ensures var b := IfEmpty(s, rest);
            && BlockSize(b) == 1 + Size(s) + BlockSize(rest) && Variables(b) == Variables(rest)
            && Depth(s) <= BlockDepth(b) && BlockDepth(rest) <= BlockDepth(b)
  {
  }

  lemma {:induction false} BlockFits(g: Gen, b: Block, n: nat)
    requires AtStatement(g) && ScopedBlock(b, g.nactvar) && Room(g, 16 * BlockSize(b) + n)
    requires g.nactvar + Variables(b) <= 50 && g.nactvar + BlockDepth(b) < 250
    ensures Room(CompileBlock(g, b), n)
    decreases b
  {
    hide CompileBlock, CompileReturn, GenOK, Size, Depth;
    match b
    case Return(e) =>
      ReturnCalls(g, e);
      ReturnFits(g, e, n);
    case Local(e, rest) => LocalBlockFits(g, e, rest, n);
    case If(s, body, rest) => IfBlockFits(g, s, body, rest, n);
    case IfEmpty(s, rest) => EmptyIfBlockFits(g, s, rest, n);
  }

  lemma {:induction false} LocalBlockFits(g: Gen, e: Expr, rest: Block, n: nat)
    requires AtStatement(g) && ScopedBlock(Local(e, rest), g.nactvar) && Room(g, 16 * BlockSize(Local(e, rest)) + n)
    requires g.nactvar + Variables(Local(e, rest)) <= 50 && g.nactvar + BlockDepth(Local(e, rest)) < 250
    ensures Room(CompileBlock(g, Local(e, rest)), n)
    decreases Local(e, rest), 0
  {
    hide CompileBlock, CompileLocal, GenOK, Keeps, BlockSize, BlockDepth, Variables, Size, Depth;
    LocalMeasured(e, rest);
    LocalCalls(g, e, rest);
    LocalFits(g, e, 16 * BlockSize(rest) + n);
    LocalOK(g, e);
    BlockFits(CompileLocal(g, e), rest, n);
  }

  lemma {:induction false} IfBlockFits(g: Gen, s: Expr, body: Block, rest: Block, n: nat)
    requires AtStatement(g) && ScopedBlock(If(s, body, rest), g.nactvar) && Room(g, 16 * BlockSize(If(s, body, rest)) + n)
    requires g.nactvar + Variables(If(s, body, rest)) <= 50 && g.nactvar + BlockDepth(If(s, body, rest)) < 250
    ensures Room(CompileBlock(g, If(s, body, rest)), n)
    decreases If(s, body, rest), 0
  {
    hide CompileBlock, CompileCond, AfterIf, GenOK, Keeps, JumpList, Apart, BlockSize, BlockDepth, Variables, Size, Depth;
    IfMeasured(s, body, rest);
    IfCalls(g, s, body, rest);
    var m := 16 * BlockSize(rest) + n;
    var (g1, out) := CompileCond(g, s);
    CondFits(g, s, 16 * BlockSize(body) + m);
    CondOK(g, s);
    CondAtStatement(g, s, g1, out);
    BlockFits(g1, body, m);
    EndIfFits(g, s, g1, out, body, m);
    BlockFits(AfterIf(CompileBlock(g1, body), out), rest, n);
  }

  lemma {:induction false} EmptyIfBlockFits(g: Gen, s: Expr, rest: Block, n: nat)
    requires AtStatement(g) && ScopedBlock(IfEmpty(s, rest), g.nactvar) && Room(g, 16 * BlockSize(IfEmpty(s, rest)) + n)
    requires g.nactvar + Variables(IfEmpty(s, rest)) <= 50 && g.nactvar + BlockDepth(IfEmpty(s, rest)) < 250
    ensures Room(CompileBlock(g, IfEmpty(s, rest)), n)
    decreases IfEmpty(s, rest), 0
  {
    hide CompileBlock, CompileCond, AfterIf, GenOK, Keeps, JumpList, Apart, BlockSize, BlockDepth, Variables, Size, Depth;
    EmptyIfMeasured(s, rest);
    EmptyIfCalls(g, s, rest);
    var (g1, out) := CompileCond(g, s);
    CondFits(g, s, 16 * BlockSize(rest) + n);
    CondOK(g, s);
    CondKeeps(g, g1, out);
    AfterIfFits(g1, out, 16 * BlockSize(rest) + n);
    BlockFits(AfterIf(g1, out), rest, n);
  }

  /** Behind the body the false exits are joined to the pending jumps. */
  lemma EndIfFits(g: Gen, s: Expr, g1: Gen, out: seq<nat>, body: Block, n: nat)
    requires AtStatement(g) && CondReady(g, s, g1, out) && AtStatement(g1) && ScopedBlock(body, g1.nactvar)
    requires Room(CompileBlock(g1, body), n)
    ensures var g3 := AfterIf(CompileBlock(g1, body), out);
            Room(g3, n) && AtStatement(g3) && g3.nactvar == g.nactvar
  {
    hide CompileBlock, AfterIf, GenOK, Untouched, From, JumpList, Apart;
    var g2 := CompileBlock(g1, body);
    BlockOK(g1, body);
    BodyKeeps(g, g1, out, g2);
    ExitsOpen(g1, out, g2);
    AfterIfFits(g2, out, n);
  }

  lemma ExitsOpen(g: Gen, out: seq<nat>, g': Gen)
    requires Keeps(g, g.jpc, g', []) && JumpList(g.code, out) && Apart(g.jpc, out)
    ensures JumpList(g'.code, out)
  {
    assert Apart(out, g.jpc);
    ListKept(g.code, g'.code, g.jpc, out);
  }

  /** Every function within the limits is compiled without an error. */
  lemma FunctionCompiles(b: Block, nactvar: nat)
    requires ScopedBlock(b, nactvar) && WithinLimits(b, nactvar)
    ensures !CompileFunction(b, nactvar).err
  {
    hide CompileBlock, Emit;
    var g0 := NewFunction(nactvar);
    BlockFits(g0, b, 1);
    BlockOK(g0, b);
    EmitFits(CompileBlock(g0, b), RETURN(0, 1), 0);
  }

  // ---------- too many variables ----------

  /** The limit on variables is exact: one more than 50 is refused wherever it is declared. */
  lemma {:induction false} BlockOverflows(g: Gen, b: Block)
    requires AtStatement(g) && ScopedBlock(b, g.nactvar) && g.nactvar <= 50 < g.nactvar + Variables(b)
    ensures CompileBlock(g, b).err
    decreases b
  {
    hide CompileBlock, CompileLocal, CompileCond, AfterIf, GenOK, Keeps, JumpList, Apart;
    match b
    case Local(e, rest) =>
      LocalCalls(g, e, rest);
      var g1 := CompileLocal(g, e);
      LocalCounted(g, e);
      if !g1.err {
        LocalOK(g, e);
        BlockOverflows(g1, rest);
      }
    case If(s, body, rest) =>
      IfCalls(g, s, body, rest);
      var (g1, out) := CompileCond(g, s);
      var g2 := CompileBlock(g1, body);
      if !g1.err && !g2.err {
        CondOK(g, s);
        CondAtStatement(g, s, g1, out);
        if g.nactvar + Variables(body) > 50 {
          BlockOverflows(g1, body);
        } else {
          BlockOK(g1, body);
          BodyKeeps(g, g1, out, g2);
          BlockOverflows(AfterIf(g2, out), rest);
        }
      }
    case IfEmpty(s, rest) =>
      EmptyIfCalls(g, s, rest);
      var (g1, out) := CompileCond(g, s);
      if !g1.err {
        CondOK(g, s);
        CondKeeps(g, g1, out);
        BlockOverflows(AfterIf(g1, out), rest);
      }
  }

  lemma LocalCounted(g: Gen, e: Expr)
    ensures g.nactvar + 1 > 50 ==> CompileLocal(g, e).err
  {
    hide Compile, Exp2NextReg;
  }

  lemma TooManyVariables(b: Block, nactvar: nat)
    requires ScopedBlock(b, nactvar) && nactvar + Variables(b) > 50
    ensures CompileFunction(b, nactvar).err
  {
    hide CompileBlock, Emit;
    if nactvar <= 50 { BlockOverflows(NewFunction(nactvar), b); }
  }

  lemma FunctionLimits(b: Block, nactvar: nat)
    requires ScopedBlock(b, nactvar)
    ensures WithinLimits(b, nactvar) ==> !CompileFunction(b, nactvar).err
    ensures nactvar + Variables(b) > 50 ==> CompileFunction(b, nactvar).err
  {
    hide CompileFunction;
    if WithinLimits(b, nactvar) { FunctionCompiles(b, nactvar); }
    if nactvar + Variables(b) > 50 { TooManyVariables(b, nactvar); }
  }

  /** Within the other limits, compilation fails exactly when a 51st variable is declared. */
  lemma FailsExactly(b: Block, nactvar: nat)
    requires ScopedBlock(b, nactvar) && nactvar + BlockDepth(b) < 250 && 16 * BlockSize(b) < 131071
    ensures CompileFunction(b, nactvar).err <==> nactvar + Variables(b) > 50
  {
    hide CompileFunction;
    FunctionLimits(b, nactvar);
  }
}
