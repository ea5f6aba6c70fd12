/** The virtual machine's own code checker accepts everything the code generator emits: every
    jump that was opened has been resolved, every TESTSET has got its register, and all
    operands are in range. */
module LuaChecker {
  import opened LuaSource
  import opened LuaMachine
  import opened LuaWord
  import opened LuaCodegen
  import opened LuaCheckCode
  import opened LuaRun
  import opened LuaInvariant
  import opened LuaOperands
  import opened LuaProgram
  import opened LuaBlock

  // ---------- what holds while code is generated ----------

  /** Operands are in range, but a TESTSET before an open jump may lack its register. */
  ghost predicate ArgsOK(c: Code, k: seq<Value>, maxstack: nat, i: nat)
    requires i < |c|
  {
    || CheckArgs(c[i], k, maxstack)
    || (c[i].TESTSET? && c[i].b < maxstack && i + 1 < |c| && c[i + 1] == OPEN)
  }

  ghost predicate AllArgsOK(c: Code, k: seq<Value>, maxstack: nat) {
    forall i :: 0 <= i < |c| ==> ArgsOK(c, k, maxstack, i)
  }

  /** Every open jump is in one of the lists: none can be forgotten. */
  ghost predicate Listed(c: Code, l: seq<nat>) {
    forall j :: 0 <= j < |c| && c[j] == OPEN ==> j in l
  }

  /** Operands that neither the stack nor the constant table bounds. */
  predicate Small(i: Instr) {
    match i
    case JMP(sbx) => -131071 <= sbx <= 131071
    case CMP(_, _, b, c) => b <= 511 && c <= 511
    case RETURN(_, n) => n <= 511
    case _ => true
  }

  ghost predicate AllSmall(c: Code) {
    forall i :: 0 <= i < |c| ==> Small(c[i])
  }

  /** As long as there was no error all operands fit their fields. */
  ghost predicate Sized(g: Gen) {
    g.err || (AllSmall(g.code) && |g.k| <= 262143)
  }

  ghost predicate Sound(g: Gen, l: seq<nat>) {
    && AllArgsOK(g.code, g.k, g.maxstack) && Listed(g.code, l) && Sized(g)
    && 2 <= g.maxstack && (g.err || g.freereg <= g.maxstack)
  }

  lemma SoundAs(g: Gen, l: seq<nat>, l': seq<nat>)
    requires Sound(g, l) && forall j :: j in l ==> j in l'
    ensures Sound(g, l')
  {
  }

  /** More constants and more registers. */
  lemma ArgsMore(c: Code, k: seq<Value>, maxstack: nat, k': seq<Value>, maxstack': nat)
    requires AllArgsOK(c, k, maxstack) && k <= k' && maxstack <= maxstack'
    ensures AllArgsOK(c, k', maxstack')
  {
    forall i | 0 <= i < |c|
      ensures ArgsOK(c, k', maxstack', i)
    {
      assert ArgsOK(c, k, maxstack, i);
    }
  }

  // ---------- lists ----------

  /** A jump is patched only when its offset fits. */
  lemma PatchSmall(c: Code, list: seq<nat>, vtarget: nat, reg: nat, dtarget: nat)
    requires AllSmall(c) && !PatchTooFar(c, list, vtarget, dtarget)
    ensures AllSmall(Patch(c, list, vtarget, reg, dtarget))
  {
    var c' := Patch(c, list, vtarget, reg, dtarget);
    forall i | 0 <= i < |c'|
      ensures Small(c'[i])
    {
      assert c'[i] == PatchedAt(c, list, vtarget, reg, dtarget, i) && Small(c[i]);
      if i in list { assert !TooFar(i, if Guarded(c, i) then vtarget else dtarget); }
    }
  }

  lemma EmitSized(g: Gen, i: Instr)
    requires Sized(g) && Small(i)
    ensures Sized(Emit(g, i))
  {
    hide Small;
    if !Emit(g, i).err { PatchSmall(g.code, g.jpc, |g.code|, NO_REG, |g.code|); }
  }

  lemma JumpSized(g: Gen)
    requires Sized(g)
    ensures Sized(Jump(g).0)
  {
  }

  lemma PatchArgs(c: Code, list: seq<nat>, vtarget: nat, reg: nat, dtarget: nat, k: seq<Value>, maxstack: nat)
    requires AllArgsOK(c, k, maxstack) && Opens(c, list) && 0 < maxstack && (reg != NO_REG ==> reg < maxstack)
    ensures AllArgsOK(Patch(c, list, vtarget, reg, dtarget), k, maxstack)
  {
    var c' := Patch(c, list, vtarget, reg, dtarget);
    forall i | 0 <= i < |c'|
      ensures ArgsOK(c', k, maxstack, i)
    {
      assert ArgsOK(c, k, maxstack, i);
      assert c'[i] == PatchedAt(c, list, vtarget, reg, dtarget, i);
      if i + 1 < |c| { assert c'[i + 1] == PatchedAt(c, list, vtarget, reg, dtarget, i + 1); }
    }
  }

  /** The patched jumps are no longer open; the others are still in their lists. */
  lemma PatchListed(c: Code, list: seq<nat>, vtarget: nat, reg: nat, dtarget: nat, l: seq<nat>)
    requires Listed(c, list + l)
    requires forall j :: j in list ==> j < if Guarded(c, j) then vtarget else dtarget
    ensures Listed(Patch(c, list, vtarget, reg, dtarget), l)
  {
    var c' := Patch(c, list, vtarget, reg, dtarget);
    forall j | 0 <= j < |c'| && c'[j] == OPEN
      ensures j in l
    {
      assert c'[j] == PatchedAt(c, list, vtarget, reg, dtarget, j);
    }
  }

  lemma RemoveArgs(c: Code, list: seq<nat>, k: seq<Value>, maxstack: nat, l: seq<nat>)
    requires AllArgsOK(c, k, maxstack) && Listed(c, l) && 0 < maxstack
    ensures AllArgsOK(RemoveValues(c, list), k, maxstack) && Listed(RemoveValues(c, list), l)
  {
    var c' := RemoveValues(c, list);
    forall i | 0 <= i < |c'|
      ensures ArgsOK(c', k, maxstack, i)
    {
      assert ArgsOK(c, k, maxstack, i);
    }
  }

  /** One instruction changes in place. */
  lemma SetArgs(c: Code, at: nat, i: Instr, k: seq<Value>, maxstack: nat, l: seq<nat>)
    requires AllArgsOK(c, k, maxstack) && Listed(c, l) && at < |c| && c[at] != OPEN && i != OPEN
    requires CheckArgs(i, k, maxstack)
    ensures AllArgsOK(c[at := i], k, maxstack) && Listed(c[at := i], l)
  {
    var c' := c[at := i];
    forall n | 0 <= n < |c'|
      ensures ArgsOK(c', k, maxstack, n)
    {
      assert ArgsOK(c, k, maxstack, n);
    }
  }

  // ---------- emitting ----------

  lemma SettledSound(g: Gen, l: seq<nat>)
    requires GenOK(g) && Sound(g, g.jpc + l)
    ensures AllArgsOK(Settled(g), g.k, g.maxstack) && Listed(Settled(g), l)
  {
    PatchArgs(g.code, g.jpc, |g.code|, NO_REG, |g.code|, g.k, g.maxstack);
    PatchListed(g.code, g.jpc, |g.code|, NO_REG, |g.code|, l);
  }

  lemma AppendedArgs(c: Code, tail: Code, k: seq<Value>, maxstack: nat, l: seq<nat>, l': seq<nat>)
    requires AllArgsOK(c, k, maxstack) && Listed(c, l) && (forall j :: j in l ==> j in l')
    requires forall i :: |c| <= i < |c + tail| ==> ArgsOK(c + tail, k, maxstack, i) && ((c + tail)[i] == OPEN ==> i in l')
    ensures AllArgsOK(c + tail, k, maxstack) && Listed(c + tail, l')
  {
    forall i | 0 <= i < |c|
      ensures ArgsOK(c + tail, k, maxstack, i)
    {
      assert ArgsOK(c, k, maxstack, i);
    }
  }

  lemma EmitSound(g: Gen, i: Instr, l: seq<nat>)
    requires GenOK(g) && Sound(g, g.jpc + l) && CheckArgs(i, g.k, g.maxstack) && Small(i) && i != OPEN
    ensures Sound(Emit(g, i), l) && Emit(g, i).jpc == []
  {
    hide Sized;
    EmitSized(g, i);
    SettledSound(g, l);
    assert Emit(g, i).code == Settled(g) + [i];
    AppendedArgs(Settled(g), [i], g.k, g.maxstack, l, l);
  }

  lemma JumpSound(g: Gen, l: seq<nat>)
    requires GenOK(g) && Sound(g, g.jpc + l)
    ensures Sound(Jump(g).0, Jump(g).1 + l) && Jump(g).0.jpc == []
  {
    hide Sized;
    JumpSized(g);
    AppendedArgs(g.code, [OPEN], g.k, g.maxstack, g.jpc + l, Jump(g).1 + l);
  }

  lemma CondJumpSound(g: Gen, i: Instr, l: seq<nat>)
    requires GenOK(g) && Sound(g, g.jpc + l) && IsTest(i)
    requires Small(i) && (CheckArgs(i, g.k, g.maxstack) || (i.TESTSET? && i.b < g.maxstack))
    ensures Sound(CondJump(g, i).0, CondJump(g, i).1 + l) && CondJump(g, i).0.jpc == []
  {
    hide Sized;
    EmitSized(g, i);
    JumpSized(Emit(g, i));
    SettledSound(g, l);
    CondJumpOK(g, i);
    var (g', pc) := CondJump(g, i);
    AppendedArgs(Settled(g), [i, OPEN], g.k, g.maxstack, l, pc + l);
  }

  lemma LoadNilSound(g: Gen, reg: nat, l: seq<nat>)
    requires GenOK(g) && Sound(g, g.jpc + l) && reg < g.maxstack
    ensures Sound(LoadNil(g, reg), l) && LoadNil(g, reg).jpc == []
  {
    var n := |g.code|;
    if LoadNil(g, reg) == Emit(g, LOADNIL(reg, reg)) {
      EmitSound(g, LOADNIL(reg, reg), l);
    } else {
      assert g.jpc == [];
      if n > 0 {
        assert ArgsOK(g.code, g.k, g.maxstack, n - 1);
        SetArgs(g.code, n - 1, LOADNIL(g.code[n - 1].a, reg), g.k, g.maxstack, l);
      }
    }
  }

  // ---------- discharging ----------

  lemma DischargeVarsSound(g: Gen, e: Exp, l: seq<nat>)
    requires ExpOK(g, e) && Sound(g, Lists(g, e) + l)
    ensures var (g', e') := DischargeVars(g, e); Sound(g', Lists(g', e') + l)
  {
    if e.k.VGlobal? {
      SoundAs(g, Lists(g, e) + l, g.jpc + (e.t + e.f + l));
      EmitSound(g, GETGLOBAL(0, e.k.name), e.t + e.f + l);
      var (g', e') := DischargeVars(g, e);
      SoundAs(g', e.t + e.f + l, Lists(g', e') + l);
    }
  }

  /** After the pending jumps landed and the value is in a register. */
  lemma EmitIntoSound(g: Gen, e: Exp, i: Instr, reg: nat, l: seq<nat>)
    requires ExpOK(g, e) && !e.k.VJmp? && Sound(g, Lists(g, e) + l) && CheckArgs(i, g.k, g.maxstack) && Small(i) && i != OPEN
    ensures Sound(Emit(g, i), Lists(Emit(g, i), e.(k := VNonReloc(reg))) + l)
  {
    SoundAs(g, Lists(g, e) + l, g.jpc + (e.t + e.f + l));
    EmitSound(g, i, e.t + e.f + l);
    SoundAs(Emit(g, i), e.t + e.f + l, Lists(Emit(g, i), e.(k := VNonReloc(reg))) + l);
  }

  lemma Discharge2RegSound(g: Gen, e: Exp, reg: nat, l: seq<nat>)
    requires ExpOK(g, e) && !e.k.VJmp? && reg < g.freereg <= g.maxstack && Sound(g, Lists(g, e) + l)
    ensures var (g', e') := Discharge2Reg(g, e, reg); Sound(g', Lists(g', e') + l)
  {
    hide Sound, GenOK, Emit, LoadNil, AddK, Apart, JumpList;
    match e.k
    case VNil => NilIntoSound(g, e, reg, l);
    case VFalse => EmitIntoSound(g, e, LOADBOOL(reg, false, false), reg, l);
    case VTrue => EmitIntoSound(g, e, LOADBOOL(reg, true, false), reg, l);
    case VK(info) => EmitIntoSound(g, e, LOADK(reg, info), reg, l);
    case VNonReloc(r) =>
      if r == reg { SoundAs(g, Lists(g, e) + l, Lists(g, e.(k := VNonReloc(reg))) + l); }
      else { EmitIntoSound(g, e, MOVE(reg, r), reg, l); }
    case VLocal(r) => MoveIntoSound(g, e, reg, l);
    case VKNum(n) => NumIntoSound(g, e, reg, l);
    case VReloc(_) => SetTargetSound(g, e, reg, l);
    case VGlobal(_) => GlobalIntoSound(g, e, reg, l);
  }

  lemma GlobalIntoSound(g: Gen, e: Exp, reg: nat, l: seq<nat>)
    requires ExpOK(g, e) && e.k.VGlobal? && reg < g.freereg <= g.maxstack && Sound(g, Lists(g, e) + l)
    ensures var (g', e') := Discharge2Reg(g, e, reg); Sound(g', Lists(g', e') + l)
  {
    hide Sound, ExpOK, Apart, JumpList;
    DischargeVarsSound(g, e, l);
    DischargeVarsOK(g, e);
    var (g1, e1) := DischargeVars(g, e);
    SetTargetSound(g1, e1, reg, l);
  }

  lemma NilIntoSound(g: Gen, e: Exp, reg: nat, l: seq<nat>)
    requires ExpOK(g, e) && e.k.VNil? && reg < g.maxstack && Sound(g, Lists(g, e) + l)
    ensures Sound(LoadNil(g, reg), Lists(LoadNil(g, reg), e.(k := VNonReloc(reg))) + l)
  {
    hide Sound, LoadNil;
    SoundAs(g, Lists(g, e) + l, g.jpc + (e.t + e.f + l));
    LoadNilSound(g, reg, e.t + e.f + l);
    SoundAs(LoadNil(g, reg), e.t + e.f + l, Lists(LoadNil(g, reg), e.(k := VNonReloc(reg))) + l);
  }

  lemma MoveIntoSound(g: Gen, e: Exp, reg: nat, l: seq<nat>)
    requires ExpOK(g, e) && e.k.VLocal? && reg < g.freereg <= g.maxstack && Sound(g, Lists(g, e) + l)
    ensures var (g', e') := Discharge2Reg(g, e, reg); Sound(g', Lists(g', e') + l)
  {
    hide Sound, Emit, JumpsWithin, NilRanges, NoDup;
    if e.k.reg == reg {
      SoundAs(g, Lists(g, e) + l, Lists(g, e.(k := VNonReloc(reg))) + l);
    } else {
      EmitIntoSound(g, e, MOVE(reg, e.k.reg), reg, l);
    }
  }

  lemma NumIntoSound(g: Gen, e: Exp, reg: nat, l: seq<nat>)
    requires ExpOK(g, e) && e.k.VKNum? && reg < g.freereg <= g.maxstack && Sound(g, Lists(g, e) + l)
    ensures var (g', e') := Discharge2Reg(g, e, reg); Sound(g', Lists(g', e') + l)
  {
    hide Emit, JumpsWithin, NilRanges, AllArgsOK, Listed;
    AddKOK(g, Num(e.k.nval));
    var (g1, info) := AddK(g, Num(e.k.nval));
    ArgsMore(g.code, g.k, g.maxstack, g1.k, g1.maxstack);
    EmitIntoSound(g1, e, LOADK(reg, info), reg, l);
  }

  lemma SetTargetSound(g: Gen, e: Exp, reg: nat, l: seq<nat>)
    requires ExpOK(g, e) && e.k.VReloc? && reg < g.freereg <= g.maxstack && Sound(g, Lists(g, e) + l)
    ensures var (g', e') := Discharge2Reg(g, e, reg); Sound(g', Lists(g', e') + l)
  {
    var (g', e') := Discharge2Reg(g, e, reg);
    assert ArgsOK(g.code, g.k, g.maxstack, e.k.pc);
    SetArgs(g.code, e.k.pc, SetA(g.code[e.k.pc], reg), g.k, g.maxstack, Lists(g, e) + l);
    SoundAs(g', Lists(g, e) + l, Lists(g', e') + l);
  }

  lemma ReserveSound(g: Gen, l: seq<nat>)
    requires Sound(g, l)
    ensures Sound(ReserveReg(g), l)
    ensures !ReserveReg(g).err ==> ReserveReg(g).freereg <= ReserveReg(g).maxstack
  {
    ArgsMore(g.code, g.k, g.maxstack, g.k, ReserveReg(g).maxstack);
  }

  lemma FreeSound(g: Gen, e: Exp, l: seq<nat>)
    requires Sound(g, l)
    ensures Sound(FreeExp(g, e), l)
  {
  }

  lemma Discharge2AnyRegSound(g: Gen, e: Exp, l: seq<nat>)
    requires ExpOK(g, e) && !e.k.VJmp? && Sound(g, Lists(g, e) + l) && !Discharge2AnyReg(g, e).0.err
    ensures var (g', e') := Discharge2AnyReg(g, e); Sound(g', Lists(g', e') + l)
  {
    if !e.k.VNonReloc? {
      ReserveRegOK(g);
      ReserveSound(g, Lists(g, e) + l);
      assert ExpOK(ReserveReg(g), e);
      Discharge2RegSound(ReserveReg(g), e, g.freereg, l);
    }
  }

  // ---------- and, or, not ----------

  /** The NOT that is removed, and the test that replaces it. */
  lemma JumpOnNotSound(g: Gen, e: Exp, cond: bool, l: seq<nat>)
    requires ExpOK(g, e) && e.k.VReloc? && g.code[e.k.pc].NOT? && Sound(g, Lists(g, e) + l)
    ensures var (g', pc) := JumpOnCond(g, e, cond); Sound(g', pc + e.t + e.f + l)
  {
    hide CondJump, JumpsWithin, NilRanges, NoDup, Opens;
    CutOK(g, e);
    var h := g.(code := g.code[..|g.code| - 1]);
    forall i | 0 <= i < |h.code|
      ensures ArgsOK(h.code, h.k, h.maxstack, i)
    {
      assert ArgsOK(g.code, g.k, g.maxstack, i);
    }
    assert ArgsOK(g.code, g.k, g.maxstack, e.k.pc);
    assert Sound(h, h.jpc + (e.t + e.f + l));
    CondJumpSound(h, TEST(g.code[e.k.pc].b, !cond), e.t + e.f + l);
    var (g', pc) := JumpOnCond(g, e, cond);
    SoundAs(g', pc + (e.t + e.f + l), pc + e.t + e.f + l);
  }

  lemma JumpOnCondSound(g: Gen, e: Exp, cond: bool, l: seq<nat>)
    requires ExpOK(g, e) && !e.k.VJmp? && TopTemp(g, e) && Sound(g, Lists(g, e) + l)
    requires !JumpOnCond(g, e, cond).0.err
    ensures var (g', pc) := JumpOnCond(g, e, cond); Sound(g', pc + e.t + e.f + l)
  {
    if e.k.VReloc? && g.code[e.k.pc].NOT? {
      JumpOnNotSound(g, e, cond, l);
    } else {
      Discharge2AnyRegOK(g, e);
      Discharge2AnyRegSound(g, e, l);
      var (g1, e1) := Discharge2AnyReg(g, e);
      FreeSound(g1, e1, Lists(g1, e1) + l);
      var g2 := FreeExp(g1, e1);
      SoundAs(g2, Lists(g1, e1) + l, g2.jpc + (e.t + e.f + l));
      CondJumpSound(g2, TESTSET(NO_REG, e1.k.reg, cond), e.t + e.f + l);
      var (g', pc) := JumpOnCond(g, e, cond);
      SoundAs(g', pc + (e.t + e.f + l), pc + e.t + e.f + l);
    }
  }

  lemma InvertSound(g: Gen, e: Exp, l: seq<nat>)
    requires ExpOK(g, e) && e.k.VJmp? && Sound(g, l)
    ensures Sound(InvertJump(g, e.k.pc), l)
  {
    var i := g.code[e.k.pc - 1];
    assert ArgsOK(g.code, g.k, g.maxstack, e.k.pc - 1);
    SetArgs(g.code, e.k.pc - 1, i.(accept := !i.accept), g.k, g.maxstack, l);
  }

  lemma JumpAwaySound(g: Gen, e: Exp, l: seq<nat>)
    requires ExpOK(g, e) && !e.k.VJmp? && Sound(g, Lists(g, e) + l)
    ensures var (g1, pc) := Jump(g); Sound(g1, g1.jpc + pc + e.t + e.f + l)
  {
    SoundAs(g, Lists(g, e) + l, g.jpc + (e.t + e.f + l));
    JumpSound(g, e.t + e.f + l);
    var (g1, pc) := Jump(g);
    SoundAs(g1, pc + (e.t + e.f + l), g1.jpc + pc + e.t + e.f + l);
  }

  lemma JumpIfFalseSound(g: Gen, e: Exp, l: seq<nat>)
    requires ExpOK(g, e) && TopTemp(g, e) && Sound(g, Lists(g, e) + l) && !JumpIfFalse(g, e).0.err
    ensures var (g1, pc) := JumpIfFalse(g, e); Sound(g1, g1.jpc + pc + e.t + e.f + l)
  {
    var (g1, pc) := JumpIfFalse(g, e);
    match e.k
    case VK(_) => SoundAs(g1, Lists(g, e) + l, g1.jpc + pc + e.t + e.f + l);
    case VKNum(_) => SoundAs(g1, Lists(g, e) + l, g1.jpc + pc + e.t + e.f + l);
    case VTrue => SoundAs(g1, Lists(g, e) + l, g1.jpc + pc + e.t + e.f + l);
    case VFalse => JumpAwaySound(g, e, l);
    case VJmp(_) =>
      InvertSound(g, e, Lists(g, e) + l);
      SoundAs(g1, Lists(g, e) + l, g1.jpc + pc + e.t + e.f + l);
    case _ =>
      JumpOnCondSound(g, e, false, l);
      SoundAs(g1, pc + e.t + e.f + l, g1.jpc + pc + e.t + e.f + l);
  }

  lemma JumpIfTrueSound(g: Gen, e: Exp, l: seq<nat>)
    requires ExpOK(g, e) && TopTemp(g, e) && Sound(g, Lists(g, e) + l) && !JumpIfTrue(g, e).0.err
    ensures var (g1, pc) := JumpIfTrue(g, e); Sound(g1, g1.jpc + pc + e.t + e.f + l)
  {
    var (g1, pc) := JumpIfTrue(g, e);
    match e.k
    case VNil => SoundAs(g1, Lists(g, e) + l, g1.jpc + pc + e.t + e.f + l);
    case VFalse => SoundAs(g1, Lists(g, e) + l, g1.jpc + pc + e.t + e.f + l);
    case VTrue => JumpAwaySound(g, e, l);
    case VJmp(_) => SoundAs(g1, Lists(g, e) + l, g1.jpc + pc + e.t + e.f + l);
    case _ =>
      JumpOnCondSound(g, e, true, l);
      SoundAs(g1, pc + e.t + e.f + l, g1.jpc + pc + e.t + e.f + l);
  }

  lemma GoIfTrueSound(g: Gen, e: Exp, l: seq<nat>)
    requires ExpOK(g, e) && TopTemp(g, e) && Sound(g, Lists(g, e) + l) && !GoIfTrue(g, e).0.err
    ensures var (g', e') := GoIfTrue(g, e); Sound(g', g'.jpc + e'.f + l)
  {
    DischargeVarsOK(g, e);
    DischargeVarsSound(g, e, l);
    var (g0, e0) := DischargeVars(g, e);
    JumpIfFalseSound(g0, e0, l);
    var (g1, pc) := JumpIfFalse(g0, e0);
    PartSound(g1, e0.f, pc, e0.t, l, e0.t + e0.f);
  }

  lemma GoIfFalseSound(g: Gen, e: Exp, l: seq<nat>)
    requires ExpOK(g, e) && TopTemp(g, e) && Sound(g, Lists(g, e) + l) && !GoIfFalse(g, e).0.err
    ensures var (g', e') := GoIfFalse(g, e); Sound(g', g'.jpc + e'.t + l)
  {
    DischargeVarsOK(g, e);
    DischargeVarsSound(g, e, l);
    var (g0, e0) := DischargeVars(g, e);
    JumpIfTrueSound(g0, e0, l);
    var (g1, pc) := JumpIfTrue(g0, e0);
    PartSound(g1, e0.t, pc, e0.f, l, e0.t + e0.f);
  }

  lemma PartSound(g: Gen, out: seq<nat>, pc: seq<nat>, here: seq<nat>, l: seq<nat>, both: seq<nat>)
    requires Sound(g, g.jpc + pc + both + l) && forall j :: j in both ==> j in out || j in here
    ensures var g' := Part(g, out, pc, here); Sound(g', g'.jpc + (out + pc) + l)
  {
    var g' := Part(g, out, pc, here);
    SoundAs(g.(err := g'.err), g.jpc + pc + both + l, g'.jpc + (out + pc) + l);
  }

  /** OP_NOT is emitted for a value in some register. */
  lemma NotIntoSound(g: Gen, e: Exp, l: seq<nat>)
    requires ExpOK(g, e) && TopTemp(g, e) && Sound(g, Lists(g, e) + l) && !Discharge2AnyReg(g, e).0.err && !e.k.VJmp?
    ensures var (g1, e1) := Discharge2AnyReg(g, e);
            e1.k.VNonReloc? && Sound(Emit(FreeExp(g1, e1), NOT(0, e1.k.reg)), e.t + e.f + l)
            && Emit(FreeExp(g1, e1), NOT(0, e1.k.reg)).jpc == []
  {
    hide Sound, Emit, Discharge2AnyReg;
    Discharge2AnyRegOK(g, e);
    Discharge2AnyRegSound(g, e, l);
    var (g1, e1) := Discharge2AnyReg(g, e);
    FreeSound(g1, e1, Lists(g1, e1) + l);
    var g2 := FreeExp(g1, e1);
    SoundAs(g2, Lists(g1, e1) + l, g2.jpc + (e.t + e.f + l));
    EmittedNotSound(g1, e1, e.t + e.f + l);
  }

  lemma EmittedNotSound(g: Gen, e: Exp, l: seq<nat>)
    requires ExpOK(g, e) && e.k.VNonReloc? && !g.err && GenOK(FreeExp(g, e)) && Sound(FreeExp(g, e), g.jpc + l)
    ensures var g' := Emit(FreeExp(g, e), NOT(0, e.k.reg)); Sound(g', l) && g'.jpc == []
  {
    hide JumpsWithin, NilRanges, NoDup, Opens, Emit, Listed, AllArgsOK;
    EmitSound(FreeExp(g, e), NOT(0, e.k.reg), l);
  }

  lemma NegateSound(g: Gen, e: Exp, l: seq<nat>)
    requires ExpOK(g, e) && TopTemp(g, e) && Sound(g, Lists(g, e) + l) && !Negate(g, e).0.err
    ensures var (g1, k1) := Negate(g, e); Sound(g1, Lists(g1, e.(k := k1)) + l)
  {
    hide Sound, ExpOK, Emit, Discharge2AnyReg, FreeExp, TopTemp;
    var (g1, k1) := Negate(g, e);
    if e.k.VJmp? {
      InvertSound(g, e, Lists(g, e) + l);
      SoundAs(g1, Lists(g, e) + l, Lists(g1, e.(k := k1)) + l);
    } else if e.k.VReloc? || e.k.VNonReloc? || e.k.VLocal? || e.k.VGlobal? {
      NotIntoSound(g, e, l);
      SoundAs(g1, e.t + e.f + l, Lists(g1, e.(k := k1)) + l);
    } else {
      SoundAs(g, Lists(g, e) + l, Lists(g, e.(k := k1)) + l);
    }
  }

  lemma CodeNotSound(g: Gen, e: Exp, l: seq<nat>)
    requires ExpOK(g, e) && TopTemp(g, e) && Sound(g, Lists(g, e) + l) && !CodeNot(g, e).0.err
    ensures var (g', e') := CodeNot(g, e); Sound(g', Lists(g', e') + l)
  {
    DischargeVarsOK(g, e);
    DischargeVarsSound(g, e, l);
    var (g0, e0) := DischargeVars(g, e);
    NegateSound(g0, e0, l);
    var (g1, k1) := Negate(g0, e0);
    var all := Lists(g1, e0.(k := k1)) + l;
    RemoveArgs(g1.code, e0.t, g1.k, g1.maxstack, all);
    RemoveArgs(RemoveValues(g1.code, e0.t), e0.f, g1.k, g1.maxstack, all);
    var (g', e') := CodeNot(g, e);
    SoundAs(g', all, Lists(g', e') + l);
  }

  // ---------- into a register ----------

  lemma ToListSound(g: Gen, e: Exp, reg: nat, l: seq<nat>)
    requires ExpOK(g, e) && reg < g.freereg <= g.maxstack && Sound(g, Lists(g, e) + l)
    ensures var (g1, e1) := ToList(g, e, reg); Sound(g1, g1.jpc + e1.t + e1.f + l)
  {
    var (g1, e1) := ToList(g, e, reg);
    if e.k.VJmp? {
      SoundAs(g, Lists(g, e) + l, g1.jpc + e1.t + e1.f + l);
    } else {
      Discharge2RegOK(g, e, reg);
      Discharge2RegSound(g, e, reg, l);
      SoundAs(g1, Lists(g1, e1) + l, g1.jpc + e1.t + e1.f + l);
    }
  }

  lemma LoadBoolsSound(g: Gen, isJmp: bool, reg: nat, l: seq<nat>)
    requires GenOK(g) && (isJmp ==> g.jpc == []) && reg < g.maxstack && Sound(g, g.jpc + l)
    ensures var g' := LoadBools(g, isJmp, reg).0; Sound(g', g'.jpc + l)
  {
    hide LoadBools, GenOK, JumpsWithin, NilRanges;
    LoadBoolsOK(g, isJmp, reg);
    var g' := LoadBools(g, isJmp, reg).0;
    var bools := [LOADBOOL(reg, false, true), LOADBOOL(reg, true, false)];
    var tail := if isJmp then bools else [OPEN] + bools;
    assert g'.code == g.code + tail;
    AppendedArgs(g.code, tail, g.k, g.maxstack, g.jpc + l, g'.jpc + l);
  }

  lemma PatchExitsSized(g: Gen, e: Exp, reg: nat, pf: nat, pt: nat)
    requires Sized(g)
    ensures Sized(PatchExits(g, e, reg, pf, pt))
  {
    hide Small, Patch;
    if !PatchExits(g, e, reg, pf, pt).err {
      PatchSmall(g.code, e.f, |g.code|, reg, pf);
      PatchSmall(Patch(g.code, e.f, |g.code|, reg, pf), e.t, |g.code|, reg, pt);
    }
  }

  lemma PatchExitsSound(g: Gen, e: Exp, reg: nat, pf: nat, pt: nat, l: seq<nat>)
    requires GenOK(g) && Resolvable(g, e, pf, pt) && reg < g.maxstack && Sound(g, g.jpc + e.t + e.f + l)
    ensures var g' := PatchExits(g, e, reg, pf, pt); Sound(g', g'.jpc + l)
  {
    hide Sized, Patch;
    PatchExitsSized(g, e, reg, pf, pt);
    var last := |g.code|;
    var c1 := Patch(g.code, e.f, last, reg, pf);
    PatchArgs(g.code, e.f, last, reg, pf, g.k, g.maxstack);
    PatchListed(g.code, e.f, last, reg, pf, e.t + (g.jpc + l));
    PatchOK(g.code, e.f, last, reg, pf, g.lasttarget, last);
    ListKept(g.code, c1, e.f, e.t);
    forall j | j in e.t
      ensures Guarded(c1, j) <==> Guarded(g.code, j)
    {
      assert OpenAlike(g.code, c1, j);
    }
    PatchArgs(c1, e.t, last, reg, pt, g.k, g.maxstack);
    PatchListed(c1, e.t, last, reg, pt, g.jpc + l);
  }

  lemma ResolveSound(g: Gen, e: Exp, isJmp: bool, reg: nat, l: seq<nat>)
    requires GenOK(g) && Resolvable(g, e, |g.code|, |g.code|) && (isJmp ==> g.jpc == []) && reg < g.maxstack
    requires Sound(g, g.jpc + e.t + e.f + l)
    ensures var g' := Resolve(g, e, isJmp, reg); Sound(g', g'.jpc + l)
  {
    hide LoadBools, PatchExits, Sound, GenOK, Resolvable;
    if !HasJumps(e) {
      SoundAs(g, g.jpc + e.t + e.f + l, g.jpc + l);
    } else if NeedValue(g.code, e.t) || NeedValue(g.code, e.f) {
      SoundAs(g, g.jpc + e.t + e.f + l, g.jpc + (e.t + e.f + l));
      BoolsResolvable(g, e, isJmp, reg);
      LoadBoolsSound(g, isJmp, reg, e.t + e.f + l);
      var (g', pf, pt) := LoadBools(g, isJmp, reg);
      SoundAs(g', g'.jpc + (e.t + e.f + l), g'.jpc + e.t + e.f + l);
      PatchExitsSound(g', e, reg, pf, pt, l);
    } else {
      PatchExitsSound(g, e, reg, |g.code|, |g.code|, l);
    }
  }

  lemma Exp2RegSound(g: Gen, e: Exp, reg: nat, l: seq<nat>)
    requires ExpOK(g, e) && reg < g.freereg <= g.maxstack && Sound(g, Lists(g, e) + l)
    ensures var g' := Exp2Reg(g, e, reg).0; Sound(g', g'.jpc + l)
  {
    ToListOK(g, e, reg);
    ToListSound(g, e, reg, l);
    var (g1, e1) := ToList(g, e, reg);
    ToListStack(g, e, reg);
    ResolveSound(g1, e1, e.k.VJmp?, reg, l);
  }

  lemma ToListStack(g: Gen, e: Exp, reg: nat)
    ensures ToList(g, e, reg).0.maxstack == g.maxstack
  {
  }

  lemma Exp2NextRegSound(g: Gen, e: Exp, l: seq<nat>)
    requires ExpOK(g, e) && TopTemp(g, e) && Sound(g, Lists(g, e) + l) && !Exp2NextReg(g, e).0.err
    ensures var g' := Exp2NextReg(g, e).0; Sound(g', g'.jpc + l)
  {
    hide DischargeVars, FreeExp, ReserveReg, Level, JumpsWithin;
    DischargeVarsOK(g, e);
    DischargeVarsSound(g, e, l);
    DischargedLevel(g, e);
    var (g1, e1) := DischargeVars(g, e);
    FreshReg(g1, e1);
    FreeSound(g1, e1, Lists(g1, e1) + l);
    ReserveSound(FreeExp(g1, e1), Lists(g1, e1) + l);
    Exp2RegSound(ReserveReg(FreeExp(g1, e1)), e1, FreeExp(g1, e1).freereg, l);
  }

  lemma Exp2AnyRegSound(g: Gen, e: Exp, l: seq<nat>)
    requires ExpOK(g, e) && TopTemp(g, e) && Sound(g, Lists(g, e) + l) && !Exp2AnyReg(g, e).0.err
    ensures var g' := Exp2AnyReg(g, e).0; Sound(g', g'.jpc + l)
  {
    hide Exp2AnyReg, Exp2NextReg, Exp2Reg, JumpsWithin;
    AnyRegCases(g, e);
    if (e.k.VLocal? || e.k.VNonReloc?) && !HasJumps(e) {
      SoundAs(g, Lists(g, e) + l, g.jpc + l);
    } else if e.k.VNonReloc? && e.k.reg >= g.nactvar {
      Exp2RegSound(g, e, e.k.reg, l);
    } else {
      Exp2NextRegSound(g, e, l);
    }
  }

  lemma Exp2RKSound(g: Gen, e: Exp, l: seq<nat>)
    requires ExpOK(g, e) && TopTemp(g, e) && Sound(g, Lists(g, e) + l) && !Exp2RK(g, e).0.err
    ensures var g' := Exp2RK(g, e).0; Sound(g', g'.jpc + l)
  {
    Exp2RKCases(g, e);
    if Inline(e, g.k) {
      var g' := Exp2RK(g, e).0;
      if !e.k.VK? { AddKOK(g, InlineValue(e)); }
      ArgsMore(g.code, g.k, g.maxstack, g'.k, g'.maxstack);
      SoundAs(g', Lists(g, e) + l, g'.jpc + l);
    } else {
      Exp2AnyRegSound(g, e, l);
    }
  }

  // ---------- comparisons ----------

  lemma HeldRK(g: Gen, e: Exp, rk: nat, base: nat)
    requires GenOK(g) && !g.err && Held(g, e, rk, base)
    ensures CheckRK(rk, g.k, g.maxstack)
  {
  }

  lemma CodeCompSound(g: Gen, op: CmpOp, cond: bool, e1: Exp, rk1: nat, base: nat, e2: Exp, l: seq<nat>)
    requires ExpOK(g, e2) && TopTemp(g, e2) && Held(g.(freereg := Level(g, e2)), e1, rk1, base)
    requires Sound(g, Lists(g, e2) + l)
    requires !CodeComp(g, op, cond, e1, e2).0.err
    ensures var (g', e') := CodeComp(g, op, cond, e1, e2); Sound(g', Lists(g', e') + l)
  {
    hide Exp2RK, CodeComp;
    var (g2, e2', rk2) := Exp2RK(g, e2);
    CodeCompOK(g, op, cond, e1, rk1, base, e2);
    Exp2RKOK(g, e2);
    CompareFine(g2.(freereg := base), CompareInstr(op, cond, rk1, rk2));
    Exp2RKSound(g, e2, l);
    HeldRK(g2, e2', rk2, Level(g, e2));
    HeldRK1(g.(freereg := Level(g, e2)), e1, rk1, base, g2);
    CondJumpSound(g2.(freereg := base), CompareInstr(op, cond, rk1, rk2), l);
    var (g', e') := CodeComp(g, op, cond, e1, e2);
    SoundAs(g', [|g'.code| - 1] + l, Lists(g', e') + l);
  }

  lemma HeldRK1(g: Gen, e: Exp, rk: nat, base: nat, g': Gen)
    requires GenOK(g') && !g'.err && Held(g, e, rk, base) && g.k <= g'.k && g.freereg <= g'.freereg && g.nactvar == g'.nactvar
    ensures CheckRK(rk, g'.k, g'.maxstack)
  {
  }

  lemma CompareFine(g: Gen, i: Instr)
    requires !CondJump(g, i).0.err
    ensures !g.err
  {
  }

  // ---------- whole expressions and functions ----------

  lemma {:induction false} CompileSound(g: Gen, s: Expr, l: seq<nat>)
    requires GenOK(g) && Scoped(s, g.nactvar) && !Compile(g, s).0.err && Sound(g, g.jpc + l)
    ensures var (g', e') := Compile(g, s); Sound(g', Lists(g', e') + l)
    decreases s
  {
    match s
    case EParen(a) =>
      var (g1, e1) := Compile(g, a);
      CompileOK(g, a);
      CompileSound(g, a, l);
      DischargeVarsSound(g1, e1, l);
    case ENot(a) =>
      var (g1, e1) := Compile(g, a);
      CompileOK(g, a);
      CompileSound(g, a, l);
      CodeNotSound(g1, e1, l);
    case EAnd(a, b) => AndSound(g, a, b, l);
    case EOr(a, b) => OrSound(g, a, b, l);
    case ERel(op, a, b) => RelSound(g, op, a, b, l);
    case EStr(str) =>
      AddKOK(g, Str(str));
      ArgsMore(g.code, g.k, g.maxstack, AddK(g, Str(str)).0.k, g.maxstack);
      LeafSound(g, Compile(g, s).0, Compile(g, s).1, l);
    case EGlobal(name) =>
      AddKOK(g, Str(name));
      ArgsMore(g.code, g.k, g.maxstack, AddK(g, Str(name)).0.k, g.maxstack);
      LeafSound(g, Compile(g, s).0, Compile(g, s).1, l);
    case _ => LeafSound(g, Compile(g, s).0, Compile(g, s).1, l);
  }

  lemma LeafSound(g: Gen, g': Gen, e': Exp, l: seq<nat>)
    requires Sound(g', g.jpc + l) && g'.jpc == g.jpc
    ensures Sound(g', Lists(g', e') + l)
  {
  }

  lemma {:induction false} AndSound(g: Gen, a: Expr, b: Expr, l: seq<nat>)
    requires GenOK(g) && Scoped(EAnd(a, b), g.nactvar) && !Compile(g, EAnd(a, b)).0.err && Sound(g, g.jpc + l)
    ensures var (g', e') := Compile(g, EAnd(a, b)); Sound(g', Lists(g', e') + l)
    decreases EAnd(a, b), 0
  {
    hide Compile, GoIfTrue, JoinAnd, Sound, GenOK, ExpOK, Shaped, Untouched, From;
    AndCalls(g, a, b);
    var (g1, ea) := Compile(g, a);
    var (g2, ea') := GoIfTrue(g1, ea);
    var (g3, eb) := Compile(g2, b);
    CompileOK(g, a);
    CompileSound(g, a, l);
    GoIfTrueOK(g1, ea);
    GoIfTrueSound(g1, ea, l);
    SoundAs(g2, g2.jpc + ea'.f + l, g2.jpc + (ea'.f + l));
    CompileOK(g2, b);
    CompileSound(g2, b, ea'.f + l);
    JoinAndSound(g3, ea', eb, l);
  }

  lemma JoinAndSound(g: Gen, e1: Exp, e2: Exp, l: seq<nat>)
    requires ExpOK(g, e2) && Sound(g, Lists(g, e2) + (e1.f + l))
    ensures var (g', e') := JoinAnd(g, e1, e2); Sound(g', Lists(g', e') + l)
  {
    hide GenOK, DischargeVars, AllArgsOK, Listed;
    DischargeVarsSound(g, e2, e1.f + l);
    var (g1, e2') := DischargeVars(g, e2);
    var (g', e') := JoinAnd(g, e1, e2);
    SoundAs(g1, Lists(g1, e2') + (e1.f + l), Lists(g', e') + l);
  }

  lemma {:induction false} OrSound(g: Gen, a: Expr, b: Expr, l: seq<nat>)
    requires GenOK(g) && Scoped(EOr(a, b), g.nactvar) && !Compile(g, EOr(a, b)).0.err && Sound(g, g.jpc + l)
    ensures var (g', e') := Compile(g, EOr(a, b)); Sound(g', Lists(g', e') + l)
    decreases EOr(a, b), 0
  {
    hide Compile, GoIfFalse, JoinOr, Sound, GenOK, ExpOK, Shaped, Untouched, From;
    OrCalls(g, a, b);
    var (g1, ea) := Compile(g, a);
    var (g2, ea') := GoIfFalse(g1, ea);
    var (g3, eb) := Compile(g2, b);
    CompileOK(g, a);
    CompileSound(g, a, l);
    GoIfFalseOK(g1, ea);
    GoIfFalseSound(g1, ea, l);
    SoundAs(g2, g2.jpc + ea'.t + l, g2.jpc + (ea'.t + l));
    CompileOK(g2, b);
    CompileSound(g2, b, ea'.t + l);
    JoinOrSound(g3, ea', eb, l);
  }

  lemma JoinOrSound(g: Gen, e1: Exp, e2: Exp, l: seq<nat>)
    requires ExpOK(g, e2) && Sound(g, Lists(g, e2) + (e1.t + l))
    ensures var (g', e') := JoinOr(g, e1, e2); Sound(g', Lists(g', e') + l)
  {
    hide GenOK, DischargeVars, AllArgsOK, Listed;
    DischargeVarsSound(g, e2, e1.t + l);
    var (g1, e2') := DischargeVars(g, e2);
    var (g', e') := JoinOr(g, e1, e2);
    SoundAs(g1, Lists(g1, e2') + (e1.t + l), Lists(g', e') + l);
  }

  lemma {:induction false} RelSound(g: Gen, op: RelOp, a: Expr, b: Expr, l: seq<nat>)
    requires GenOK(g) && Scoped(ERel(op, a, b), g.nactvar) && !Compile(g, ERel(op, a, b)).0.err && Sound(g, g.jpc + l)
    ensures var (g', e') := Compile(g, ERel(op, a, b)); Sound(g', Lists(g', e') + l)
    decreases ERel(op, a, b), 0
  {
    hide Compile, Exp2RK, CodeComp, Level, Sound, GenOK, ExpOK, Shaped, Untouched, From;
    RelCalls(g, op, a, b);
    var (g1, ea) := Compile(g, a);
    var (g2, ea', rk) := Exp2RK(g1, ea);
    var (g3, eb) := Compile(g2, b);
    CompileOK(g, a);
    CompileSound(g, a, l);
    NoTempLevel(g1, ea);
    Exp2RKOK(g1, ea);
    Exp2RKSound(g1, ea, l);
    CompileOK(g2, b);
    CompileSound(g2, b, l);
    NoTempLevel(g3, eb);
    HeldLater(g2, ea', rk, g1.freereg, g3);
    CodeCompSound(g3, OpcodeOf(op), Direct(op), ea', rk, g1.freereg, eb, l);
  }

  // ---------- statements and functions ----------

  lemma ReturnSound(g: Gen, s: Expr, l: seq<nat>)
    requires GenOK(g) && Scoped(s, g.nactvar) && !CompileReturn(g, s).err && Sound(g, g.jpc + l)
    ensures Sound(CompileReturn(g, s), l)
  {
    hide Compile, Exp2AnyReg, Emit, Level, JumpsWithin, Sound, Untouched, From, JumpList;
    var (g1, e1) := Compile(g, s);
    var (g2, e2) := Exp2AnyReg(g1, e1);
    CompileOK(g, s);
    CompileSound(g, s, l);
    NoTempLevel(g1, e1);
    Exp2AnyRegOK(g1, e1);
    Exp2AnyRegSound(g1, e1, l);
    ReturnKeeps(g2, RETURN(e2.k.reg, 2));
    EmitReturnSound(g2, e2.k.reg, l);
  }

  lemma EmitReturnSound(g: Gen, reg: nat, l: seq<nat>)
    requires GenOK(g) && !g.err && reg < g.freereg && Sound(g, g.jpc + l)
    ensures Sound(Emit(g, RETURN(reg, 2)), l)
  {
    hide Emit;
    EmitSound(g, RETURN(reg, 2), l);
  }

  lemma LocalSound(g: Gen, e: Expr, l: seq<nat>)
    requires AtStatement(g) && Scoped(e, g.nactvar) && !CompileLocal(g, e).err && Sound(g, g.jpc + l)
    ensures var g' := CompileLocal(g, e); Sound(g', g'.jpc + l)
  {
    hide Compile, Exp2NextReg, JumpsWithin, Untouched, From, JumpList, AllArgsOK, Listed;
    var (g1, e1) := Compile(g, e);
    CompileOK(g, e);
    CompileSound(g, e, l);
    Exp2NextRegSound(g1, e1, l);
  }

  lemma CondSound(g: Gen, s: Expr, l: seq<nat>)
    requires GenOK(g) && Scoped(s, g.nactvar) && !CompileCond(g, s).0.err && Sound(g, g.jpc + l)
    ensures var (g1, out) := CompileCond(g, s); Sound(g1, g1.jpc + out + l)
  {
    hide Compile, GoIfTrue, JumpsWithin, Sound, Untouched, From, JumpList;
    var (g1, e1) := Compile(g, s);
    CompileOK(g, s);
    CompileSound(g, s, l);
    NilIsFalse(g1, e1);
    GoIfTrueSound(g1, if e1.k.VNil? then e1.(k := VFalse) else e1, l);
  }

  lemma AfterIfSound(g: Gen, out: seq<nat>, l: seq<nat>)
    requires GenOK(g) && Sound(g, g.jpc + out + l)
    ensures var g' := AfterIf(g, out); Sound(g', g'.jpc + l)
  {
  }

  lemma {:induction false} BlockSound(g: Gen, b: Block, l: seq<nat>)
    requires AtStatement(g) && ScopedBlock(b, g.nactvar) && !CompileBlock(g, b).err && Sound(g, g.jpc + l)
    ensures Sound(CompileBlock(g, b), l)
    decreases b
  {
    hide CompileBlock, CompileReturn, CompileLocal, CompileCond, AfterIf, GenOK, Keeps, JumpList, Apart, AllArgsOK, Listed;
    match b
    case Return(e) =>
      ReturnCalls(g, e);
      ReturnSound(g, e, l);
    case Local(e, rest) =>
      LocalCalls(g, e, rest);
      LocalOK(g, e);
      LocalSound(g, e, l);
      BlockSound(CompileLocal(g, e), rest, l);
    case If(s, body, rest) =>
      IfCalls(g, s, body, rest);
      var (g1, out) := CompileCond(g, s);
      var g2 := CompileBlock(g1, body);
      CondOK(g, s);
      CondAtStatement(g, s, g1, out);
      CondSound(g, s, l);
      SoundAs(g1, g1.jpc + out + l, g1.jpc + (out + l));
      BlockOK(g1, body);
      BlockSound(g1, body, out + l);
      BodyKeeps(g, g1, out, g2);
      SoundAs(g2, out + l, g2.jpc + out + l);
      AfterIfSound(g2, out, l);
      BlockSound(AfterIf(g2, out), rest, l);
    case IfEmpty(s, rest) =>
      EmptyIfCalls(g, s, rest);
      var (g1, out) := CompileCond(g, s);
      CondOK(g, s);
      CondSound(g, s, l);
      CondKeeps(g, g1, out);
      AfterIfSound(g1, out, l);
      BlockSound(AfterIf(g1, out), rest, l);
  }

  /** A finished function: all jumps resolved, all operands in range. */
  ghost predicate Closed(g: Gen) {
    && AllArgsOK(g.code, g.k, g.maxstack) && Sized(g) && OPEN !in g.code
    && g.code != [] && g.code[|g.code| - 1].RETURN?
    && JumpsWithin(g.code[..|g.code| - 1], |g.code| - 1)
    && g.nactvar <= g.maxstack < MAXSTACK
  }

  lemma LastReturn(g: Gen)
    requires GenOK(g) && !g.err && Sound(g, g.jpc + [])
    ensures Closed(Emit(g, RETURN(0, 1)))
  {
    hide AllArgsOK, Sized, Emit, GenOK, JumpsWithin;
    EmitSound(g, RETURN(0, 1), []);
    EmittedLast(g, RETURN(0, 1));
  }

  /** Before the last instruction all jumps go at most to it. */
  lemma EmittedLast(g: Gen, i: Instr)
    requires GenOK(g) && !g.err
    ensures var g' := Emit(g, i);
            && |g'.code| == |g.code| + 1 && g'.code[|g.code|] == i
            && JumpsWithin(g'.code[..|g.code|], |g.code|)
            && g'.nactvar <= g'.maxstack < MAXSTACK
  {
    hide NilRanges, NoDup, Opens, Patch;
    SettledOK(g);
    var c := Settled(g);
    assert Emit(g, i).code[..|g.code|] == c;
    forall n | 0 <= n < |c|
      ensures JumpWithin(c, |c|, n)
    {
      assert JumpWithin(c, g.lasttarget, n);
    }
  }

  lemma ClosedChecks(g: Gen)
    requires Closed(g)
    ensures CheckCode(g.code, g.k, g.maxstack, g.nactvar)
  {
    var body := g.code[..|g.code| - 1];
    forall pc | 0 <= pc < |g.code|
      ensures CheckArgs(g.code[pc], g.k, g.maxstack) && CheckFlow(g.code, pc)
    {
      assert ArgsOK(g.code, g.k, g.maxstack, pc);
      if pc < |body| { assert JumpWithin(body, |body|, pc); }
    }
  }

  lemma ClosedEncodable(g: Gen)
    requires Closed(g) && !g.err
    ensures forall pc :: 0 <= pc < |g.code| ==> Encodable(g.code[pc])
  {
    hide JumpsWithin;
    forall pc | 0 <= pc < |g.code|
      ensures Encodable(g.code[pc])
    {
      assert ArgsOK(g.code, g.k, g.maxstack, pc) && Small(g.code[pc]);
    }
  }

  /** The code of every function passes the checker, whatever its body is, unless the compiler
      reported an error; and no jump is left open in it. */
  lemma FunctionChecked(b: Block, nactvar: nat)
    requires ScopedBlock(b, nactvar) && !CompileFunction(b, nactvar).err
    ensures var g := CompileFunction(b, nactvar);
            CheckCode(g.code, g.k, g.maxstack, nactvar) && OPEN !in g.code
  {
    hide CompileFunction, CheckCode;
    FunctionClosed(b, nactvar);
    ClosedChecks(CompileFunction(b, nactvar));
  }

  lemma FunctionClosed(b: Block, nactvar: nat)
    requires ScopedBlock(b, nactvar) && !CompileFunction(b, nactvar).err
    ensures Closed(CompileFunction(b, nactvar)) && CompileFunction(b, nactvar).nactvar == nactvar
  {
    hide CompileBlock, Emit, Closed;
    var g0 := NewFunction(nactvar);
    assert AtStatement(g0) && Sound(g0, []);
    ReturnKeeps(CompileBlock(g0, b), RETURN(0, 1));
    BlockOK(g0, b);
    BlockSound(g0, b, []);
    LastReturn(CompileBlock(g0, b));
  }

  /** Every instruction of every compiled function fits its 32-bit word and is read back from
      it unchanged; registers stay below 250 and constants below 262143. */
  lemma FunctionEncoded(b: Block, nactvar: nat)
    requires ScopedBlock(b, nactvar) && !CompileFunction(b, nactvar).err
    ensures var g := CompileFunction(b, nactvar);
            && (forall pc :: 0 <= pc < |g.code| ==> Encodable(g.code[pc]))
            && ReadBack(g.code) && g.maxstack < 250 && |g.k| <= 262143
  {
    hide CompileFunction;
    FunctionClosed(b, nactvar);
    ClosedEncodable(CompileFunction(b, nactvar));
    CodeReadBack(CompileFunction(b, nactvar).code);
  }
}
