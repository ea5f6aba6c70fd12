/** What the code generator does without: instructions it merges, takes back or never emits. */
module LuaEconomy {
  import opened LuaSource
  import opened LuaMachine
  import opened LuaCodegen
  import opened LuaRun
  import opened LuaInvariant
  import opened LuaOperands
  import opened LuaProgram

  /** Nil for a second register in a row takes no second instruction, and none at all at the
      start of a function. */
  lemma NilsMerge(g: Gen, reg: nat)
    requires GenOK(g)
    ensures var g1 := LoadNil(g, reg);
            && |LoadNil(g1, reg + 1).code| == |g1.code|
            && |g1.code| <= |g.code| + 1
            && (g.code == [] && g.lasttarget < 0 && reg >= g.nactvar ==> g1.code == [])
  {
    hide JumpsWithin, NilRanges, NoDup, Opens, Patch;
  }

  /** A test of a negated value takes the OP_NOT back: one instruction and its jump in place of
      it. */
  lemma NotFolded(g: Gen, e: Exp, cond: bool)
    requires e.k.VReloc? && e.k.pc == |g.code| - 1 && g.code[e.k.pc].NOT?
    ensures var (g', l) := JumpOnCond(g, e, cond);
            && |g'.code| == |g.code| + 1
            && g'.code[|g.code| - 1] == TEST(g.code[e.k.pc].b, !cond) && g'.code[|g.code|] == OPEN
  {
    hide Patch;
  }

  /** A constant decides a branch without a test: at most one jump is emitted. */
  lemma ConstantsDecide(g: Gen, e: Exp)
    requires !HasJumps(e) && (ConstantValue(e.k) || e.k.VK?)
    ensures !e.k.VNil? ==> |GoIfTrue(g, e).0.code| == |g.code| + if e.k.VFalse? then 1 else 0
    ensures (e.k.VTrue? ==> |GoIfFalse(g, e).0.code| == |g.code| + 1)
         && (e.k.VNil? || e.k.VFalse? ==> |GoIfFalse(g, e).0.code| == |g.code|)
    ensures CodeNot(g, e).0.code == g.code
         && CodeNot(g, e).1.k == if e.k.VNil? || e.k.VFalse? then VTrue else VFalse
  {
    hide Discharge2Reg, CondJump;
    NothingRemoved(g.code);
  }

  lemma NothingRemoved(c: Code)
    ensures RemoveValues(c, []) == c
  {
  }

  /** A condition `nil` is compiled as `false` is. */
  lemma NilCondition(g: Gen)
    ensures CompileCond(g, ENil) == CompileCond(g, EFalse)
    ensures |CompileCond(g, ENil).0.code| == |g.code| + 1
  {
  }

  /** A local variable is compared, tested and returned where it is. */
  lemma LocalInPlace(g: Gen, r: nat)
    ensures Exp2RK(g, Exp(VLocal(r), [], [])) == (g, Exp(VNonReloc(r), [], []), r)
    ensures Exp2AnyReg(g, Exp(VLocal(r), [], [])) == (g, Exp(VNonReloc(r), [], []))
    ensures var (g', l) := JumpOnCond(g, Exp(VLocal(r), [], []).(k := VNonReloc(r)), true);
            && |g'.code| == |g.code| + 2
            && g'.code[|g.code|] == TESTSET(255, r, true) && g'.code[|g.code| + 1] == JMP(-1)
  {
    hide Patch;
  }

  /** A TESTSET that would store a register into itself becomes a TEST. */
  lemma NoIdleStore(c: Code, list: seq<nat>, vtarget: nat, reg: nat, dtarget: nat, j: nat)
    requires Opens(c, list) && j in list && Guarded(c, j)
    ensures var c' := Patch(c, list, vtarget, reg, dtarget);
            if reg == c[j - 1].b || reg == NO_REG then c'[j - 1] == TEST(c[j - 1].b, c[j - 1].cond)
            else c'[j - 1] == TESTSET(reg, c[j - 1].b, c[j - 1].cond)
  {
    assert Patch(c, list, vtarget, reg, dtarget)[j - 1] == PatchedAt(c, list, vtarget, reg, dtarget, j - 1);
    assert c[j - 1] != OPEN && j - 1 !in list;
  }

  /** Registers hold nil when a function starts, and two of them are there in any case: nothing
      is emitted for the first declarations `local x = nil`, and a function that returns its
      parameter is one instruction in a frame of two registers. */
  lemma FirstInstructions(nactvar: nat, reg: nat)
    requires nactvar <= 50 && reg >= nactvar
    ensures LoadNil(NewFunction(nactvar), reg) == NewFunction(nactvar)
    ensures var g := CompileReturn(NewFunction(1), ELocal(0));
            !g.err && g.code == [RETURN(0, 2)] && g.maxstack == 2 && g.freereg == 1
  {
    LocalInPlace(NewFunction(1), 0);
  }

  /** Only the length of the code limits instructions that no jump is pending to. */
  lemma CodeLimit(g: Gen, i: Instr)
    requires g.jpc == []
    ensures Emit(g, i).err <==> g.err || |g.code| >= 2147483645
  {
    hide Patch;
  }
}
