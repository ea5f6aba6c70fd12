/** The invariant over operands, comparisons and whole expressions. */
module LuaOperands {
  import opened LuaSource
  import opened LuaMachine
  import opened LuaCodegen
  import opened LuaOutcome
  import opened LuaRun
  import opened LuaInvariant

  lemma Exp2NextRegOK(g: Gen, e: Exp)
    requires ExpOK(g, e) && TopTemp(g, e)
    ensures var (g', e') := Exp2NextReg(g, e);
            && e' == Exp(VNonReloc(Level(g, e)), [], []) && ExpOK(g', e')
            && Keeps(g, Lists(g, e), g', g'.jpc)
            && g'.freereg == Level(g, e) + 1
            && g'.k == (if e.k.VKNum? then Pooled(g.k, Num(e.k.nval)) else g.k)
  {
    hide DischargeVars, FreeExp, ReserveReg, Exp2Reg, Level, GenOK, Untouched, From;
    DischargeVarsOK(g, e);
    DischargedLevel(g, e);
    var (g1, e1) := DischargeVars(g, e);
    FreshReg(g1, e1);
    var g2 := ReserveReg(FreeExp(g1, e1));
    Exp2RegOK(g2, e1, Level(g, e));
    var (g', e') := Exp2NextReg(g, e);
    KeepsOn(g, Lists(g, e), g1, Lists(g1, e1), g2, Lists(g2, e1));
    KeepsOn(g, Lists(g, e), g2, Lists(g2, e1), g', g'.jpc);
  }

  /** The value's own temporary is released, then a register is reserved. */
  lemma FreshReg(g: Gen, e: Exp)
    requires ExpOK(g, e) && TopTemp(g, e)
    ensures var g' := ReserveReg(FreeExp(g, e));
            && ExpOK(g', e) && Keeps(g, Lists(g, e), g', Lists(g', e))
            && FreeExp(g, e).freereg == Level(g, e) && g'.freereg == Level(g, e) + 1 && g'.k == g.k && g'.jpc == g.jpc
  {
    hide JumpsWithin, NilRanges, NoDup, Opens;
  }

  /** A finished operand: a small constant index, a local, or one new temporary at `base`. */
  ghost predicate Held(g: Gen, e: Exp, rk: nat, base: nat) {
    && e.t == [] && e.f == [] && g.nactvar <= base
    && match e.k
       case VK(i) => rk == i + BITRK && i <= MAXINDEXRK && i < |g.k| && g.freereg == base
       case VNonReloc(r) =>
         rk == r && ((r < g.nactvar && g.freereg == base) || (r == base && g.freereg == base + 1))
       case _ => false
  }

  /** The three ways of `luaK_exp2anyreg`. */
  lemma AnyRegCases(g: Gen, e: Exp)
    ensures Exp2AnyReg(g, e) ==
            if (e.k.VLocal? || e.k.VNonReloc?) && !HasJumps(e) then (g, Exp(VNonReloc(e.k.reg), [], []))
            else if e.k.VNonReloc? && e.k.reg >= g.nactvar then Exp2Reg(g, e, e.k.reg)
            else if e.k.VLocal? && e.k.reg >= g.nactvar then Exp2Reg(g, e.(k := VNonReloc(e.k.reg)), e.k.reg)
            else Exp2NextReg(g, e)
  {
    hide Exp2Reg, Emit;
  }

  lemma Exp2AnyRegOK(g: Gen, e: Exp)
    requires ExpOK(g, e) && TopTemp(g, e)
    ensures var (g', e') := Exp2AnyReg(g, e);
            && ExpOK(g', e') && e'.k.VNonReloc? && Held(g', e', e'.k.reg, Level(g, e))
            && Keeps(g, Lists(g, e), g', g'.jpc)
            && g'.k == (if e.k.VKNum? then Pooled(g.k, Num(e.k.nval)) else g.k)
            && ((e.k.VLocal? || e.k.VNonReloc?) && !HasJumps(e) ==> g' == g && e' == Exp(VNonReloc(e.k.reg), [], []))
            && (NoTemp(g, e) && !((e.k.VLocal? || e.k.VNonReloc?) && !HasJumps(e)) ==> Exp2AnyReg(g, e) == Exp2NextReg(g, e))
  {
    hide Exp2AnyReg, Exp2NextReg, Exp2Reg, JumpsWithin, NilRanges, NoDup, Opens;
    AnyRegCases(g, e);
    if (e.k.VLocal? || e.k.VNonReloc?) && !HasJumps(e) {
    } else if e.k.VNonReloc? && e.k.reg >= g.nactvar {
      Exp2RegOK(g, e, e.k.reg);
    } else {
      Exp2NextRegOK(g, e);
    }
  }

  /** The constants added for an operand. */
  function OperandK(e: Exp, ks: seq<Value>): seq<Value> {
    match e.k
    case VKNum(n) => Pooled(ks, Num(n))
    case VNil => if !HasJumps(e) && |ks| <= MAXINDEXRK then Pooled(ks, Nil) else ks
    case VTrue => if !HasJumps(e) && |ks| <= MAXINDEXRK then Pooled(ks, Bool(true)) else ks
    case VFalse => if !HasJumps(e) && |ks| <= MAXINDEXRK then Pooled(ks, Bool(false)) else ks
    case _ => ks
  }

  /** An operand that needs no instruction. */
  predicate Inline(e: Exp, ks: seq<Value>) {
    !HasJumps(e) &&
    match e.k
    case VKNum(_) => |ks| <= MAXINDEXRK
    case VNil => |ks| <= MAXINDEXRK
    case VTrue => |ks| <= MAXINDEXRK
    case VFalse => |ks| <= MAXINDEXRK
    case VK(i) => i <= MAXINDEXRK
    case _ => false
  }

  function InlineValue(e: Exp): Value
    requires e.k.VKNum? || e.k.VNil? || e.k.VTrue? || e.k.VFalse?
  {
    match e.k
    case VKNum(n) => Num(n)
    case VNil => Nil
    case VTrue => Bool(true)
    case VFalse => Bool(false)
  }

  /** What `Exp2RK` does: nothing but a constant for an inline operand, else a register. */
  lemma Exp2RKCases(g: Gen, e: Exp)
    ensures var (g', e', rk) := Exp2RK(g, e);
            if Inline(e, g.k) then
              if e.k.VK? then g' == g && e' == e && rk == e.k.info + BITRK
              else
                var (h, i) := AddK(g, InlineValue(e));
                g' == h && e' == e.(k := VK(i)) && rk == i + BITRK
            else
              (g', e') == Exp2AnyReg(g, e) && e'.k.VNonReloc? && rk == e'.k.reg
  {
    hide Exp2AnyReg, Exp2NextReg, Exp2Reg, Emit;
    AnyRegKind(g, e);
    var (g1, e1) := Exp2Val(g, e);
    if HasJumps(e) {
      AnyRegKind(g1, e1);
    } else {
      DischargedOnce(g, e);
    }
  }

  /** The value is in a register, and asking again changes nothing. */
  lemma AnyRegKind(g: Gen, e: Exp)
    ensures var (g', e') := Exp2AnyReg(g, e);
            e'.k.VNonReloc? && !HasJumps(e') && Exp2AnyReg(g', e') == (g', e')
  {
    hide Exp2Reg;
    var (g1, e1) := DischargeVars(g, e);
    Exp2RegKind(g1, e1, if e1.k.VNonReloc? then e1.k.reg else 0);
    var (g2, e2) := DischargeVars(g1, e1);
    Exp2RegKind(ReserveReg(FreeExp(g2, e2)), e2, FreeExp(g2, e2).freereg);
  }

  lemma Exp2RegKind(g: Gen, e: Exp, reg: nat)
    ensures Exp2Reg(g, e, reg).1 == Exp(VNonReloc(reg), [], [])
  {
  }

  lemma DischargedOnce(g: Gen, e: Exp)
    ensures var (g1, e1) := DischargeVars(g, e);
            DischargeVars(g1, e1) == (g1, e1) && Exp2AnyReg(g1, e1) == Exp2AnyReg(g, e)
  {
    hide Exp2NextReg, Exp2Reg, Emit;
  }

  lemma Exp2RKOK(g: Gen, e: Exp)
    requires ExpOK(g, e) && TopTemp(g, e)
    ensures var (g', e', rk) := Exp2RK(g, e);
            && ExpOK(g', e') && Held(g', e', rk, Level(g, e))
            && Keeps(g, Lists(g, e), g', g'.jpc)
            && g'.k == OperandK(e, g.k)
  {
    Exp2RKCases(g, e);
    if Inline(e, g.k) {
      if !e.k.VK? { AddKOK(g, InlineValue(e)); }
    } else {
      Exp2AnyRegOK(g, e);
    }
  }

  /** Asking again for a held operand changes nothing. */
  lemma HeldAgain(g: Gen, e: Exp, rk: nat, base: nat, level: nat)
    requires Held(g.(freereg := level), e, rk, base)
    ensures Exp2RK(g, e) == (g, e, rk)
  {
  }

  /** Both operands of a comparison are released. */
  lemma FreeOperands(g: Gen, e1: Exp, rk1: nat, e2: Exp, rk2: nat, base: nat, mid: nat)
    requires Held(g.(freereg := mid), e1, rk1, base) && Held(g, e2, rk2, mid)
    requires g.freereg <= BITRK
    ensures FreeExp(FreeExp(g, e2), e1) == g.(freereg := base)
  {
  }

  function CompareInstr(op: CmpOp, cond: bool, o1: nat, o2: nat): (i: Instr)
    ensures i.CMP?
  {
    if !cond && op != CmpEq then CMP(op, true, o2, o1) else CMP(op, cond, o1, o2)
  }

  /** `codecomp` once its first operand is held. */
  lemma CompareUnfolded(g: Gen, op: CmpOp, cond: bool, e1: Exp, rk1: nat, e2: Exp)
    requires Exp2RK(g, e1) == (g, e1, rk1)
    ensures var (g2, e2', o2) := Exp2RK(g, e2);
            var r := CodeComp(g, op, cond, e1, e2);
            && r.0 == CondJump(FreeExp(FreeExp(g2, e2'), e1), CompareInstr(op, cond, rk1, o2)).0
            && r.1 == Exp(VJmp(|r.0.code| - 1), e1.t, e1.f)
            && (g2.err ==> r.0.err)
  {
    hide Exp2RK, CondJump, FreeExp;
  }

  lemma CodeCompOK(g: Gen, op: CmpOp, cond: bool, e1: Exp, rk1: nat, base: nat, e2: Exp)
    requires ExpOK(g, e2) && TopTemp(g, e2) && Held(g.(freereg := Level(g, e2)), e1, rk1, base)
    requires !CodeComp(g, op, cond, e1, e2).0.err
    ensures var (g', e') := CodeComp(g, op, cond, e1, e2);
            var (g2, e2', rk2) := Exp2RK(g, e2);
            && (g', [|g'.code| - 1]) == CondJump(g2.(freereg := base), CompareInstr(op, cond, rk1, rk2))
            && e' == Exp(VJmp(|g'.code| - 1), [], [])
            && ExpOK(g', e') && Keeps(g, Lists(g, e2), g', Lists(g', e'))
            && g'.freereg == base && g'.k == OperandK(e2, g.k)
            && |g.code| <= CoreLen(g', e')
  {
    hide Exp2RK, CodeComp, CondJump, FreeExp, Level, CompareInstr, OpenAlike, NilRanges, JumpsWithin, NoDup;
    HeldAgain(g, e1, rk1, base, Level(g, e2));
    Exp2RKOK(g, e2);
    var (g2, e2', rk2) := Exp2RK(g, e2);
    CompareUnfolded(g, op, cond, e1, rk1, e2);
    FreeOperands(g2, e1, rk1, e2', rk2, base, Level(g, e2));
    var g3 := g2.(freereg := base);
    CompareOK(g3, CompareInstr(op, cond, rk1, rk2));
    var (g', e') := CodeComp(g, op, cond, e1, e2);
    KeepsOn(g, Lists(g, e2), g3, g3.jpc, g', Lists(g', e'));
  }

  lemma CompareOK(g: Gen, i: Instr)
    requires GenOK(g) && i.CMP?
    ensures var (g', l) := CondJump(g, i);
            var e' := Exp(VJmp(|g'.code| - 1), [], []);
            && l == [|g'.code| - 1] && |g'.code| == |g.code| + 2
            && ExpOK(g', e') && Keeps(g, g.jpc, g', Lists(g', e'))
            && g'.freereg == g.freereg && g'.k == g.k
  {
    CondJumpOK(g, i);
  }

  predicate ConstantValue(k: Kind) {
    k.VKNum? || k.VNil? || k.VTrue? || k.VFalse?
  }

  /** The operand as a number: from 256 on it is a constant, within the 9 bits of its field, and
      below it is a register. */
  lemma OperandNumber(g: Gen, e: Exp)
    requires ExpOK(g, e) && TopTemp(g, e) && !Exp2RK(g, e).0.err
    ensures var (g', e', rk) := Exp2RK(g, e);
            if Inline(e, g.k) then
              && 256 <= rk <= 511 && rk - 256 < |g'.k|
              && g'.k[rk - 256] == if e.k.VK? then g.k[e.k.info] else InlineValue(e)
            else rk < 250 && e'.k == VNonReloc(rk)
    ensures Inline(e, g.k) <==>
              !HasJumps(e) && (if e.k.VK? then e.k.info <= 255 else ConstantValue(e.k) && |g.k| <= 255)
  {
    hide Exp2RK, Exp2AnyReg, AddK, JumpsWithin, NilRanges, NoDup, Opens;
    Exp2RKCases(g, e);
    Exp2RKOK(g, e);
    if Inline(e, g.k) && !e.k.VK? { AddKOK(g, InlineValue(e)); }
  }

  // ---------- whole expressions ----------

  /** Everything about a compiled expression that does not depend on running it. */
  ghost predicate Compiled(g: Gen, s: Expr, g': Gen, e': Exp) {
    && ExpOK(g', e') && NoTemp(g', e') && Shaped(g', e', ShapeOf(s))
    && Keeps(g, g.jpc, g', Lists(g', e'))
    && g'.freereg == g.freereg && g'.k == Pool(s, g.k)
    && (e'.t == [] <==> !HasT(s)) && (e'.f == [] <==> !HasF(s))
    && |g.code| <= CoreLen(g', e')
  }

  lemma DischargeVarsCompiled(g: Gen, s: Expr, g1: Gen, e1: Exp)
    requires Compiled(g, s, g1, e1)
    ensures var (g', e') := DischargeVars(g1, e1); Compiled(g, s, g', e')
  {
    hide OpenAlike, From, JumpsWithin, NilRanges, NoDup, Opens;
    DischargeVarsOK(g1, e1);
    var (g', e') := DischargeVars(g1, e1);
    KeepsOn(g, g.jpc, g1, Lists(g1, e1), g', Lists(g', e'));
  }

  lemma NotCompiled(g: Gen, s: Expr, g1: Gen, e1: Exp)
    requires Compiled(g, s, g1, e1) && !CodeNot(g1, e1).0.err
    ensures var (g', e') := CodeNot(g1, e1); Compiled(g, ENot(s), g', e')
  {
    hide Level, JumpsWithin, NilRanges, NoDup, Opens;
    NoTempLevel(g1, e1);
    CodeNotOK(g1, e1);
    var (g', e') := CodeNot(g1, e1);
    KeepsOn(g, g.jpc, g1, Lists(g1, e1), g', Lists(g', e'));
    NotShaped(g1, e1, ShapeOf(s));
  }

  lemma NotShaped(g: Gen, e: Exp, sh: Shape)
    requires ExpOK(g, e) && NoTemp(g, e) && Shaped(g, e, sh) && !CodeNot(g, e).0.err
    ensures var (g', e') := CodeNot(g, e); Shaped(g', e', NotShape(sh))
    ensures var (g', e') := CodeNot(g, e); |g.code| <= CoreLen(g', e') + (if e.k.VReloc? then 1 else if e.k.VJmp? then 2 else 0)
    ensures var (g', e') := CodeNot(g, e); CoreLen(g, e) <= CoreLen(g', e')
  {
    hide Negate, RemoveValues, GenOK, JumpList, Apart, Level, OpenAlike, From;
    DischargeVarsOK(g, e);
    DischargedLevel(g, e);
    var (g0, e0) := DischargeVars(g, e);
    NegateShaped(g0, e0, sh);
    NegateOK(g0, e0);
    var (g1, k1) := Negate(g0, e0);
    RemovedKeepsLast(g1, e0.(k := k1));
  }

  lemma NegateShaped(g: Gen, e: Exp, sh: Shape)
    requires ExpOK(g, e) && NoTemp(g, e) && Shaped(g, e, sh) && !e.k.VGlobal? && !e.k.VLocal?
    ensures var (g', k') := Negate(g, e);
            && Shaped(g', e.(k := k'), NotShape(sh))
            && |g.code| <= CoreLen(g', e.(k := k')) + (if e.k.VReloc? then 1 else if e.k.VJmp? then 2 else 0)
            && CoreLen(g, e) <= CoreLen(g', e.(k := k'))
  {
    hide GenOK, JumpList, Apart;
  }

  lemma RemovedKeepsLast(g: Gen, e: Exp)
    requires ExpOK(g, e)
    ensures var c := RemoveValues(RemoveValues(g.code, e.t), e.f);
            |c| == |g.code| && (e.k.VReloc? ==> (c[e.k.pc].NOT? <==> g.code[e.k.pc].NOT?))
  {
    hide JumpsWithin, NilRanges, NoDup, Opens;
  }

  /** The exits of the first operand join those of the second. */
  lemma Joined(g: Gen, s: Expr, g2: Gen, out: seq<nat>, b: Expr, g3: Gen, eb: Exp, g': Gen, e': Exp)
    requires GenOK(g2) && JumpList(g2.code, out) && Apart(g2.jpc, out)
    requires Keeps(g, g.jpc, g2, g2.jpc + out) && g2.freereg == g.freereg && |g.code| <= |g2.code|
    requires Compiled(g2, b, g3, eb)
    requires g' == g3.(err := g'.err) && (g3.err ==> g'.err)
    requires e'.k == eb.k && ShapeOf(s) == ShapeOf(b) && Pool(s, g.k) == Pool(b, g2.k)
    requires || (e'.t == eb.t && e'.f == eb.f + out && (HasT(s) <==> HasT(b)) && (HasF(s) <==> HasF(b) || out != []))
             || (e'.f == eb.f && e'.t == eb.t + out && (HasF(s) <==> HasF(b)) && (HasT(s) <==> HasT(b) || out != []))
    ensures Compiled(g, s, g', e')
  {
    hide JumpsWithin;
    ListKept(g2.code, g3.code, g2.jpc, out);
    OutsideLists(g2, out, g3, Lists(g3, eb));
    JoinedExp(g3, eb, out, g', e');
    JoinedKeeps(g, g2, out, g3, Lists(g3, eb), g', Lists(g', e'));
  }

  lemma OutsideLists(g2: Gen, out: seq<nat>, g3: Gen, l3: seq<nat>)
    requires JumpList(g2.code, out) && Apart(g2.jpc, out) && Keeps(g2, g2.jpc, g3, l3)
    ensures Apart(l3, out)
  {
  }

  lemma JoinedExp(g: Gen, e: Exp, out: seq<nat>, g': Gen, e': Exp)
    requires ExpOK(g, e) && NoTemp(g, e) && JumpList(g.code, out) && Apart(Lists(g, e), out)
    requires g' == g.(err := g'.err) && (g.err ==> g'.err)
    requires e'.k == e.k
    requires (e'.t == e.t && e'.f == e.f + out) || (e'.f == e.f && e'.t == e.t + out)
    ensures ExpOK(g', e') && NoTemp(g', e')
    ensures forall j :: j in Lists(g', e') ==> j in Lists(g, e) || j in out
  {
    if e'.t == e.t { JoinedList(g.code, e.f, out); } else { JoinedList(g.code, e.t, out); }
  }

  lemma JoinedKeeps(g: Gen, g2: Gen, out: seq<nat>, g3: Gen, l3: seq<nat>, g': Gen, l': seq<nat>)
    requires Keeps(g, g.jpc, g2, g2.jpc + out)
    requires Keeps(g2, g2.jpc, g3, l3)
    requires g' == g3.(err := g'.err) && (g3.err ==> g'.err)
    requires forall j :: j in l' ==> j in l3 || j in out
    ensures Keeps(g, g.jpc, g', l')
  {
    forall j | 0 <= j < |g.code| && g.code[j] == OPEN && j !in g.jpc
      ensures OpenAlike(g.code, g3.code, j)
    {
      assert OpenAlike(g.code, g2.code, j);
      assert OpenAlike(g2.code, g3.code, j);
    }
  }

  lemma {:induction false} CompileOK(g: Gen, s: Expr)
    requires GenOK(g) && Scoped(s, g.nactvar) && !Compile(g, s).0.err
    ensures var (g', e') := Compile(g, s); Compiled(g, s, g', e')
    decreases s
  {
    hide GenOK, Compiled, GoIfTrue, GoIfFalse, Exp2RK, CodeNot, JoinAnd, JoinOr, CodeComp, DischargeVars;
    match s
    case EParen(e) =>
      CompileOK(g, e);
      var (g1, e1) := Compile(g, e);
      DischargeVarsCompiled(g, e, g1, e1);
      SameCompiled(g, e, s, DischargeVars(g1, e1).0, DischargeVars(g1, e1).1);
    case ENot(e) =>
      CompileOK(g, e);
      var (g1, e1) := Compile(g, e);
      NotCompiled(g, e, g1, e1);
    case EAnd(a, b) =>
      var (g1, ea) := Compile(g, a);
      var (g2, ea') := GoIfTrue(g1, ea);
      CompileOK(g, a);
      OperandReady(g, a, g1, ea);
      CompileOK(g2, b);
      AndCompiled(g, a, g1, ea, b, Compile(g2, b).0, Compile(g2, b).1);
    case EOr(a, b) =>
      var (g1, ea) := Compile(g, a);
      var (g2, ea') := GoIfFalse(g1, ea);
      CompileOK(g, a);
      OperandReady(g, a, g1, ea);
      CompileOK(g2, b);
      OrCompiled(g, a, g1, ea, b, Compile(g2, b).0, Compile(g2, b).1);
    case ERel(op, a, b) =>
      var (g1, ea) := Compile(g, a);
      var (g2, ea', rk) := Exp2RK(g1, ea);
      CompileOK(g, a);
      OperandReady(g, a, g1, ea);
      CompileOK(g2, b);
      RelCompiled(g, op, a, g1, ea, b, Compile(g2, b).0, Compile(g2, b).1);
    case _ => LeafCompiled(g, s);
  }

  predicate Leaf(s: Expr) {
    !s.EParen? && !s.ENot? && !s.EAnd? && !s.EOr? && !s.ERel?
  }

  lemma LeafCompiled(g: Gen, s: Expr)
    requires GenOK(g) && Scoped(s, g.nactvar) && Leaf(s)
    ensures var (g', e') := Compile(g, s); Compiled(g, s, g', e')
  {
    match s
    case EStr(str) => NamedCompiled(g, s, str);
    case EGlobal(name) => NamedCompiled(g, s, name);
    case _ => ValueCompiled(g, s);
  }

  lemma NamedCompiled(g: Gen, s: Expr, name: string)
    requires GenOK(g) && (s == EStr(name) || s == EGlobal(name))
    ensures var (g', e') := Compile(g, s); Compiled(g, s, g', e')
  {
    hide Compiled, GenOK, AddK, Pooled;
    AddKOK(g, Str(name));
    FreshExp(g, s, Compile(g, s).0, Compile(g, s).1.k);
  }

  lemma ValueCompiled(g: Gen, s: Expr)
    requires GenOK(g) && Scoped(s, g.nactvar) && Leaf(s) && !s.EStr? && !s.EGlobal?
    ensures var (g', e') := Compile(g, s); Compiled(g, s, g', e')
  {
    hide Compiled, GenOK;
    FreshExp(g, s, g, Compile(g, s).1.k);
  }

  lemma FreshExp(g: Gen, s: Expr, g': Gen, k: Kind)
    requires GenOK(g) && GenOK(g') && g' == g.(k := g'.k, err := g'.err) && g.k <= g'.k && (g.err ==> g'.err)
    requires KindOK(g', Exp(k, [], [])) && !k.VJmp? && !k.VReloc? && !k.VNonReloc? && Leaf(s)
    requires Shaped(g', Exp(k, [], []), ShapeOf(s)) && g'.k == Pool(s, g.k)
    ensures Compiled(g, s, g', Exp(k, [], []))
  {
    hide GenOK;
  }

  lemma SameCompiled(g: Gen, e: Expr, s: Expr, g': Gen, e': Exp)
    requires Compiled(g, e, g', e') && s == EParen(e)
    ensures Compiled(g, s, g', e')
  {
  }

  /** Whatever operator follows, the state is sound before the second operand. */
  lemma OperandReady(g: Gen, s: Expr, g1: Gen, e1: Exp)
    requires Compiled(g, s, g1, e1)
    ensures !GoIfTrue(g1, e1).0.err ==> GenOK(GoIfTrue(g1, e1).0) && GoIfTrue(g1, e1).0.nactvar == g.nactvar
    ensures !GoIfFalse(g1, e1).0.err ==> GenOK(GoIfFalse(g1, e1).0) && GoIfFalse(g1, e1).0.nactvar == g.nactvar
    ensures GenOK(Exp2RK(g1, e1).0) && Exp2RK(g1, e1).0.nactvar == g.nactvar
  {
    hide GoIfTrue, GoIfFalse, Exp2RK;
    if !GoIfTrue(g1, e1).0.err { GoIfTrueOK(g1, e1); }
    if !GoIfFalse(g1, e1).0.err { GoIfFalseOK(g1, e1); }
    Exp2RKOK(g1, e1);
  }

  lemma AndCompiled(g: Gen, a: Expr, g1: Gen, ea: Exp, b: Expr, g3: Gen, eb: Exp)
    requires Compiled(g, a, g1, ea) && !GoIfTrue(g1, ea).0.err
    requires Compiled(GoIfTrue(g1, ea).0, b, g3, eb)
    ensures var (g', e') := JoinAnd(g3, GoIfTrue(g1, ea).1, eb); Compiled(g, EAnd(a, b), g', e')
  {
    hide GoIfTrue, Level, JumpsWithin, NilRanges, NoDup, Opens, KindOK;
    var (g2, ea') := GoIfTrue(g1, ea);
    NoTempLevel(g1, ea);
    GoIfTrueOK(g1, ea);
    KeepsOn(g, g.jpc, g1, Lists(g1, ea), g2, g2.jpc + ea'.f);
    DischargeVarsCompiled(g2, b, g3, eb);
    var (g4, eb') := DischargeVars(g3, eb);
    var (g', e') := JoinAnd(g3, ea', eb);
    Joined(g, EAnd(a, b), g2, ea'.f, b, g4, eb', g', e');
  }

  lemma OrCompiled(g: Gen, a: Expr, g1: Gen, ea: Exp, b: Expr, g3: Gen, eb: Exp)
    requires Compiled(g, a, g1, ea) && !GoIfFalse(g1, ea).0.err
    requires Compiled(GoIfFalse(g1, ea).0, b, g3, eb)
    ensures var (g', e') := JoinOr(g3, GoIfFalse(g1, ea).1, eb); Compiled(g, EOr(a, b), g', e')
  {
    hide GoIfFalse, DischargeVars, Level, GenOK, ExpOK, JumpList, From, OpenAlike;
    var (g2, ea') := GoIfFalse(g1, ea);
    NoTempLevel(g1, ea);
    GoIfFalseOK(g1, ea);
    KeepsOn(g, g.jpc, g1, Lists(g1, ea), g2, g2.jpc + ea'.t);
    DischargeVarsCompiled(g2, b, g3, eb);
    var (g4, eb') := DischargeVars(g3, eb);
    var (g', e') := JoinOr(g3, ea', eb);
    assert Pool(EOr(a, b), g.k) == Pool(b, g2.k);
    Joined(g, EOr(a, b), g2, ea'.t, b, g4, eb', g', e');
  }

  lemma RelCompiled(g: Gen, op: RelOp, a: Expr, g1: Gen, ea: Exp, b: Expr, g3: Gen, eb: Exp)
    requires Compiled(g, a, g1, ea) && Compiled(Exp2RK(g1, ea).0, b, g3, eb)
    requires !CodeComp(g3, OpcodeOf(op), Direct(op), Exp2RK(g1, ea).1, eb).0.err
    ensures var (g', e') := CodeComp(g3, OpcodeOf(op), Direct(op), Exp2RK(g1, ea).1, eb);
            Compiled(g, ERel(op, a, b), g', e')
  {
    hide Exp2RK, CodeComp, Level, GenOK, JumpList, Apart, Held, KindOK, From, OpenAlike, Pool, OperandK;
    var (g2, ea', rk) := Exp2RK(g1, ea);
    NoTempLevel(g1, ea);
    Exp2RKOK(g1, ea);
    KeepsOn(g, g.jpc, g1, Lists(g1, ea), g2, g2.jpc);
    KeepsOn(g, g.jpc, g2, g2.jpc, g3, Lists(g3, eb));
    HeldLater(g2, ea', rk, g.freereg, g3);
    RelPool(op, a, g1, ea, b, g3, eb, g.k);
    ComparedKeeps(g, g3, op, ea', rk, eb);
  }

  lemma RelPool(op: RelOp, a: Expr, g1: Gen, ea: Exp, b: Expr, g3: Gen, eb: Exp, ks: seq<Value>)
    requires Shaped(g1, ea, ShapeOf(a)) && (ea.t == [] <==> !HasT(a)) && (ea.f == [] <==> !HasF(a))
    requires Shaped(g3, eb, ShapeOf(b)) && (eb.t == [] <==> !HasT(b)) && (eb.f == [] <==> !HasF(b))
    requires g1.k == Pool(a, ks) && g3.k == Pool(b, OperandK(ea, g1.k))
    ensures OperandK(eb, g3.k) == Pool(ERel(op, a, b), ks)
  {
    hide OperandPool, OperandK;
    OperandPooled(g1, ea, a);
    OperandPooled(g3, eb, b);
  }

  lemma ComparedKeeps(g: Gen, g3: Gen, op: RelOp, e1: Exp, rk: nat, e2: Exp)
    requires ExpOK(g3, e2) && NoTemp(g3, e2) && Held(g3, e1, rk, g.freereg) && |g.code| <= CoreLen(g3, e2)
    requires !CodeComp(g3, OpcodeOf(op), Direct(op), e1, e2).0.err
    requires Keeps(g, g.jpc, g3, Lists(g3, e2))
    ensures var (g', e') := CodeComp(g3, OpcodeOf(op), Direct(op), e1, e2);
            && ExpOK(g', e') && e'.k.VJmp? && e'.t == [] && e'.f == []
            && Keeps(g, g.jpc, g', Lists(g', e')) && g'.freereg == g.freereg && g'.k == OperandK(e2, g3.k)
            && |g.code| <= CoreLen(g', e')
  {
    hide Emit, Exp2RK, CodeComp, CondJump, Level, GenOK, JumpList, Apart, Held;
    NoTempLevel(g3, e2);
    CodeCompOK(g3, OpcodeOf(op), Direct(op), e1, rk, g.freereg, e2);
    var (g', e') := CodeComp(g3, OpcodeOf(op), Direct(op), e1, e2);
    KeepsOn(g, g.jpc, g3, Lists(g3, e2), g', Lists(g', e'));
  }

  lemma HeldLater(g: Gen, e: Exp, rk: nat, base: nat, g': Gen)
    requires Held(g, e, rk, base) && g'.freereg == g.freereg && g'.nactvar == g.nactvar && g.k <= g'.k
    ensures Held(g', e, rk, base)
  {
  }

  lemma OperandPooled(g: Gen, e: Exp, s: Expr)
    requires Shaped(g, e, ShapeOf(s)) && (e.t == [] <==> !HasT(s)) && (e.f == [] <==> !HasF(s))
    ensures OperandK(e, g.k) == OperandPool(s, g.k)
  {
  }
}
