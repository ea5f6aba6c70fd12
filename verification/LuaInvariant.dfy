/** What every operation of the code generator keeps. */
module LuaInvariant {
  import opened LuaSource
  import opened LuaMachine
  import opened LuaCodegen
  import opened LuaOutcome
  import opened LuaRun

  ghost predicate Opens(c: Code, l: seq<nat>) {
    forall j :: j in l ==> j < |c| && c[j] == OPEN
  }

  ghost predicate NoDup<T>(l: seq<T>) {
    forall i, j :: 0 <= i < j < |l| ==> l[i] != l[j]
  }

  ghost predicate Apart(l1: seq<nat>, l2: seq<nat>) {
    forall j :: j in l1 ==> j !in l2
  }

  /** A jump list: distinct jumps, all still open. */
  ghost predicate JumpList(c: Code, l: seq<nat>) {
    Opens(c, l) && NoDup(l)
  }

  ghost predicate NilRanges(c: Code) {
    forall i :: 0 <= i < |c| && c[i].LOADNIL? ==> c[i].a <= c[i].b
  }

  ghost predicate GenOK(g: Gen) {
    && JumpsWithin(g.code, g.lasttarget) && g.lasttarget <= |g.code|
    && NilRanges(g.code)
    && JumpList(g.code, g.jpc)
    && (g.jpc != [] ==> g.lasttarget == |g.code|)
    && g.nactvar <= g.freereg
    && (g.err || g.freereg <= g.maxstack < MAXSTACK)
    && NoDup(g.k)
  }

  /** The code before the last, still unfinished instruction of a relocatable expression
      or of a comparison. */
  ghost function CoreLen(g: Gen, e: Exp): int {
    match e.k
    case VReloc(_) => |g.code| - 1
    case VJmp(_) => |g.code| - 2
    case _ => |g.code|
  }

  ghost predicate NameAt(g: Gen, i: nat) {
    i < |g.k| && g.k[i].Str?
  }

  ghost predicate KindOK(g: Gen, e: Exp) {
    match e.k
    case VK(i) => i < |g.k|
    case VGlobal(i) => NameAt(g, i)
    case VLocal(r) => r < g.nactvar
    case VNonReloc(r) => r < g.freereg
    case VReloc(p) =>
      && p == |g.code| - 1 && g.jpc == [] && g.lasttarget <= p
      && (g.code[p].NOT? || (g.code[p].GETGLOBAL? && NameAt(g, g.code[p].bx)))
    case VJmp(p) =>
      && p == |g.code| - 1 && p >= 1 && g.jpc == [] && g.lasttarget <= p - 1
      && g.code[p] == OPEN && g.code[p - 1].CMP? && p !in e.t && p !in e.f
    case _ => true
  }

  ghost predicate ExpOK(g: Gen, e: Exp) {
    && GenOK(g)
    && JumpList(g.code, e.t) && JumpList(g.code, e.f)
    && Apart(g.jpc, e.t) && Apart(g.jpc, e.f) && Apart(e.t, e.f)
    && KindOK(g, e)
  }

  /** From `g` to `g'` nothing before changes but the given jumps (and their TESTSETs):
      all other open jumps stay open and guarded as they were. */
  ghost predicate Untouched(c: Code, c': Code, touched: seq<nat>) {
    && |c| <= |c'|
    && forall j :: 0 <= j < |c| && c[j] == OPEN && j !in touched ==> OpenAlike(c, c', j)
  }

  ghost predicate OpenAlike(c: Code, c': Code, j: nat)
    requires j < |c| <= |c'|
  {
    c'[j] == OPEN && (Guarded(c, j) <==> Guarded(c', j))
  }

  /** Every jump of `l'` is one of `l` or was emitted after position `n`. */
  ghost predicate From(l': seq<nat>, l: seq<nat>, n: nat) {
    forall j :: j in l' ==> j in l || j >= n
  }

  /** The descriptor has the shape the source expression predicts. */
  ghost predicate Shaped(g: Gen, e: Exp, sh: Shape) {
    match sh
    case SNil => e.k.VNil?
    case STrue => e.k.VTrue?
    case SFalse => e.k.VFalse?
    case SNum(n) => e.k == VKNum(n)
    case SStr(s) => e.k.VK? && e.k.info < |g.k| && g.k[e.k.info] == Str(s)
    case SJump => e.k.VJmp?
    case SNot => e.k.VReloc? && e.k.pc < |g.code| && g.code[e.k.pc].NOT?
    case SLocal => e.k.VLocal? || e.k.VNonReloc?
    case SReg => e.k.VGlobal? || (e.k.VReloc? && e.k.pc < |g.code| && g.code[e.k.pc].GETGLOBAL?)
  }

  // ---------- jump lists ----------

  lemma JoinedList(c: Code, l1: seq<nat>, l2: seq<nat>)
    requires JumpList(c, l1) && JumpList(c, l2) && Apart(l1, l2)
    ensures JumpList(c, l1 + l2)
  {
    forall i, j | 0 <= i < j < |l1 + l2|
      ensures (l1 + l2)[i] != (l1 + l2)[j]
    {
      if i < |l1| <= j {
        assert l1[i] in l1 && l2[j - |l1|] in l2;
      }
    }
  }

  lemma ListKept(c: Code, c': Code, touched: seq<nat>, l: seq<nat>)
    requires Untouched(c, c', touched) && JumpList(c, l) && Apart(l, touched)
    ensures JumpList(c', l)
  {
    forall j | j in l
      ensures j < |c'| && c'[j] == OPEN
    {
      assert OpenAlike(c, c', j);
    }
  }

  lemma PatchOK(c: Code, list: seq<nat>, vtarget: nat, reg: nat, dtarget: nat, low: int, limit: int)
    requires JumpsWithin(c, low) && low <= limit && NilRanges(c)
    requires Opens(c, list)
    requires vtarget <= limit && dtarget <= limit
    requires forall j :: j in list ==> j < if Guarded(c, j) then vtarget else dtarget
    ensures var c' := Patch(c, list, vtarget, reg, dtarget);
            && JumpsWithin(c', limit) && NilRanges(c') && Extends(c, c')
            && Untouched(c, c', list)
            && (forall j :: j in list ==> c'[j] == JMP((if Guarded(c, j) then vtarget else dtarget) - (j + 1)))
  {
    var c' := Patch(c, list, vtarget, reg, dtarget);
    forall i | 0 <= i < |c'|
      ensures JumpWithin(c', limit, i) && ExtendsAt(c, c', i)
    {
      assert c'[i] == PatchedAt(c, list, vtarget, reg, dtarget, i);
      assert JumpWithin(c, low, i);
      if IsTest(c[i]) {
        assert c'[i + 1] == PatchedAt(c, list, vtarget, reg, dtarget, i + 1);
      }
    }
    forall j | 0 <= j < |c| && c[j] == OPEN && j !in list
      ensures OpenAlike(c, c', j)
    {
      assert c'[j] == PatchedAt(c, list, vtarget, reg, dtarget, j);
      if j > 0 {
        assert c'[j - 1] == PatchedAt(c, list, vtarget, reg, dtarget, j - 1);
      }
    }
  }

  lemma RemoveValuesOK(c: Code, list: seq<nat>, limit: int)
    requires JumpsWithin(c, limit) && NilRanges(c)
    requires Opens(c, list)
    ensures var c' := RemoveValues(c, list);
            && JumpsWithin(c', limit) && NilRanges(c') && Extends(c, c')
            && Untouched(c, c', list)
            && (forall j :: j in list ==> c'[j] == OPEN && !Guarded(c', j))
  {
    var c' := RemoveValues(c, list);
    forall i | 0 <= i < |c'|
      ensures JumpWithin(c', limit, i) && ExtendsAt(c, c', i)
    {
      assert JumpWithin(c, limit, i);
    }
  }

  // ---------- emitting ----------

  /** The code once the pending jumps land at its end. */
  ghost function Settled(g: Gen): Code {
    Patch(g.code, g.jpc, |g.code|, NO_REG, |g.code|)
  }

  lemma SettledOK(g: Gen)
    requires GenOK(g)
    ensures JumpsWithin(Settled(g), g.lasttarget) && NilRanges(Settled(g))
    ensures Extends(g.code, Settled(g)) && Untouched(g.code, Settled(g), g.jpc)
    ensures forall j :: j in g.jpc ==> Settled(g)[j] == JMP(|g.code| - (j + 1)) && !Guarded(Settled(g), j)
  {
    PatchOK(g.code, g.jpc, |g.code|, NO_REG, |g.code|, g.lasttarget, |g.code|);
    if g.jpc == [] {
      assert Settled(g) == g.code;
    }
    forall j | j in g.jpc
      ensures !Guarded(Settled(g), j)
    {
      if j > 0 {
        assert Settled(g)[j - 1] == PatchedAt(g.code, g.jpc, |g.code|, NO_REG, |g.code|, j - 1);
      }
    }
  }

  /** Instructions that neither jump nor skip. */
  predicate Plain(i: Instr) {
    !IsTest(i) && !i.JMP? && (i.LOADBOOL? ==> !i.skip) && (i.LOADNIL? ==> i.a <= i.b)
  }

  lemma AppendWithin(c: Code, i: Instr, limit: int)
    requires JumpsWithin(c, limit) && NilRanges(c) && (Plain(i) || i == OPEN)
    ensures JumpsWithin(c + [i], limit) && NilRanges(c + [i])
  {
    forall n | 0 <= n < |c + [i]|
      ensures JumpWithin(c + [i], limit, n)
    {
      if n < |c| { assert JumpWithin(c, limit, n); }
    }
  }

  lemma EmitOK(g: Gen, i: Instr)
    requires GenOK(g) && Plain(i)
    ensures GenOK(Emit(g, i))
    ensures Untouched(g.code, Emit(g, i).code, g.jpc)
  {
    SettledOK(g);
    AppendWithin(Settled(g), i, g.lasttarget);
    forall j | 0 <= j < |g.code| && g.code[j] == OPEN && j !in g.jpc
      ensures OpenAlike(g.code, Emit(g, i).code, j)
    {
      assert OpenAlike(g.code, Settled(g), j);
    }
  }

  lemma JumpOK(g: Gen)
    requires GenOK(g)
    ensures var (g', l) := Jump(g); GenOK(g') && JumpList(g'.code, l) && Untouched(g.code, g'.code, [])
  {
    AppendWithin(g.code, OPEN, g.lasttarget);
    JoinedList(g.code + [OPEN], [|g.code|], g.jpc);
  }

  lemma CondJumpOK(g: Gen, i: Instr)
    requires GenOK(g) && IsTest(i)
    ensures var (g', l) := CondJump(g, i);
            && GenOK(g') && g'.jpc == [] && l == [|g.code| + 1]
            && |g'.code| == |g.code| + 2
            && g'.code == Settled(g) + [i, OPEN]
            && Untouched(g.code, g'.code, g.jpc)
  {
    var (g', l) := CondJump(g, i);
    SettledOK(g);
    assert g'.code == Settled(g) + [i, OPEN];
    forall n | 0 <= n < |g'.code|
      ensures JumpWithin(g'.code, g.lasttarget, n)
    {
      if n < |g.code| { assert JumpWithin(Settled(g), g.lasttarget, n); }
    }
    forall j | 0 <= j < |g.code| && g.code[j] == OPEN && j !in g.jpc
      ensures OpenAlike(g.code, g'.code, j)
    {
      assert OpenAlike(g.code, Settled(g), j);
    }
  }

  // ---------- frames ----------

  /** All jumps an expression in progress may still redirect. */
  ghost function Lists(g: Gen, e: Exp): seq<nat> {
    g.jpc + e.t + e.f + if e.k.VJmp? then [e.k.pc] else []
  }

  /** From `g` to `g'` only jumps of `l` were redirected, and the lists `l'` now in
      progress hold none but those and new ones. */
  ghost predicate Keeps(g: Gen, l: seq<nat>, g': Gen, l': seq<nat>) {
    && g'.nactvar == g.nactvar
    && Untouched(g.code, g'.code, l)
    && From(l', l, |g.code|)
    && g.k <= g'.k
    && (g.err ==> g'.err)
    && g.lasttarget <= g'.lasttarget
  }

  lemma KeepsOn(g: Gen, l: seq<nat>, g': Gen, l': seq<nat>, g'': Gen, l'': seq<nat>)
    requires Keeps(g, l, g', l') && Keeps(g', l', g'', l'')
    ensures Keeps(g, l, g'', l'')
  {
    forall j | 0 <= j < |g.code| && g.code[j] == OPEN && j !in l
      ensures OpenAlike(g.code, g''.code, j)
    {
      assert OpenAlike(g.code, g'.code, j);
      assert OpenAlike(g'.code, g''.code, j);
    }
  }

  // ---------- discharging ----------

  lemma DischargeVarsOK(g: Gen, e: Exp)
    requires ExpOK(g, e)
    ensures var (g', e') := DischargeVars(g, e);
            && ExpOK(g', e') && Keeps(g, Lists(g, e), g', Lists(g', e'))
            && g'.freereg == g.freereg && g'.k == g.k
            && e'.t == e.t && e'.f == e.f
            && |g.code| <= CoreLen(g', e') + (if e.k.VReloc? then 1 else if e.k.VJmp? then 2 else 0)
  {
    if e.k.VGlobal? {
      var i := GETGLOBAL(0, e.k.name);
      EmitOK(g, i);
      ListKept(g.code, Emit(g, i).code, g.jpc, e.t);
      ListKept(g.code, Emit(g, i).code, g.jpc, e.f);
    }
  }

  lemma LoadNilOK(g: Gen, from: nat)
    requires GenOK(g)
    ensures GenOK(LoadNil(g, from)) && Untouched(g.code, LoadNil(g, from).code, g.jpc)
    ensures LoadNil(g, from).jpc == []
  {
    var g' := LoadNil(g, from);
    var n := |g.code|;
    if g'.code == g.code {
    } else if |g'.code| > n {
      EmitOK(g, LOADNIL(from, from));
    } else {
      forall i | 0 <= i < n
        ensures JumpWithin(g'.code, g.lasttarget, i)
      {
        assert JumpWithin(g.code, g.lasttarget, i);
      }
    }
  }

  lemma AddKOK(g: Gen, v: Value)
    requires GenOK(g)
    ensures var (g', i) := AddK(g, v);
            && GenOK(g') && g' == g.(k := Pooled(g.k, v), err := g'.err)
            && g.k <= g'.k && i < |g'.k| && g'.k[i] == v
  {
    hide JumpsWithin, NilRanges, Opens;
  }

  lemma ReserveRegOK(g: Gen)
    requires GenOK(g)
    ensures GenOK(ReserveReg(g))
  {
  }

  ghost predicate InReg(g: Gen, e: Exp, reg: nat, g': Gen, e': Exp) {
    && ExpOK(g', e') && Keeps(g, Lists(g, e), g', Lists(g', e'))
    && g'.freereg == g.freereg && g'.lasttarget == g.lasttarget
    && e' == e.(k := VNonReloc(reg))
    && g'.k == (if e.k.VKNum? then Pooled(g.k, Num(e.k.nval)) else g.k)
    && (g'.jpc == [] || e.k == VNonReloc(reg) || e.k == VLocal(reg))
  }

  lemma Discharge2RegOK(g: Gen, e: Exp, reg: nat)
    requires ExpOK(g, e) && reg < g.freereg && !e.k.VJmp?
    ensures var (g', e') := Discharge2Reg(g, e, reg); InReg(g, e, reg, g', e')
  {
    hide InReg, ExpOK, Emit, LoadNil, AddK;
    match e.k
    case VNil => NilInto(g, e, reg);
    case VFalse => EmitInto(g, e, reg, LOADBOOL(reg, false, false));
    case VTrue => EmitInto(g, e, reg, LOADBOOL(reg, true, false));
    case VK(info) => EmitInto(g, e, reg, LOADK(reg, info));
    case VKNum(n) => NumInto(g, e, reg);
    case VReloc(pc) => RelocInto(g, e, reg);
    case VNonReloc(r) => if r == reg { StaysIn(g, e, reg); } else { EmitInto(g, e, reg, MOVE(reg, r)); }
    case VLocal(r) => if r == reg { StaysIn(g, e, reg); } else { EmitInto(g, e, reg, MOVE(reg, r)); }
    case VGlobal(name) => GlobalInto(g, e, reg);
  }

  lemma NilInto(g: Gen, e: Exp, reg: nat)
    requires ExpOK(g, e) && reg < g.freereg && e.k.VNil?
    ensures InReg(g, e, reg, LoadNil(g, reg), e.(k := VNonReloc(reg)))
  {
    LoadNilOK(g, reg);
    Landed(g, e, LoadNil(g, reg), reg);
  }

  lemma StaysIn(g: Gen, e: Exp, reg: nat)
    requires ExpOK(g, e) && reg < g.freereg && (e.k == VNonReloc(reg) || e.k == VLocal(reg))
    ensures InReg(g, e, reg, g, e.(k := VNonReloc(reg)))
  {
    hide JumpsWithin, NilRanges, NoDup;
  }

  lemma EmitInto(g: Gen, e: Exp, reg: nat, i: Instr)
    requires ExpOK(g, e) && reg < g.freereg && Plain(i) && !e.k.VKNum?
    ensures InReg(g, e, reg, Emit(g, i), e.(k := VNonReloc(reg)))
  {
    EmitOK(g, i);
    Landed(g, e, Emit(g, i), reg);
  }

  lemma NumInto(g: Gen, e: Exp, reg: nat)
    requires ExpOK(g, e) && reg < g.freereg && e.k.VKNum?
    ensures var (g', e') := Discharge2Reg(g, e, reg); InReg(g, e, reg, g', e')
  {
    AddKOK(g, Num(e.k.nval));
    var (g1, info) := AddK(g, Num(e.k.nval));
    EmitOK(g1, LOADK(reg, info));
    Landed(g, e, Emit(g1, LOADK(reg, info)), reg);
  }

  lemma RelocInto(g: Gen, e: Exp, reg: nat)
    requires ExpOK(g, e) && reg < g.freereg && e.k.VReloc?
    ensures var (g', e') := Discharge2Reg(g, e, reg); InReg(g, e, reg, g', e')
  {
    SetAOK(g, e, reg);
  }

  lemma GlobalInto(g: Gen, e: Exp, reg: nat)
    requires ExpOK(g, e) && reg < g.freereg && e.k.VGlobal?
    ensures var (g', e') := Discharge2Reg(g, e, reg); InReg(g, e, reg, g', e')
  {
    DischargeVarsOK(g, e);
    var (g1, e1) := DischargeVars(g, e);
    SetAOK(g1, e1, reg);
    var (g', e') := Discharge2Reg(g, e, reg);
    KeepsOn(g, Lists(g, e), g1, Lists(g1, e1), g', Lists(g', e'));
  }

  /** Once the pending jumps have landed the value is in `reg`. */
  lemma Landed(g: Gen, e: Exp, g': Gen, reg: nat)
    requires ExpOK(g, e) && GenOK(g') && g'.jpc == []
    requires Untouched(g.code, g'.code, g.jpc)
    requires g'.nactvar == g.nactvar && reg < g'.freereg && g.k <= g'.k && (g.err ==> g'.err)
    requires g.lasttarget <= g'.lasttarget
    ensures ExpOK(g', e.(k := VNonReloc(reg)))
    ensures Keeps(g, Lists(g, e), g', Lists(g', e.(k := VNonReloc(reg))))
  {
    ListKept(g.code, g'.code, g.jpc, e.t);
    ListKept(g.code, g'.code, g.jpc, e.f);
  }

  lemma SetAOK(g: Gen, e: Exp, reg: nat)
    requires ExpOK(g, e) && e.k.VReloc?
    ensures var c' := g.code[e.k.pc := SetA(g.code[e.k.pc], reg)];
            JumpsWithin(c', g.lasttarget) && NilRanges(c') && Untouched(g.code, c', [])
            && JumpList(c', e.t) && JumpList(c', e.f)
  {
    var c' := g.code[e.k.pc := SetA(g.code[e.k.pc], reg)];
    forall i | 0 <= i < |c'|
      ensures JumpWithin(c', g.lasttarget, i)
    {
      assert JumpWithin(g.code, g.lasttarget, i);
    }
    ListKept(g.code, c', [], e.t);
    ListKept(g.code, c', [], e.f);
  }

  lemma Discharge2AnyRegOK(g: Gen, e: Exp)
    requires ExpOK(g, e) && !e.k.VJmp?
    ensures var (g', e') := Discharge2AnyReg(g, e);
            && ExpOK(g', e') && Keeps(g, Lists(g, e), g', Lists(g', e'))
            && g'.freereg == (if e.k.VNonReloc? then g.freereg else g.freereg + 1)
            && e' == e.(k := VNonReloc(if e.k.VNonReloc? then e.k.reg else g.freereg))
            && g'.k == (if e.k.VKNum? then Pooled(g.k, Num(e.k.nval)) else g.k)
  {
    if !e.k.VNonReloc? {
      ReserveRegOK(g);
      var r := ReserveReg(g);
      assert ExpOK(r, e);
      Discharge2RegOK(r, e, g.freereg);
      var (g', e') := Discharge2AnyReg(g, e);
      KeepsOn(g, Lists(g, e), r, Lists(r, e), g', Lists(g', e'));
    }
  }

  // ---------- logical operators ----------

  /** An expression that owns no temporary register. */
  ghost predicate NoTemp(g: Gen, e: Exp) {
    e.k.VNonReloc? ==> e.k.reg < g.nactvar
  }

  /** A temporary register the expression owns is the last one reserved. */
  ghost predicate TopTemp(g: Gen, e: Exp) {
    e.k.VNonReloc? && e.k.reg >= g.nactvar ==> e.k.reg < BITRK && g.freereg == e.k.reg + 1
  }

  /** The register level once the expression is released. */
  ghost function Level(g: Gen, e: Exp): nat {
    FreeExp(g, e).freereg
  }

  lemma NoTempLevel(g: Gen, e: Exp)
    requires NoTemp(g, e)
    ensures TopTemp(g, e) && Level(g, e) == g.freereg
  {
  }

  lemma DischargedLevel(g: Gen, e: Exp)
    requires ExpOK(g, e) && TopTemp(g, e)
    ensures var (g', e') := DischargeVars(g, e); TopTemp(g', e') && Level(g', e') == Level(g, e)
    ensures e.k.VKNum? ==> DischargeVars(g, e) == (g, e)
    ensures !e.k.VKNum? ==> !DischargeVars(g, e).1.k.VKNum?
  {
  }

  lemma InvertJumpOK(g: Gen, e: Exp)
    requires ExpOK(g, e) && e.k.VJmp?
    ensures ExpOK(InvertJump(g, e.k.pc), e) && Untouched(g.code, InvertJump(g, e.k.pc).code, [])
  {
    var g' := InvertJump(g, e.k.pc);
    forall i | 0 <= i < |g'.code|
      ensures JumpWithin(g'.code, g.lasttarget, i)
    {
      assert JumpWithin(g.code, g.lasttarget, i);
    }
    ListKept(g.code, g'.code, [], e.t);
    ListKept(g.code, g'.code, [], e.f);
  }

  /** A conditional jump closes an expression: its own lists stay and one jump is new. */
  ghost predicate Branched(g: Gen, e: Exp, g': Gen, l: seq<nat>) {
    && GenOK(g') && g'.jpc == [] && l == [|g'.code| - 1] && |g'.code| > |g.code|
    && JumpList(g'.code, l) && JumpList(g'.code, e.t) && JumpList(g'.code, e.f)
    && Keeps(g, Lists(g, e), g', l + e.t + e.f)
    && g'.freereg == Level(g, e)
    && g'.k == (if e.k.VKNum? then Pooled(g.k, Num(e.k.nval)) else g.k)
  }

  lemma CondJumpAfter(g: Gen, e: Exp, i: Instr)
    requires ExpOK(g, e) && IsTest(i) && !e.k.VJmp?
    ensures var (g', l) := CondJump(g, i);
            && GenOK(g') && g'.jpc == [] && l == [|g'.code| - 1] && |g'.code| == |g.code| + 2
            && JumpList(g'.code, l) && JumpList(g'.code, e.t) && JumpList(g'.code, e.f)
            && Keeps(g, Lists(g, e), g', l + e.t + e.f)
  {
    CondJumpOK(g, i);
    var (g', l) := CondJump(g, i);
    ListKept(g.code, g'.code, g.jpc, e.t);
    ListKept(g.code, g'.code, g.jpc, e.f);
  }

  /** Removing the OP_NOT just emitted. */
  lemma CutOK(g: Gen, e: Exp)
    requires ExpOK(g, e) && e.k.VReloc?
    ensures var g' := g.(code := g.code[..|g.code| - 1]);
            GenOK(g') && JumpList(g'.code, e.t) && JumpList(g'.code, e.f)
  {
    var g' := g.(code := g.code[..|g.code| - 1]);
    forall i | 0 <= i < |g'.code|
      ensures JumpWithin(g'.code, g.lasttarget, i)
    {
      assert JumpWithin(g.code, g.lasttarget, i);
      if i == |g'.code| - 1 {
        assert JumpWithin(g.code, g.lasttarget, i);
        assert !g.code[i + 1].JMP?;
      }
    }
  }

  lemma JumpOnNotOK(g: Gen, e: Exp, cond: bool)
    requires ExpOK(g, e) && e.k.VReloc? && g.code[e.k.pc].NOT?
    ensures var (g', l) := JumpOnCond(g, e, cond); Branched(g, e, g', l)
  {
    CutOK(g, e);
    var h := g.(code := g.code[..|g.code| - 1]);
    var i := TEST(g.code[e.k.pc].b, !cond);
    CondJumpAfter(h, Exp(VNil, e.t, e.f), i);
    var (g', l) := JumpOnCond(g, e, cond);
    assert (g', l) == CondJump(h, i);
    forall j | 0 <= j < |g.code| && g.code[j] == OPEN && j !in Lists(g, e)
      ensures OpenAlike(g.code, g'.code, j)
    {
      assert OpenAlike(h.code, g'.code, j);
    }
  }

  lemma JumpOnCondOK(g: Gen, e: Exp, cond: bool)
    requires ExpOK(g, e) && !e.k.VJmp? && TopTemp(g, e)
    requires !JumpOnCond(g, e, cond).0.err
    ensures var (g', l) := JumpOnCond(g, e, cond); Branched(g, e, g', l)
  {
    if e.k.VReloc? && g.code[e.k.pc].NOT? {
      JumpOnNotOK(g, e, cond);
    } else {
      Discharge2AnyRegOK(g, e);
      var (g1, e1) := Discharge2AnyReg(g, e);
      var g2 := FreeExp(g1, e1);
      var i := TESTSET(NO_REG, e1.k.reg, cond);
      assert g2.freereg == Level(g, e);
      CondJumpAfter(g2, Exp(VNil, e.t, e.f), i);
      var (g', l) := JumpOnCond(g, e, cond);
      KeepsOn(g, Lists(g, e), g2, Lists(g2, Exp(VNil, e.t, e.f)), g', l + e.t + e.f);
    }
  }

  lemma HereOK(g: Gen, list: seq<nat>)
    requires GenOK(g) && JumpList(g.code, list) && Apart(g.jpc, list)
    ensures GenOK(PatchToHere(g, list)) && PatchToHere(g, list).lasttarget == |g.code|
  {
    JoinedList(g.code, g.jpc, list);
    forall i | 0 <= i < |g.code|
      ensures JumpWithin(g.code, |g.code|, i)
    {
      assert JumpWithin(g.code, g.lasttarget, i);
    }
  }

  /** After `luaK_goiftrue` or `luaK_goiffalse`: one list goes on here, and `out` is the
      list that leaves. */
  ghost predicate Split(g: Gen, e: Exp, g': Gen, out: seq<nat>) {
    && GenOK(g') && JumpList(g'.code, out) && Apart(g'.jpc, out)
    && Keeps(g, Lists(g, e), g', g'.jpc + out)
    && g'.freereg == Level(g, e) && g'.lasttarget == |g'.code|
  }

  /** The new jumps `pc` of a branch, before they are added to a list of `e`. */
  ghost predicate Branches(g: Gen, e: Exp, g1: Gen, pc: seq<nat>) {
    && GenOK(g1) && JumpList(g1.code, pc) && JumpList(g1.code, e.t) && JumpList(g1.code, e.f)
    && Apart(g1.jpc, pc) && Apart(g1.jpc, e.t) && Apart(g1.jpc, e.f)
    && Apart(e.t, e.f) && Apart(e.t, pc) && Apart(e.f, pc)
    && Keeps(g, Lists(g, e), g1, g1.jpc + pc + e.t + e.f)
    && g1.freereg == Level(g, e)
  }

  lemma NoBranch(g: Gen, e: Exp)
    requires ExpOK(g, e) && !e.k.VJmp? && !e.k.VNonReloc?
    ensures Branches(g, e, g, [])
  {
  }

  /** The jump of a comparison is the branch itself. */
  lemma OwnBranch(g: Gen, e: Exp)
    requires ExpOK(g, e) && e.k.VJmp?
    ensures Branches(g, e, g, [e.k.pc])
  {
    hide JumpsWithin, NilRanges;
  }

  lemma InvertedBranch(g: Gen, e: Exp)
    requires ExpOK(g, e) && e.k.VJmp?
    ensures var g1 := InvertJump(g, e.k.pc); Branches(g, e, g1, [e.k.pc]) && g1.k == g.k
  {
    hide JumpsWithin, NilRanges;
    InvertJumpOK(g, e);
  }

  lemma CondBranch(g: Gen, e: Exp, cond: bool)
    requires ExpOK(g, e) && !e.k.VJmp? && TopTemp(g, e) && !JumpOnCond(g, e, cond).0.err
    ensures var (g1, pc) := JumpOnCond(g, e, cond);
            && Branches(g, e, g1, pc) && pc != []
            && g1.k == (if e.k.VKNum? then Pooled(g.k, Num(e.k.nval)) else g.k)
  {
    hide JumpOnCond, JumpsWithin, NilRanges, Level;
    JumpOnCondOK(g, e, cond);
  }

  lemma JumpAway(g: Gen, e: Exp)
    requires ExpOK(g, e) && !e.k.VJmp? && !e.k.VNonReloc?
    ensures Branches(g, e, Jump(g).0, Jump(g).1) && Jump(g).0.k == g.k && Jump(g).1 != []
  {
    JumpOK(g);
    ListKept(g.code, Jump(g).0.code, [], e.t);
    ListKept(g.code, Jump(g).0.code, [], e.f);
  }

  lemma JumpIfFalseOK(g: Gen, e: Exp)
    requires ExpOK(g, e) && TopTemp(g, e) && !JumpIfFalse(g, e).0.err
    ensures var (g1, pc) := JumpIfFalse(g, e);
            && Branches(g, e, g1, pc) && g1.k == g.k
            && (pc == [] <==> e.k.VK? || e.k.VKNum? || e.k.VTrue?)
  {
    hide Jump, InvertJump, JumpOnCond, Branches, ExpOK, TopTemp;
    match e.k
    case VK(_) => NoBranch(g, e);
    case VKNum(_) => NoBranch(g, e);
    case VTrue => NoBranch(g, e);
    case VFalse => JumpAway(g, e);
    case VJmp(_) => InvertedBranch(g, e);
    case _ => CondBranch(g, e, false);
  }

  lemma JumpIfTrueOK(g: Gen, e: Exp)
    requires ExpOK(g, e) && TopTemp(g, e) && !JumpIfTrue(g, e).0.err
    ensures var (g1, pc) := JumpIfTrue(g, e);
            && Branches(g, e, g1, pc)
            && g1.k == (if e.k.VKNum? then Pooled(g.k, Num(e.k.nval)) else g.k)
            && (pc == [] <==> e.k.VNil? || e.k.VFalse?)
  {
    hide Jump, JumpOnCond, Branches, ExpOK, TopTemp;
    match e.k
    case VNil => NoBranch(g, e);
    case VFalse => NoBranch(g, e);
    case VTrue => JumpAway(g, e);
    case VJmp(_) => OwnBranch(g, e);
    case _ => CondBranch(g, e, true);
  }

  lemma PartOK(g: Gen, e: Exp, g1: Gen, pc: seq<nat>, here: seq<nat>, out: seq<nat>)
    requires Branches(g, e, g1, pc)
    requires (here == e.t && out == e.f) || (here == e.f && out == e.t)
    ensures Split(g, e, Part(g1, out, pc, here), out + pc)
  {
    HereOK(g1.(err := g1.err || LinkTooFar(out, pc)), here);
    JoinedList(g1.code, out, pc);
  }

  lemma SplitAfter(g: Gen, e: Exp, g0: Gen, e0: Exp, g1: Gen, out: seq<nat>)
    requires Keeps(g, Lists(g, e), g0, Lists(g0, e0)) && Level(g0, e0) == Level(g, e)
    requires Split(g0, e0, g1, out)
    ensures Split(g, e, g1, out)
  {
    KeepsOn(g, Lists(g, e), g0, Lists(g0, e0), g1, g1.jpc + out);
  }

  lemma GoIfTrueOK(g: Gen, e: Exp)
    requires ExpOK(g, e) && TopTemp(g, e) && !GoIfTrue(g, e).0.err
    ensures var (g', e') := GoIfTrue(g, e);
            && Split(g, e, g', e'.f)
            && g'.k == g.k
            && (e'.f == [] <==> e.f == [] && (e.k.VK? || e.k.VKNum? || e.k.VTrue?))
  {
    hide JumpIfFalse, ExpOK, Untouched, From, Level, TopTemp, Branches;
    DischargeVarsOK(g, e);
    DischargedLevel(g, e);
    var (g0, e0) := DischargeVars(g, e);
    JumpIfFalseOK(g0, e0);
    var (g1, pc) := JumpIfFalse(g0, e0);
    PartOK(g0, e0, g1, pc, e0.t, e0.f);
    SplitAfter(g, e, g0, e0, GoIfTrue(g, e).0, e0.f + pc);
  }

  lemma GoIfFalseOK(g: Gen, e: Exp)
    requires ExpOK(g, e) && TopTemp(g, e) && !GoIfFalse(g, e).0.err
    ensures var (g', e') := GoIfFalse(g, e);
            && Split(g, e, g', e'.t)
            && g'.k == (if e.k.VKNum? then Pooled(g.k, Num(e.k.nval)) else g.k)
            && (e'.t == [] <==> e.t == [] && (e.k.VNil? || e.k.VFalse?))
  {
    hide JumpIfTrue, ExpOK, Untouched, From, Level, TopTemp, Branches;
    DischargeVarsOK(g, e);
    DischargedLevel(g, e);
    var (g0, e0) := DischargeVars(g, e);
    JumpIfTrueOK(g0, e0);
    var (g1, pc) := JumpIfTrue(g0, e0);
    PartOK(g0, e0, g1, pc, e0.f, e0.t);
    SplitAfter(g, e, g0, e0, GoIfFalse(g, e).0, e0.t + pc);
  }

  lemma RemoveListOK(g: Gen, e: Exp, l: seq<nat>)
    requires ExpOK(g, e) && (l == e.t || l == e.f)
    ensures var c := RemoveValues(g.code, l);
            && ExpOK(g.(code := c), e) && Extends(g.code, c) && Untouched(g.code, c, l)
            && (forall j :: j in l ==> !Guarded(c, j))
  {
    hide JumpsWithin, NilRanges, NoDup;
    RemoveValuesOK(g.code, l, g.lasttarget);
    ListKept(g.code, RemoveValues(g.code, l), l, if l == e.t then e.f else e.t);
    ListKept(g.code, RemoveValues(g.code, l), l, g.jpc);
  }

  lemma RemovedTwice(c: Code, c1: Code, c2: Code, l1: seq<nat>, l2: seq<nat>)
    requires Extends(c, c1) && Extends(c1, c2) && |c| == |c1| == |c2| && Opens(c1, l1) && Apart(l1, l2)
    requires Untouched(c, c1, l1) && Untouched(c1, c2, l2)
    requires (forall j :: j in l1 ==> !Guarded(c1, j)) && (forall j :: j in l2 ==> !Guarded(c2, j))
    ensures Extends(c, c2) && Untouched(c, c2, l1 + l2) && (forall j :: j in l1 + l2 ==> !Guarded(c2, j))
  {
    forall i | 0 <= i < |c|
      ensures ExtendsAt(c, c2, i)
    {
      assert ExtendsAt(c, c1, i) && ExtendsAt(c1, c2, i);
      if i + 1 < |c| { assert ExtendsAt(c, c1, i + 1); }
    }
    forall j | 0 <= j < |c| && c[j] == OPEN && j !in l1 + l2
      ensures OpenAlike(c, c2, j)
    {
      assert OpenAlike(c, c1, j) && OpenAlike(c1, c2, j);
    }
    forall j | j in l1 + l2
      ensures !Guarded(c2, j)
    {
      if j in l1 { assert OpenAlike(c1, c2, j); }
    }
  }

  lemma RemoveListsOK(g: Gen, e: Exp)
    requires ExpOK(g, e)
    ensures var c := RemoveValues(RemoveValues(g.code, e.t), e.f);
            && ExpOK(g.(code := c), e) && Extends(g.code, c) && Untouched(g.code, c, e.t + e.f)
            && (forall j :: j in e.t + e.f ==> !Guarded(c, j))
  {
    hide RemoveValues, Extends, Untouched, GenOK;
    RemoveListOK(g, e, e.t);
    var c1 := RemoveValues(g.code, e.t);
    RemoveListOK(g.(code := c1), e, e.f);
    RemovedTwice(g.code, c1, RemoveValues(c1, e.f), e.t, e.f);
  }
  /** The descriptor and state of `luaK_codenot` before its lists are interchanged. */
  lemma NegateOK(g: Gen, e: Exp)
    requires ExpOK(g, e) && TopTemp(g, e) && !Negate(g, e).0.err
    ensures var (g1, k1) := Negate(g, e);
            && ExpOK(g1, e.(k := k1)) && Keeps(g, Lists(g, e), g1, Lists(g1, e.(k := k1)))
            && g1.freereg == Level(g, e) && g1.k == g.k && NoTemp(g1, e.(k := k1))
            && |g1.code| >= |g.code|
  {
    match e.k
    case VJmp(_) => InvertJumpOK(g, e);
    case VReloc(_) => NotInto(g, e);
    case VNonReloc(_) => NotInto(g, e);
    case VLocal(_) => NotInto(g, e);
    case VGlobal(_) => NotInto(g, e);
    case _ =>
  }

  /** OP_NOT is emitted for a value in register `r`. */
  lemma NotEmitted(g: Gen, e: Exp, r: nat)
    requires ExpOK(g, e) && !e.k.VJmp? && !e.k.VReloc?
    ensures var e' := e.(k := VReloc(|g.code|));
            var g' := Emit(g, NOT(0, r));
            ExpOK(g', e') && Keeps(g, Lists(g, e), g', Lists(g', e')) && |g'.code| == |g.code| + 1
  {
    hide JumpsWithin, NilRanges, NoDup;
    EmitOK(g, NOT(0, r));
    ListKept(g.code, Emit(g, NOT(0, r)).code, g.jpc, e.t);
    ListKept(g.code, Emit(g, NOT(0, r)).code, g.jpc, e.f);
  }

  /** A value taken to some register and released again leaves its level. */
  lemma FreedAgain(g: Gen, e: Exp)
    requires ExpOK(g, e) && !e.k.VJmp? && TopTemp(g, e) && !Discharge2AnyReg(g, e).0.err
    ensures var (g2, e2) := Discharge2AnyReg(g, e);
            var g3 := FreeExp(g2, e2);
            && e2.k.VNonReloc? && e2.t == e.t && e2.f == e.f && |g3.code| >= |g.code|
            && ExpOK(g3, e2.(k := VNil)) && Keeps(g, Lists(g, e), g3, Lists(g3, e2.(k := VNil)))
            && g3.freereg == Level(g, e)
            && g3.k == (if e.k.VKNum? then Pooled(g.k, Num(e.k.nval)) else g.k)
  {
    hide JumpsWithin, NilRanges, NoDup, Discharge2AnyReg;
    Discharge2AnyRegOK(g, e);
  }

  lemma NotInto(g: Gen, e: Exp)
    requires ExpOK(g, e) && TopTemp(g, e) && !Negate(g, e).0.err
    requires e.k.VReloc? || e.k.VNonReloc? || e.k.VLocal? || e.k.VGlobal?
    ensures var (g1, k1) := Negate(g, e);
            && ExpOK(g1, e.(k := k1)) && Keeps(g, Lists(g, e), g1, Lists(g1, e.(k := k1)))
            && g1.freereg == Level(g, e) && g1.k == g.k && k1.VReloc?
            && |g1.code| >= |g.code|
  {
    hide ExpOK, Untouched, From, Level, Discharge2AnyReg, FreeExp, TopTemp;
    FreedAgain(g, e);
    var (g2, e2) := Discharge2AnyReg(g, e);
    var g3 := FreeExp(g2, e2);
    NotEmitted(g3, e2.(k := VNil), e2.k.reg);
    var (g1, k1) := Negate(g, e);
    KeepsOn(g, Lists(g, e), g3, Lists(g3, e2.(k := VNil)), g1, Lists(g1, e.(k := k1)));
  }

  /** The values are dropped and the lists interchanged. */
  lemma SwappedOK(g: Gen, e: Exp)
    requires ExpOK(g, e)
    ensures var g' := g.(code := RemoveValues(RemoveValues(g.code, e.t), e.f));
            var e' := Exp(e.k, e.f, e.t);
            ExpOK(g', e') && Keeps(g, Lists(g, e), g', Lists(g', e')) && |g'.code| == |g.code|
  {
    hide RemoveValues, JumpsWithin, NilRanges, NoDup;
    RemoveListsOK(g, e);
  }

  lemma CodeNotOK(g: Gen, e: Exp)
    requires ExpOK(g, e) && TopTemp(g, e) && !CodeNot(g, e).0.err
    ensures var (g', e') := CodeNot(g, e);
            && ExpOK(g', e') && Keeps(g, Lists(g, e), g', Lists(g', e'))
            && g'.freereg == Level(g, e) && g'.k == g.k && NoTemp(g', e')
            && e'.t == e.f && e'.f == e.t && |g'.code| >= |g.code|
  {
    hide DischargeVars, Negate, RemoveValues, ExpOK, OpenAlike, From, Level, TopTemp;
    DischargeVarsOK(g, e);
    DischargedLevel(g, e);
    var (g0, e0) := DischargeVars(g, e);
    NegateOK(g0, e0);
    var (g1, k1) := Negate(g0, e0);
    var e1 := e0.(k := k1);
    SwappedOK(g1, e1);
    var (g', e') := CodeNot(g, e);
    KeepsOn(g, Lists(g, e), g0, Lists(g0, e0), g1, Lists(g1, e1));
    KeepsOn(g, Lists(g, e), g1, Lists(g1, e1), g', Lists(g', e'));
  }

  // ---------- into a register ----------

  lemma LoadBoolsCode(g: Gen, isJmp: bool, reg: nat)
    requires isJmp ==> g.jpc == []
    ensures var (g', pf, pt) := LoadBools(g, isJmp, reg);
            var body := if isJmp then g.code else g.code + [OPEN];
            && pf == |body| && pt == pf + 1
            && g' == g.(code := body + [LOADBOOL(reg, false, true), LOADBOOL(reg, true, false)],
                        jpc := if isJmp then [] else [|g.code|] + g.jpc, lasttarget := |body| + 2, err := g'.err)
  {
    hide GenOK, Opens;
    var body := if isJmp then g.code else g.code + [OPEN];
    var c1 := body + [LOADBOOL(reg, false, true)];
    assert Patch(body, [], |body|, NO_REG, |body|) == body;
    assert Patch(c1, [], |c1|, NO_REG, |c1|) == c1;
    assert c1 + [LOADBOOL(reg, true, false)] == body + [LOADBOOL(reg, false, true), LOADBOOL(reg, true, false)];
  }

  lemma LoadBoolsOK(g: Gen, isJmp: bool, reg: nat)
    requires GenOK(g) && (isJmp ==> g.jpc == [])
    ensures var (g', pf, pt) := LoadBools(g, isJmp, reg);
            var body := if isJmp then g.code else g.code + [OPEN];
            && GenOK(g') && pf == |body| && pt == pf + 1 && g'.lasttarget == |g'.code|
            && g'.code == body + [LOADBOOL(reg, false, true), LOADBOOL(reg, true, false)]
            && g'.jpc == (if isJmp then [] else [|g.code|] + g.jpc)
            && (g.err ==> g'.err) && g' == g.(code := g'.code, jpc := g'.jpc, lasttarget := g'.lasttarget, err := g'.err)
            && Untouched(g.code, g'.code, [])
  {
    hide NoDup, Apart, LoadBools;
    LoadBoolsCode(g, isJmp, reg);
    var g' := LoadBools(g, isJmp, reg).0;
    forall i | 0 <= i < |g'.code|
      ensures JumpWithin(g'.code, |g'.code|, i)
    {
      if i < |g.code| { assert JumpWithin(g.code, g.lasttarget, i); }
    }
    if !isJmp { JoinedList(g'.code, [|g.code|], g.jpc); }
  }
  /** Lists that can be resolved at the end of the code: to `pf`/`pt` without a value. */
  ghost predicate Resolvable(g: Gen, e: Exp, pf: nat, pt: nat) {
    && JumpList(g.code, e.t) && JumpList(g.code, e.f)
    && Apart(g.jpc, e.t) && Apart(g.jpc, e.f) && Apart(e.t, e.f)
    && pf <= |g.code| && pt <= |g.code|
    && (forall j :: j in e.f && !Guarded(g.code, j) ==> j < pf)
    && (forall j :: j in e.t && !Guarded(g.code, j) ==> j < pt)
  }

  lemma PatchExitsOK(g: Gen, e: Exp, reg: nat, pf: nat, pt: nat)
    requires GenOK(g) && Resolvable(g, e, pf, pt)
    ensures var g' := PatchExits(g, e, reg, pf, pt);
            && GenOK(g') && Untouched(g.code, g'.code, e.t + e.f) && g'.lasttarget == |g.code|
  {
    var last := |g.code|;
    PatchOK(g.code, e.f, last, reg, pf, g.lasttarget, last);
    var c1 := Patch(g.code, e.f, last, reg, pf);
    ListKept(g.code, c1, e.f, e.t);
    ListKept(g.code, c1, e.f, g.jpc);
    forall j | j in e.t
      ensures Guarded(c1, j) <==> Guarded(g.code, j)
    {
      assert OpenAlike(g.code, c1, j);
    }
    PatchOK(c1, e.t, last, reg, pt, last, last);
    var c2 := Patch(c1, e.t, last, reg, pt);
    ListKept(c1, c2, e.t, g.jpc);
    forall j | 0 <= j < |g.code| && g.code[j] == OPEN && j !in e.t + e.f
      ensures OpenAlike(g.code, c2, j)
    {
      assert OpenAlike(g.code, c1, j) && OpenAlike(c1, c2, j);
    }
  }

  /** The value is in `reg` and nothing of the expression is left in progress. */
  ghost predicate Finished(g: Gen, e: Exp, reg: nat, g': Gen, e': Exp) {
    && e' == Exp(VNonReloc(reg), [], []) && ExpOK(g', e')
    && Keeps(g, Lists(g, e), g', g'.jpc)
    && g'.freereg == g.freereg
    && g'.k == (if e.k.VKNum? then Pooled(g.k, Num(e.k.nval)) else g.k)
  }

  /** The state of `exp2reg` once a comparison's own jump has joined the exits-when-true. */
  lemma ToListOK(g: Gen, e: Exp, reg: nat)
    requires ExpOK(g, e) && reg < g.freereg
    ensures var (g2, e2) := ToList(g, e, reg);
            && GenOK(g2) && Resolvable(g2, e2, |g2.code|, |g2.code|)
            && Keeps(g, Lists(g, e), g2, g2.jpc + e2.t + e2.f)
            && g2.freereg == g.freereg
            && g2.k == (if e.k.VKNum? then Pooled(g.k, Num(e.k.nval)) else g.k)
            && (e.k.VJmp? ==> g2.jpc == [] && g2.code == g.code && e2 == e.(t := e.t + [e.k.pc]))
            && (!e.k.VJmp? ==> e2 == Exp(VNonReloc(reg), e.t, e.f))
  {
    if e.k.VJmp? {
      JoinedList(g.code, e.t, [e.k.pc]);
    } else {
      Discharge2RegOK(g, e, reg);
    }
  }

  /** The lists can still be resolved behind the two LOADBOOLs. */
  lemma BoolsResolvable(g: Gen, e: Exp, isJmp: bool, reg: nat)
    requires GenOK(g) && Resolvable(g, e, |g.code|, |g.code|) && (isJmp ==> g.jpc == [])
    ensures var (g', pf, pt) := LoadBools(g, isJmp, reg);
            && GenOK(g') && Resolvable(g', e, pf, pt)
            && Keeps(g, g.jpc + e.t + e.f, g', g'.jpc + e.t + e.f)
            && g' == g.(code := g'.code, jpc := g'.jpc, lasttarget := g'.lasttarget, err := g'.err)
  {
    hide LoadBools, Patch, JumpsWithin, NilRanges, NoDup;
    LoadBoolsOK(g, isJmp, reg);
    var g' := LoadBools(g, isJmp, reg).0;
    ListKept(g.code, g'.code, [], e.t);
    ListKept(g.code, g'.code, [], e.f);
  }

  lemma ExitsResolved(g: Gen, e: Exp, reg: nat, pf: nat, pt: nat)
    requires GenOK(g) && Resolvable(g, e, pf, pt)
    ensures var g' := PatchExits(g, e, reg, pf, pt);
            && GenOK(g') && Keeps(g, g.jpc + e.t + e.f, g', g'.jpc)
            && g' == g.(code := g'.code, jpc := g'.jpc, lasttarget := g'.lasttarget, err := g'.err)
  {
    hide Patch, JumpsWithin, NilRanges, NoDup, Resolvable;
    PatchExitsOK(g, e, reg, pf, pt);
  }

  /** The two LOADBOOLs, and the jump over them, are emitted only for an exit that offers no
      value. */
  lemma BoolsOnlyIfNeeded(g: Gen, e: Exp, isJmp: bool, reg: nat)
    requires isJmp ==> g.jpc == []
    ensures |Resolve(g, e, isJmp, reg).code| - |g.code| ==
            if exists j :: (j in e.t || j in e.f) && !(1 <= j <= |g.code| && g.code[j - 1].TESTSET?) then (if isJmp then 2 else 3)
            else 0
  {
    hide LoadBools, Patch;
    LoadBoolsCode(g, isJmp, reg);
    if NeedValue(g.code, e.t) || NeedValue(g.code, e.f) {
      var j :| (j in e.t || j in e.f) && !Guarded(g.code, j);
    }
  }

  lemma ResolveOK(g: Gen, e: Exp, isJmp: bool, reg: nat)
    requires GenOK(g) && Resolvable(g, e, |g.code|, |g.code|) && (isJmp ==> g.jpc == [])
    ensures var g' := Resolve(g, e, isJmp, reg);
            && GenOK(g') && Keeps(g, g.jpc + e.t + e.f, g', g'.jpc)
            && g' == g.(code := g'.code, jpc := g'.jpc, lasttarget := g'.lasttarget, err := g'.err)
  {
    hide LoadBools, PatchExits, JumpsWithin, NilRanges, NoDup, Resolvable;
    if HasJumps(e) {
      if NeedValue(g.code, e.t) || NeedValue(g.code, e.f) {
        BoolsResolvable(g, e, isJmp, reg);
        var (g1, pf, pt) := LoadBools(g, isJmp, reg);
        ExitsResolved(g1, e, reg, pf, pt);
        KeepsOn(g, g.jpc + e.t + e.f, g1, g1.jpc + e.t + e.f, Resolve(g, e, isJmp, reg), g1.jpc);
      } else {
        ExitsResolved(g, e, reg, |g.code|, |g.code|);
      }
    }
  }
  lemma Exp2RegOK(g: Gen, e: Exp, reg: nat)
    requires ExpOK(g, e) && reg < g.freereg
    ensures var (g', e') := Exp2Reg(g, e, reg); Finished(g, e, reg, g', e')
  {
    ToListOK(g, e, reg);
    var (g1, e1) := ToList(g, e, reg);
    ResolveOK(g1, e1, e.k.VJmp?, reg);
    var (g', e') := Exp2Reg(g, e, reg);
    KeepsOn(g, Lists(g, e), g1, g1.jpc + e1.t + e1.f, g', g'.jpc);
  }
}
