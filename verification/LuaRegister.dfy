/** Putting a delivered value into a register: all exits of an expression meet behind it. */
module LuaRegister {
  import opened LuaSource
  import opened LuaMachine
  import opened LuaCodegen
  import opened LuaOutcome
  import opened LuaRun
  import opened LuaInvariant
  import opened LuaDelivery
  import opened LuaFlow

  /** `m'` is `m` with `v` in `reg`. */
  ghost predicate Stored(m: Machine, m': Machine, reg: nat, v: Value) {
    && m'.log == m.log && Get(m'.regs, reg) == v
    && forall r: nat :: r != reg ==> Get(m'.regs, r) == Get(m.regs, r)
  }

  /** A patched jump taken with a value stores it in the register. */
  lemma TakenWithValue(x: Start, c: Code, list: seq<nat>, vtarget: nat, reg: nat, dtarget: nat, j: nat, m: Machine) returns (m': Machine)
    requires j in list && j < vtarget && Guarded(c, j) && j < |c| && Opens(c, list) && reg != NO_REG
    ensures Stored(m, m', reg, Get(m.regs, c[j - 1].b))
    ensures var c' := Patch(c, list, vtarget, reg, dtarget);
            TakeJump(c', x.ks, x.w, j, Some(Get(m.regs, c[j - 1].b)), m) == Exec(c', x.ks, x.w, vtarget, m')
  {
    var c' := Patch(c, list, vtarget, reg, dtarget);
    var v := Get(m.regs, c[j - 1].b);
    assert c'[j - 1] == PatchedAt(c, list, vtarget, reg, dtarget, j - 1);
    m' := if reg == c[j - 1].b then m else m.(regs := m.regs[reg := v]);
  }

  lemma TakenPlainly(x: Start, c: Code, list: seq<nat>, vtarget: nat, reg: nat, dtarget: nat, j: nat, m: Machine)
    requires j in list && j < dtarget && !Guarded(c, j) && j < |c| && Opens(c, list)
    ensures var c' := Patch(c, list, vtarget, reg, dtarget);
            TakeJump(c', x.ks, x.w, j, None, m) == Exec(c', x.ks, x.w, dtarget, m)
  {
  }

  function JumpTaken(r: Result): nat {
    if r.Out? then r.j else 0
  }

  /** The jump `j`, when it is not in the list, is open as before. */
  lemma PatchedAlike(c: Code, list: seq<nat>, vtarget: nat, reg: nat, dtarget: nat, low: int, j: nat)
    requires JumpsWithin(c, low) && low <= |c| && NilRanges(c) && Opens(c, list)
    requires vtarget <= |c| && dtarget <= |c|
    requires forall j :: j in list ==> j < if Guarded(c, j) then vtarget else dtarget
    ensures var c' := Patch(c, list, vtarget, reg, dtarget);
            Extends(c, c') && |c'| == |c| && (j < |c| && c[j] == OPEN && j !in list ==> OpenAlike(c, c', j))
  {
    PatchOK(c, list, vtarget, reg, dtarget, low, |c|);
  }

  /** Sending a list to targets inside the code: a run that left through it goes on at the
      value target with the offered value stored, or at the default target. */
  lemma PatchedRun(x: Start, c: Code, list: seq<nat>, vtarget: nat, reg: nat, dtarget: nat, low: int)
    requires JumpsWithin(c, low) && low <= |c| && NilRanges(c) && Opens(c, list) && reg != NO_REG
    requires vtarget <= |c| && dtarget <= |c|
    requires forall j :: j in list ==> j < if Guarded(c, j) then vtarget else dtarget
    ensures var r, r', c' := Run(x, c), Run(x, Patch(c, list, vtarget, reg, dtarget)), Patch(c, list, vtarget, reg, dtarget);
            && (r.Halt? || Elsewhere(r, list) ==> r' == r)
            && (r.Out? && r.j in list && r.carry.None? && !Guarded(c, r.j) ==> r' == Exec(c', x.ks, x.w, dtarget, r.m))
            && (r.Out? && r.j in list && r.carry.Some? ==>
                  exists m :: Stored(r.m, m, reg, r.carry.value) && r' == Exec(c', x.ks, x.w, vtarget, m))
  {
    hide Stored, Patch, JumpsWithin, NilRanges, Extends, Exec, TakeJump;
    var c' := Patch(c, list, vtarget, reg, dtarget);
    PatchedAlike(c, list, vtarget, reg, dtarget, low, JumpTaken(Run(x, c)));
    RunLeavesOpen(c, x.ks, x.w, x.q, x.m);
    var r := Run(x, c);
    if !r.Stuck? { RunExtended(c, c', x.ks, x.w, x.q, x.m); }
    if r.Halt? {
      AtEnd(x, c', r.m);
    } else if Elsewhere(r, list) {
      StaysOut(x, c, c');
    } else if r.Out? && r.carry.Some? {
      var m := TakenWithValue(x, c, list, vtarget, reg, dtarget, r.j, r.m);
    } else if r.Out? && !Guarded(c, r.j) {
      TakenPlainly(x, c, list, vtarget, reg, dtarget, r.j, r.m);
    }
  }

  /** The two LOADBOOLs at the end of the code. */
  ghost predicate EndsInBools(c: Code, reg: nat, pf: nat) {
    |c| == pf + 2 && c[pf] == LOADBOOL(reg, false, true) && c[pf + 1] == LOADBOOL(reg, true, false)
  }

  lemma BoolsRun(x: Start, c: Code, reg: nat, pf: nat, m: Machine)
    requires EndsInBools(c, reg, pf)
    ensures Exec(c, x.ks, x.w, pf, m) == Halt(m.(regs := m.regs[reg := Bool(false)]))
    ensures Exec(c, x.ks, x.w, pf + 1, m) == Halt(m.(regs := m.regs[reg := Bool(true)]))
  {
    var m0, m1 := m.(regs := m.regs[reg := Bool(false)]), m.(regs := m.regs[reg := Bool(true)]);
    assert Exec(c, x.ks, x.w, pf + 2, m0) == Halt(m0);
    assert Exec(c, x.ks, x.w, pf + 2, m1) == Halt(m1);
  }

  /** An exit carrying a value, or none, ends behind the expression with `reg` set. */
  ghost predicate Ended(r: Result, r': Result, reg: nat, default: bool) {
    r.Out? ==> r'.Halt? && Stored(r.m, r'.m, reg, if r.carry.Some? then r.carry.value else Bool(default))
  }

  /** Resolving one list at the end of the code. */
  lemma ListRun(x: Start, c: Code, list: seq<nat>, reg: nat, target: nat, default: bool, low: int)
    requires JumpsWithin(c, low) && low <= |c| && NilRanges(c) && Opens(c, list) && reg != NO_REG && target <= |c|
    requires forall j :: j in list && !Guarded(c, j) ==> j < target
    requires NeedValue(c, list) ==> exists pf: nat :: EndsInBools(c, reg, pf) && target == if default then pf + 1 else pf
    ensures var r, r' := Run(x, c), Run(x, Patch(c, list, |c|, reg, target));
            && (r.Halt? || Elsewhere(r, list) ==> r' == r)
            && (r.Out? && r.j in list && Offers(c, r) ==> Ended(r, r', reg, default))
  {
    PatchedRun(x, c, list, |c|, reg, target, low);
    RunLeavesOpen(c, x.ks, x.w, x.q, x.m);
    var r := Run(x, c);
    var c' := Patch(c, list, |c|, reg, target);
    if r.Out? && r.j in list && r.carry.None? && Offers(c, r) {
      assert NeedValue(c, list);
      var pf: nat :| EndsInBools(c, reg, pf) && target == if default then pf + 1 else pf;
      assert c'[pf] == PatchedAt(c, list, |c|, reg, target, pf);
      assert c'[pf + 1] == PatchedAt(c, list, |c|, reg, target, pf + 1);
      BoolsRun(x, c', reg, pf, r.m);
    }
  }

  lemma ExitsRun(x: Start, g: Gen, e: Exp, reg: nat, pf: nat, pt: nat)
    requires GenOK(g) && Resolvable(g, e, pf, pt) && reg != NO_REG
    requires || (EndsInBools(g.code, reg, pf) && pt == pf + 1)
             || (!NeedValue(g.code, e.t) && !NeedValue(g.code, e.f))
    ensures var r, r' := Run(x, g.code), Run(x, PatchExits(g, e, reg, pf, pt).code);
            && (r.Halt? || Elsewhere(r, e.t + e.f) ==> r' == r)
            && (r.Out? && r.j in e.f && Offers(g.code, r) ==> Ended(r, r', reg, false))
            && (r.Out? && r.j in e.t && Offers(g.code, r) ==> Ended(r, r', reg, true))
  {
    var c, last := g.code, |g.code|;
    ListRun(x, c, e.f, reg, pf, false, g.lasttarget);
    var c1 := Patch(c, e.f, last, reg, pf);
    PatchOK(c, e.f, last, reg, pf, g.lasttarget, last);
    ListKept(c, c1, e.f, e.t);
    forall j | j in e.t
      ensures Guarded(c1, j) <==> Guarded(c, j)
    {
      assert OpenAlike(c, c1, j);
    }
    if EndsInBools(c, reg, pf) {
      assert c1[pf] == PatchedAt(c, e.f, last, reg, pf, pf);
      assert c1[pf + 1] == PatchedAt(c, e.f, last, reg, pf, pf + 1);
      assert EndsInBools(c1, reg, pf);
    }
    ListRun(x, c1, e.t, reg, pt, true, last);
  }

  /** Where a run has arrived: at the end of the code or over a pending jump. */
  ghost predicate Arrived(g: Gen, r: Result) {
    r.Halt? || (r.Out? && r.j in g.jpc && Offers(g.code, r))
  }

  /** Before the exits are resolved: the value is in `reg` where the run arrived, and a
      comparison that held has left through the exits-when-true. */
  ghost predicate Staged(x: Start, g: Gen, e: Exp, isJmp: bool, reg: nat, y: Seen, regs: Regs, base: nat) {
    var r := Run(x, g.code);
    match y
    case Gone(r') => r == r' && Elsewhere(r, g.jpc + e.t + e.f)
    case Got(ToT(v), log) => Left(g.code, r, e.t, v, log, regs, base)
    case Got(ToF(v), log) => Left(g.code, r, e.f, v, log, regs, base)
    case Got(Fall(v, _), log) =>
      if isJmp && v == Bool(true) then Left(g.code, r, e.t, None, log, regs, base)
      else
        && Arrived(g, r) && r.m.log == log && SameBelow(r.m.regs, regs, base)
        && if isJmp then v == Bool(false) else Get(r.m.regs, reg) == v
  }

  lemma ToListStaged(x: Start, g: Gen, e: Exp, reg: nat, y: Seen, regs: Regs, base: nat)
    requires ExpOK(g, e) && Delivers(x, g, e, y, regs, base) && Entered(x, g)
    requires ToList(g, e, reg).0.k <= x.ks && g.k <= x.ks && g.nactvar <= base <= reg < g.freereg
    ensures var (g1, e1) := ToList(g, e, reg);
            (e.k != VNonReloc(reg) ==> g1.jpc == []) && Staged(x, g1, e1, e.k.VJmp?, reg, y, regs, base)
  {
    hide Exec, GenOK, JumpList, Discharge2Reg;
    if e.k.VJmp? {
      ComparisonRun(x, g, e, y, regs, base, false);
    } else {
      Discharge2RegOK(g, e, reg);
      Discharge2RegDelivers(x, g, e, reg, y, regs, base);
      var (g1, e1) := ToList(g, e, reg);
      assert Core(g1, e1) == g1.code;
    }
  }

  /** The value of the expression is in `reg` wherever the run arrives; only a value that was
      there already may still be reached over a pending jump that offers something. */
  ghost predicate InRegister(x: Start, g: Gen, y: Seen, reg: nat, own: bool, regs: Regs, base: nat) {
    var r := Run(x, g.code);
    var p := SpotOf(g, r);
    Arrives(x, g, p) &&
    match y
    case Gone(r') => r == r' && p.Away?
    case Got(o, log) =>
      && p.At? && (own || p.c == None) && p.m.log == log
      && Get(p.m.regs, reg) == Final(o) && SameBelow(p.m.regs, regs, base)
  }

  function BoolsTail(isJmp: bool, reg: nat): (tail: Code)
    ensures tail != []
  {
    (if isJmp then [] else [OPEN]) + [LOADBOOL(reg, false, true), LOADBOOL(reg, true, false)]
  }

  /** A run that falls through jumps over the two LOADBOOLs; a failed comparison falls into
      the first. */
  lemma BoolsTailRun(x: Start, c: Code, isJmp: bool, reg: nat, m: Machine)
    requires c == [] || !IsTest(c[|c| - 1])
    ensures var r := Exec(c + BoolsTail(isJmp, reg), x.ks, x.w, |c|, m);
            r == if isJmp then Halt(m.(regs := m.regs[reg := Bool(false)])) else Out(|c|, None, m)
    ensures !Guarded(c + BoolsTail(isJmp, reg), |c|)
  {
    var c' := c + BoolsTail(isJmp, reg);
    if isJmp {
      BoolsRun(x, c', reg, |c|, m);
    } else {
      assert c'[|c|] == OPEN;
      assert !Guarded(c', |c|);
      assert Exec(c', x.ks, x.w, |c|, m) == TakeJump(c', x.ks, x.w, |c|, None, m);
    }
  }

  lemma LoadBoolsCode(g: Gen, isJmp: bool, reg: nat)
    requires GenOK(g) && (isJmp ==> g.jpc == [])
    ensures var (g', pf, pt) := LoadBools(g, isJmp, reg);
            g'.code == g.code + BoolsTail(isJmp, reg) && EndsInBools(g'.code, reg, pf)
    ensures g.code == [] || !IsTest(g.code[|g.code| - 1])
  {
    hide LoadBools, NilRanges, NoDup;
    LoadBoolsOK(g, isJmp, reg);
    LastNotTest(g.code, g.lasttarget);
    assert g.code + [OPEN] + [LOADBOOL(reg, false, true), LOADBOOL(reg, true, false)]
        == g.code + ([OPEN] + [LOADBOOL(reg, false, true), LOADBOOL(reg, true, false)]);
  }

  /** Running the code with the two LOADBOOLs appended, up to the exits. */
  lemma LoadBoolsRun(x: Start, g: Gen, isJmp: bool, reg: nat)
    requires GenOK(g) && (isJmp ==> g.jpc == [])
    ensures var (g', pf, pt) := LoadBools(g, isJmp, reg);
            var r, r' := Run(x, g.code), Run(x, g'.code);
            && EndsInBools(g'.code, reg, pf)
            && (r.Returned? ==> r' == r)
            && (r.Out? ==> r' == r && r.j < |g.code| && (Guarded(g.code, r.j) <==> Guarded(g'.code, r.j)))
            && (r.Halt? && isJmp ==> r' == Halt(r.m.(regs := r.m.regs[reg := Bool(false)])))
            && (r.Halt? && !isJmp ==> r' == Out(|g.code|, None, r.m) && !Guarded(g'.code, |g.code|))
  {
    hide LoadBools, Exec, BoolsTail, EndsInBools, GenOK;
    LoadBoolsCode(g, isJmp, reg);
    var r := Run(x, g.code);
    RunLeavesOpen(g.code, x.ks, x.w, x.q, x.m);
    if !r.Stuck? {
      TailRun(x, g.code, BoolsTail(isJmp, reg), if r.Halt? then At(r.m, None) else Away(r));
    }
    if r.Halt? { BoolsTailRun(x, g.code, isJmp, reg, r.m); }
  }

  lemma ResolveRun(x: Start, g: Gen, e: Exp, isJmp: bool, reg: nat, own: bool, y: Seen, regs: Regs, base: nat)
    requires GenOK(g) && (!own || isJmp ==> g.jpc == []) && Resolvable(g, e, |g.code|, |g.code|) && reg != NO_REG && base <= reg
    requires Staged(x, g, e, isJmp, reg, y, regs, base)
    requires isJmp ==> NeedValue(g.code, e.t)
    ensures InRegister(x, Resolve(g, e, isJmp, reg), y, reg, own, regs, base)
  {
    var r := Run(x, g.code);
    if !HasJumps(e) {
    } else if NeedValue(g.code, e.t) || NeedValue(g.code, e.f) {
      BoolsNeeded(x, g, e, isJmp, reg, own, y, regs, base);
    } else {
      ExitsRun(x, g, e, reg, |g.code|, |g.code|);
      if Run(x, g.code).Out? { StaysPending(g, e, reg, |g.code|, |g.code|, Run(x, g.code).j); }
      RunLeavesOpen(g.code, x.ks, x.w, x.q, x.m);
    }
  }

  lemma BoolsNeeded(x: Start, g: Gen, e: Exp, isJmp: bool, reg: nat, own: bool, y: Seen, regs: Regs, base: nat)
    requires GenOK(g) && (!own || isJmp ==> g.jpc == []) && Resolvable(g, e, |g.code|, |g.code|) && reg != NO_REG && base <= reg
    requires Staged(x, g, e, isJmp, reg, y, regs, base)
    ensures var (g1, pf, pt) := LoadBools(g, isJmp, reg);
            InRegister(x, PatchExits(g1, e, reg, pf, pt), y, reg, own, regs, base)
  {
    hide LoadBools, PatchExits, NeedValue, OpenAlike, Exec, NoDup, GenOK, From, EndsInBools;
    LoadBoolsOK(g, isJmp, reg);
    LoadBoolsRun(x, g, isJmp, reg);
    var (g1, pf, pt) := LoadBools(g, isJmp, reg);
    BoolsResolvable(g, e, isJmp, reg);
    LaterGuards(g, e, g1);
    RunLeavesOpen(g.code, x.ks, x.w, x.q, x.m);
    ExitsRun(x, g1, e, reg, pf, pt);
    var r := Run(x, g.code);
    StaysPending(g1, e, reg, pf, pt, if r.Out? then r.j else |g.code|);
  }

  lemma LaterGuards(g: Gen, e: Exp, g1: Gen)
    requires JumpList(g.code, e.t) && JumpList(g.code, e.f) && Untouched(g.code, g1.code, [])
    ensures forall j :: j in e.t + e.f ==> (Guarded(g1.code, j) <==> Guarded(g.code, j))
  {
    forall j | j in e.t + e.f
      ensures Guarded(g1.code, j) <==> Guarded(g.code, j)
    {
      assert OpenAlike(g.code, g1.code, j);
    }
  }

  /** A jump of no list stays open, and is guarded as before. */
  lemma StaysPending(g: Gen, e: Exp, reg: nat, pf: nat, pt: nat, j: nat)
    requires GenOK(g) && Resolvable(g, e, pf, pt)
    ensures var g' := PatchExits(g, e, reg, pf, pt);
            && g'.jpc == g.jpc && |g'.code| == |g.code|
            && (j < |g.code| && g.code[j] == OPEN && j !in e.t + e.f ==> (Guarded(g'.code, j) <==> Guarded(g.code, j)))
  {
    hide JumpsWithin, NilRanges, NoDup;
    PatchExitsOK(g, e, reg, pf, pt);
    if j < |g.code| && g.code[j] == OPEN && j !in e.t + e.f {
      assert OpenAlike(g.code, PatchExits(g, e, reg, pf, pt).code, j);
    }
  }

  /** `exp2reg`: wherever the run arrives afterwards, `reg` holds the final value.  This
      includes a value that owns `reg`. */
  lemma Exp2RegRun(x: Start, g: Gen, e: Exp, reg: nat, y: Seen, regs: Regs, base: nat)
    requires ExpOK(g, e) && Delivers(x, g, e, y, regs, base) && Entered(x, g)
    requires Exp2Reg(g, e, reg).0.k <= x.ks && g.nactvar <= base <= reg < g.freereg && reg != NO_REG
    ensures InRegister(x, Exp2Reg(g, e, reg).0, y, reg, e.k == VNonReloc(reg), regs, base)
  {
    ToListOK(g, e, reg);
    var (g1, e1) := ToList(g, e, reg);
    ResolveOK(g1, e1, e.k.VJmp?, reg);
    ToListStaged(x, g, e, reg, y, regs, base);
    if e.k.VJmp? {
      assert e.k.pc in e1.t && !Guarded(g1.code, e.k.pc);
    }
    ResolveRun(x, g1, e1, e.k.VJmp?, reg, e.k == VNonReloc(reg), y, regs, base);
  }
}
