/** Running the code emitted so far: what each operation of the code generator makes of
    the value, or the exit, that the code before it had reached. */
module LuaDelivery {
  import opened LuaSource
  import opened LuaMachine
  import opened LuaCodegen
  import opened LuaOutcome
  import opened LuaRun
  import opened LuaInvariant

  /** One run: the final constant table, the world, the entry point and the registers
      and log there. */
  datatype Start = Start(ks: seq<Value>, w: World, q: nat, m: Machine)

  ghost function Run(x: Start, c: Code): Result {
    Exec(c, x.ks, x.w, x.q, x.m)
  }

  ghost predicate SameBelow(r1: Regs, r2: Regs, base: nat) {
    forall r: nat :: r < base ==> Get(r1, r) == Get(r2, r)
  }

  /** Where a run stands at the current end of the code: there, possibly over a pending
      jump that offers a value, or somewhere else. */
  datatype Spot = At(m: Machine, c: Option<Value>) | Away(r: Result)

  ghost predicate Offers(c: Code, r: Result)
    requires r.Out?
  {
    Guarded(c, r.j) ==> r.carry.Some?
  }

  /** The run has returned, or it has left through a jump that is not in `l`: what happens to
      the jumps of `l` does not concern it. */
  ghost predicate Elsewhere(r: Result, l: seq<nat>) {
    r.Returned? || (r.Out? && r.j !in l)
  }

  ghost predicate Arrives(x: Start, g: Gen, p: Spot) {
    var r := Run(x, g.code);
    match p
    case At(m, c) =>
      (r == Halt(m) && c == None) || (r.Out? && r == Out(r.j, c, m) && r.j in g.jpc && Offers(g.code, r))
    case Away(r') => r == r' && Elsewhere(r, g.jpc)
  }

  /** The entry point is inside the code, or a label at its end, or the function's start
      with clean registers. */
  ghost predicate Entered(x: Start, g: Gen) {
    || x.q < |g.code|
    || (x.q == |g.code| && g.lasttarget == |g.code|)
    || (x.q == 0 == |g.code| && forall r :: r >= g.nactvar ==> Get(x.m.regs, r) == Nil)
  }

  /** The code up to the unfinished instruction of a descriptor. */
  ghost function Core(g: Gen, e: Exp): Code
    requires ExpOK(g, e)
  {
    g.code[..CoreLen(g, e)]
  }

  /** The value a descriptor stands for in machine `m`, and the log once it is computed. */
  ghost function ValueOf(x: Start, g: Gen, e: Exp, m: Machine): (Value, Log)
    requires ExpOK(g, e)
  {
    match e.k
    case VNil => (Nil, m.log)
    case VTrue => (Bool(true), m.log)
    case VFalse => (Bool(false), m.log)
    case VK(i) => (Kst(i, x.ks), m.log)
    case VKNum(n) => (Num(n), m.log)
    case VLocal(r) => (Get(m.regs, r), m.log)
    case VNonReloc(r) => (Get(m.regs, r), m.log)
    case VGlobal(i) => (x.w.global(m.log, g.k[i].s), m.log + [Read(g.k[i].s)])
    case VReloc(p) =>
      (match g.code[p]
       case NOT(_, b) => (Bool(!Truthy(Get(m.regs, b))), m.log)
       case GETGLOBAL(_, i) => (x.w.global(m.log, g.k[i].s), m.log + [Read(g.k[i].s)])
       case _ => (Nil, m.log))
    case VJmp(p) =>
      var (yes, log) := Accepts(g.code[p - 1], x.ks, x.w, m);
      (Bool(yes), log)
  }

  predicate ConstantKind(k: Kind) {
    k.VNil? || k.VTrue? || k.VFalse? || k.VK? || k.VKNum?
  }

  /** A descriptor whose operations so far emitted nothing for its value. */
  predicate Idle(g: Gen, k: Kind) {
    ConstantKind(k) || k.VLocal? || (k.VNonReloc? && k.reg < g.nactvar)
  }

  /** What a descriptor holds for a run: an exit with its log, or the run is elsewhere. */
  datatype Seen = Got(o: Exit, log: Log) | Gone(r: Result)

  ghost predicate Left(c: Code, r: Result, list: seq<nat>, v: Option<Value>, log: Log, regs: Regs, base: nat) {
    && r.Out? && r.j in list && r.carry == v && Offers(c, r)
    && r.m.log == log && SameBelow(r.m.regs, regs, base)
  }

  ghost predicate Reached(x: Start, g: Gen, e: Exp, r: Result, v: Value, c: Option<Value>, log: Log, regs: Regs, base: nat)
    requires ExpOK(g, e)
  {
    && (r.Halt? || (r.Out? && r.j in g.jpc && Offers(g.code, r)))
    && SameBelow(r.m.regs, regs, base)
    && ValueOf(x, g, e, r.m) == (v, log)
    && (Idle(g, e.k) ==> c == if r.Out? then r.carry else None)
  }

  ghost predicate Delivers(x: Start, g: Gen, e: Exp, y: Seen, regs: Regs, base: nat)
    requires ExpOK(g, e)
  {
    var r := Run(x, Core(g, e));
    match y
    case Gone(r') => r == r' && Elsewhere(r, Lists(g, e))
    case Got(ToT(v), log) => Left(g.code, r, e.t, v, log, regs, base)
    case Got(ToF(v), log) => Left(g.code, r, e.f, v, log, regs, base)
    case Got(Fall(v, c), log) => Reached(x, g, e, r, v, c, log, regs, base)
  }

  // ---------- extending the code ----------

  /** A run that left through an open jump still leaves there. */
  lemma StaysOut(x: Start, c: Code, c': Code)
    requires Extends(c, c') && Elsewhere(Run(x, c), [])
    requires Run(x, c).Out? && Run(x, c).j < |c| ==> OpenAlike(c, c', Run(x, c).j)
    ensures Run(x, c') == Run(x, c)
  {
    RunLeavesOpen(c, x.ks, x.w, x.q, x.m);
    RunExtended(c, c', x.ks, x.w, x.q, x.m);
  }

  lemma ExtendsSelf(c: Code, tail: Code)
    ensures Extends(c, c + tail)
  {
  }

  lemma AtEnd(x: Start, c: Code, m: Machine)
    ensures Exec(c, x.ks, x.w, |c|, m) == Halt(m)
  {
  }

  lemma LastPlain(c: Code, i: Instr, x: Start, m: Machine)
    requires Plain(i) && Computes(i, x.ks, x.w, m).Some?
    ensures Exec(c + [i], x.ks, x.w, |c|, m) == Halt(Computes(i, x.ks, x.w, m).value)
  {
    var m' := Computes(i, x.ks, x.w, m).value;
    assert (c + [i])[|c|] == i;
    assert Exec(c + [i], x.ks, x.w, |c| + 1, m') == Halt(m');
  }

  lemma LastOpen(c: Code, tail: Code, x: Start, carry: Option<Value>, m: Machine)
    requires tail != [] && tail[|tail| - 1] == OPEN
    ensures var j := |c| + |tail| - 1;
            TakeJump(c + tail, x.ks, x.w, j, carry, m) == Out(j, if Guarded(c + tail, j) then carry else None, m)
  {
  }

  lemma LastTest(c: Code, i: Instr, x: Start, m: Machine)
    requires IsTest(i)
    ensures var (yes, log) := Accepts(i, x.ks, x.w, m);
            Exec(c + [i, OPEN], x.ks, x.w, |c|, m)
            == if yes then Out(|c| + 1, Carried(i, m.regs), m.(log := log)) else Halt(m.(log := log))
  {
    var (yes, log) := Accepts(i, x.ks, x.w, m);
    var c' := c + [i, OPEN];
    assert c'[|c|] == i && c'[|c| + 1] == OPEN;
    LastOpen(c, [i, OPEN], x, Carried(i, m.regs), m.(log := log));
    assert Exec(c', x.ks, x.w, |c| + 2, m.(log := log)) == Halt(m.(log := log));
  }

  /** Once the pending jumps land here, they and the direct way are one. */
  lemma SettledRun(x: Start, g: Gen, p: Spot)
    requires GenOK(g) && Arrives(x, g, p)
    ensures Run(x, Settled(g)) == if p.At? then Halt(p.m) else p.r
  {
    var c := Settled(g);
    SettledOK(g);
    RunLeavesOpen(g.code, x.ks, x.w, x.q, x.m);
    RunExtended(g.code, c, x.ks, x.w, x.q, x.m);
    var r := Run(x, g.code);
    if p.Away? {
      if r.Out? { assert OpenAlike(g.code, c, r.j); }
      StaysOut(x, g.code, c);
    } else if r.Out? {
      assert TakeJump(c, x.ks, x.w, r.j, r.carry, r.m) == Exec(c, x.ks, x.w, |c|, r.m);
    }
  }

  /** Appending to settled code: runs that arrived go on behind it, others stay out. */
  lemma TailRun(x: Start, c: Code, tail: Code, p: Spot)
    requires Run(x, c) == (if p.At? then Halt(p.m) else p.r) && (p.Away? ==> Elsewhere(p.r, []))
    requires tail != [] && (c == [] || !c[|c| - 1].TESTSET?)
    ensures Run(x, c + tail) == if p.At? then Exec(c + tail, x.ks, x.w, |c|, p.m) else p.r
  {
    ExtendsSelf(c, tail);
    RunExtended(c, c + tail, x.ks, x.w, x.q, x.m);
    RunLeavesOpen(c, x.ks, x.w, x.q, x.m);
    if p.Away? {
      if p.r.Out? { assert OpenAlike(c, c + tail, p.r.j); }
      StaysOut(x, c, c + tail);
    }
  }

  /** The last instruction is not a test: every test has its jump. */
  lemma LastNotTest(c: Code, limit: int)
    requires JumpsWithin(c, limit)
    ensures c == [] || !IsTest(c[|c| - 1])
  {
    if c != [] { assert JumpWithin(c, limit, |c| - 1); }
  }

  /** After the pending jumps landed, an emitted instruction is executed by every run that
      arrived. */
  lemma EmitRun(x: Start, g: Gen, i: Instr, p: Spot)
    requires GenOK(g) && Arrives(x, g, p) && Plain(i)
    requires p.At? ==> Computes(i, x.ks, x.w, p.m).Some?
    ensures Run(x, Emit(g, i).code) == if p.At? then Halt(Computes(i, x.ks, x.w, p.m).value) else p.r
  {
    SettledOK(g);
    SettledRun(x, g, p);
    LastNotTest(Settled(g), g.lasttarget);
    TailRun(x, Settled(g), [i], p);
    if p.At? { LastPlain(Settled(g), i, x, p.m); }
  }

  lemma JumpRun(x: Start, g: Gen, p: Spot)
    requires GenOK(g) && Arrives(x, g, p)
    ensures var r := Run(x, Jump(g).0.code);
            match p
            case At(m, c) => r.Out? && r == Out(r.j, c, m) && r.j in Jump(g).1 && Offers(Jump(g).0.code, r)
            case Away(r') => r == r'
  {
    var r := Run(x, g.code);
    LastNotTest(g.code, g.lasttarget);
    RunLeavesOpen(g.code, x.ks, x.w, x.q, x.m);
    TailRun(x, g.code, [OPEN], if r.Halt? then At(r.m, None) else Away(r));
    if r.Halt? { LastOpen(g.code, [OPEN], x, None, r.m); }
  }

  /** A test and its open jump behind the code: the jump is taken exactly when the test
      accepts, and offers the tested value of a TESTSET. */
  lemma CondJumpRun(x: Start, g: Gen, i: Instr, p: Spot)
    requires GenOK(g) && Arrives(x, g, p) && IsTest(i)
    ensures var r := Run(x, CondJump(g, i).0.code);
            match p
            case At(m, _) =>
              var (yes, log) := Accepts(i, x.ks, x.w, m);
              if yes then r == Out(|g.code| + 1, Carried(i, m.regs), m.(log := log)) && Offers(CondJump(g, i).0.code, r)
              else r == Halt(m.(log := log))
            case Away(r') => r == r'
  {
    SettledOK(g);
    CondJumpOK(g, i);
    SettledRun(x, g, p);
    LastNotTest(Settled(g), g.lasttarget);
    TailRun(x, Settled(g), [i, OPEN], p);
    if p.At? { LastTest(Settled(g), i, x, p.m); }
  }

  // ---------- descriptors ----------

  predicate Unfinished(k: Kind) {
    k.VReloc? || k.VJmp?
  }

  ghost function SpotOf(g: Gen, r: Result): Spot {
    match r
    case Halt(m) => At(m, None)
    case Out(j, c, m) => if j in g.jpc then At(m, c) else Away(r)
    case _ => Away(r)
  }

  lemma WhereItIs(x: Start, g: Gen, e: Exp, y: Seen, regs: Regs, base: nat)
    requires ExpOK(g, e) && Delivers(x, g, e, y, regs, base) && !Unfinished(e.k)
    ensures Core(g, e) == g.code
    ensures var p := SpotOf(g, Run(x, g.code)); Arrives(x, g, p) && (p.At? <==> y.Got? && y.o.Fall?)
  {
    assert Core(g, e) == g.code;
    RunLeavesOpen(g.code, x.ks, x.w, x.q, x.m);
  }

  /** A run that had left before stays where it left: the lists of the descriptor, and all
      others, keep their jumps. */
  lemma LeftBefore(x: Start, g: Gen, e: Exp, y: Seen, regs: Regs, base: nat, g': Gen, e': Exp)
    requires ExpOK(g, e) && ExpOK(g', e') && Delivers(x, g, e, y, regs, base)
    requires y.Got? ==> !y.o.Fall?
    requires Run(x, Core(g', e')) == Run(x, Core(g, e))
    requires Keeps(g, Lists(g, e), g', Lists(g', e'))
    requires e'.t == e.t && e'.f == e.f
    requires forall j :: j in e.t + e.f ==> (Guarded(g'.code, j) <==> Guarded(g.code, j))
    ensures Delivers(x, g', e', y, regs, base)
  {
    RunLeavesOpen(Core(g, e), x.ks, x.w, x.q, x.m);
  }

  /** Only pending jumps moved, so the guards of the expression's own jumps are as before. */
  lemma SameGuards(g: Gen, e: Exp, c': Code)
    requires ExpOK(g, e) && Untouched(g.code, c', g.jpc)
    ensures forall j :: j in e.t + e.f ==> (Guarded(c', j) <==> Guarded(g.code, j))
  {
    forall j | j in e.t + e.f
      ensures Guarded(c', j) <==> Guarded(g.code, j)
    {
      assert OpenAlike(g.code, c', j);
    }
  }

  lemma GlobalDelivers(x: Start, g: Gen, e: Exp, y: Seen, regs: Regs, base: nat)
    requires ExpOK(g, e) && e.k.VGlobal?
    requires Delivers(x, g, e, y, regs, base)
    ensures var (g', e') := DischargeVars(g, e); ExpOK(g', e') && Delivers(x, g', e', y, regs, base)
  {
    DischargeVarsOK(g, e);
    var (g', e') := DischargeVars(g, e);
    var i := GETGLOBAL(0, e.k.name);
    EmitOK(g, i);
    WhereItIs(x, g, e, y, regs, base);
    var p := SpotOf(g, Run(x, g.code));
    SettledRun(x, g, p);
    assert Core(g', e') == Settled(g);
    if !p.At? {
      SameGuards(g, e, g'.code);
      LeftBefore(x, g, e, y, regs, base, g', e');
    }
  }

  lemma DischargeVarsDelivers(x: Start, g: Gen, e: Exp, y: Seen, regs: Regs, base: nat)
    requires ExpOK(g, e) && Delivers(x, g, e, y, regs, base)
    ensures var (g', e') := DischargeVars(g, e); ExpOK(g', e') && Delivers(x, g', e', y, regs, base)
  {
    if e.k.VGlobal? {
      GlobalDelivers(x, g, e, y, regs, base);
    } else if e.k.VLocal? {
      var (g', e') := DischargeVars(g, e);
      assert Core(g', e') == Core(g, e);
    }
  }

  ghost function MachineOf(r: Result): Machine {
    if r.Halt? || r.Out? then r.m else Machine(map[], [])
  }

  /** In machine `m` the instruction puts the descriptor's value into `reg`. */
  ghost predicate Puts(i: Instr, x: Start, g: Gen, e: Exp, reg: nat, m: Machine)
    requires ExpOK(g, e)
  {
    var (v, log) := ValueOf(x, g, e, m);
    Computes(i, x.ks, x.w, m) == Some(Machine(m.regs[reg := v], log))
  }

  lemma EmitDelivers(x: Start, g: Gen, e: Exp, i: Instr, reg: nat, y: Seen, regs: Regs, base: nat)
    requires ExpOK(g, e) && Delivers(x, g, e, y, regs, base) && !Unfinished(e.k)
    requires Plain(i) && Puts(i, x, g, e, reg, MachineOf(Run(x, g.code))) && g.nactvar <= base <= reg < g.freereg
    ensures var g', e' := Emit(g, i), e.(k := VNonReloc(reg));
            ExpOK(g', e') && Delivers(x, g', e', y, regs, base)
  {
    var g', e' := Emit(g, i), e.(k := VNonReloc(reg));
    EmitOK(g, i);
    Landed(g, e, g', reg);
    WhereItIs(x, g, e, y, regs, base);
    var p := SpotOf(g, Run(x, g.code));
    if p.At? { assert Computes(i, x.ks, x.w, p.m).Some?; }
    EmitRun(x, g, i, p);
    assert Core(g', e') == g'.code;
    if !p.At? {
      SameGuards(g, e, g'.code);
      LeftBefore(x, g, e, y, regs, base, g', e');
    }
  }

  /** The unfinished instruction gets its register. */
  lemma RelocDelivers(x: Start, g: Gen, e: Exp, reg: nat, y: Seen, regs: Regs, base: nat)
    requires ExpOK(g, e) && Delivers(x, g, e, y, regs, base) && e.k.VReloc? && g.k <= x.ks
    requires g.nactvar <= base <= reg < g.freereg
    ensures var (g', e') := Discharge2Reg(g, e, reg);
            ExpOK(g', e') && Delivers(x, g', e', y, regs, base)
  {
    hide Discharge2Reg, JumpList, GenOK;
    var (g', e') := Discharge2Reg(g, e, reg);
    var c := Core(g, e);
    RelocCode(g, e, reg);
    var p := if y.Got? && y.o.Fall? then At(MachineOf(Run(x, c)), None) else Away(Run(x, c));
    TailRun(x, c, [SetA(g.code[e.k.pc], reg)], p);
    if p.At? {
      RelocFalls(x, g, e, reg, y, regs, base);
    } else {
      LeftBefore(x, g, e, y, regs, base, g', e');
    }
  }

  lemma RelocFalls(x: Start, g: Gen, e: Exp, reg: nat, y: Seen, regs: Regs, base: nat)
    requires ExpOK(g, e) && Delivers(x, g, e, y, regs, base) && e.k.VReloc? && g.k <= x.ks
    requires g.nactvar <= base <= reg < g.freereg && y.Got? && y.o.Fall?
    requires var (g', e') := Discharge2Reg(g, e, reg);
             && InReg(g, e, reg, g', e') && g'.code == Core(g, e) + [SetA(g.code[e.k.pc], reg)]
             && Core(g', e') == g'.code
             && Run(x, g'.code) == Exec(g'.code, x.ks, x.w, |Core(g, e)|, MachineOf(Run(x, Core(g, e))))
    ensures var (g', e') := Discharge2Reg(g, e, reg); ExpOK(g', e') && Delivers(x, g', e', y, regs, base)
  {
    hide Discharge2Reg, JumpList, GenOK, Exec;
    LastPlain(Core(g, e), SetA(g.code[e.k.pc], reg), x, MachineOf(Run(x, Core(g, e))));
  }

  lemma RelocCode(g: Gen, e: Exp, reg: nat)
    requires ExpOK(g, e) && e.k.VReloc? && reg < g.freereg
    ensures var (g', e') := Discharge2Reg(g, e, reg);
            && InReg(g, e, reg, g', e')
            && g'.code == Core(g, e) + [SetA(g.code[e.k.pc], reg)] && Core(g', e') == g'.code
            && (forall j :: j in e.t + e.f ==> (Guarded(g'.code, j) <==> Guarded(g.code, j)))
    ensures Core(g, e) == [] || !IsTest(Core(g, e)[|Core(g, e)| - 1])
  {
    hide NilRanges;
    var (g', e') := Discharge2Reg(g, e, reg);
    Discharge2RegOK(g, e, reg);
    SetAOK(g, e, reg);
    SameGuards(g, e, g'.code);
    var c := Core(g, e);
    if c != [] {
      assert JumpWithin(g.code, g.lasttarget, |c| - 1);
    }
  }

  lemma NilDelivers(x: Start, g: Gen, e: Exp, reg: nat, y: Seen, regs: Regs, base: nat)
    requires ExpOK(g, e) && Delivers(x, g, e, y, regs, base) && e.k.VNil? && Entered(x, g)
    requires g.nactvar <= base <= reg < g.freereg
    ensures var g', e' := LoadNil(g, reg), e.(k := VNonReloc(reg));
            ExpOK(g', e') && Delivers(x, g', e', y, regs, base)
  {
    hide LoadNil, Delivers;
    var g', e' := LoadNil(g, reg), e.(k := VNonReloc(reg));
    NilInto(g, e, reg);
    if g' == Emit(g, LOADNIL(reg, reg)) {
      ClearsReg(x, g, e, reg, y, regs, base);
    } else {
      NilMerged(x, g, e, reg, y, regs, base);
    }
  }

  lemma NilMerged(x: Start, g: Gen, e: Exp, reg: nat, y: Seen, regs: Regs, base: nat)
    requires ExpOK(g, e) && Delivers(x, g, e, y, regs, base) && e.k.VNil? && Entered(x, g)
    requires g.nactvar <= base <= reg < g.freereg
    requires var g', e' := LoadNil(g, reg), e.(k := VNonReloc(reg));
             g' != Emit(g, LOADNIL(reg, reg)) && ExpOK(g', e') && Keeps(g, Lists(g, e), g', Lists(g', e'))
    ensures Delivers(x, LoadNil(g, reg), e.(k := VNonReloc(reg)), y, regs, base)
  {
    hide JumpsWithin, NilRanges, NoDup, Emit, Exec, Opens;
    var g', e' := LoadNil(g, reg), e.(k := VNonReloc(reg));
    assert Core(g', e') == g'.code && Core(g, e) == g.code;
    if |g.code| > 0 {
      StretchedNil(x, g, reg);
    } else {
      AtEnd(x, g.code, x.m);
    }
    if !(y.Got? && y.o.Fall?) {
      LoadNilOK(g, reg);
      SameGuards(g, e, g'.code);
      LeftBefore(x, g, e, y, regs, base, g', e');
    }
  }

  lemma ClearsReg(x: Start, g: Gen, e: Exp, reg: nat, y: Seen, regs: Regs, base: nat)
    requires ExpOK(g, e) && Delivers(x, g, e, y, regs, base) && e.k.VNil?
    requires g.nactvar <= base <= reg < g.freereg
    ensures var g', e' := Emit(g, LOADNIL(reg, reg)), e.(k := VNonReloc(reg));
            ExpOK(g', e') && Delivers(x, g', e', y, regs, base)
  {
    hide Exec;
    var i := LOADNIL(reg, reg);
    var g', e' := Emit(g, i), e.(k := VNonReloc(reg));
    EmitOK(g, i);
    Landed(g, e, g', reg);
    WhereItIs(x, g, e, y, regs, base);
    var p := SpotOf(g, Run(x, g.code));
    EmitRun(x, g, i, p);
    assert Core(g', e') == g'.code;
    if !p.At? {
      SameGuards(g, e, g'.code);
      LeftBefore(x, g, e, y, regs, base, g', e');
    }
  }

  /** The LOADNIL before may also clear `reg`, or already does. */
  lemma StretchedNil(x: Start, g: Gen, reg: nat)
    requires GenOK(g) && g.jpc == [] && Entered(x, g)
    requires |g.code| > 0 && |g.code| > g.lasttarget
    requires g.code[|g.code| - 1].LOADNIL? && g.code[|g.code| - 1].a <= reg <= g.code[|g.code| - 1].b + 1
    ensures var r, r' := Run(x, g.code), Run(x, LoadNil(g, reg).code);
            if r.Halt? then r'.Halt? && r'.m.log == r.m.log && Get(r'.m.regs, reg) == Nil
                            && (forall s: nat :: s != reg ==> Get(r'.m.regs, s) == Get(r.m.regs, s))
            else r' == r
  {
    var last := g.code[|g.code| - 1];
    RunStretchedNil(g.code, g.lasttarget, x.ks, x.w, x.q, x.m);
    HaltsAfterNil(g.code, g.lasttarget, x.ks, x.w, x.q, x.m);
  }

  lemma NumDelivers(x: Start, g: Gen, e: Exp, reg: nat, y: Seen, regs: Regs, base: nat)
    requires ExpOK(g, e) && Delivers(x, g, e, y, regs, base) && e.k.VKNum?
    requires Discharge2Reg(g, e, reg).0.k <= x.ks
    requires g.nactvar <= base <= reg < g.freereg
    ensures var (g', e') := Discharge2Reg(g, e, reg);
            ExpOK(g', e') && Delivers(x, g', e', y, regs, base)
  {
    AddKOK(g, Num(e.k.nval));
    var (g1, info) := AddK(g, Num(e.k.nval));
    assert ExpOK(g1, e) && Core(g1, e) == Core(g, e);
    EmitDelivers(x, g1, e, LOADK(reg, info), reg, y, regs, base);
  }

  lemma Discharge2RegDelivers(x: Start, g: Gen, e: Exp, reg: nat, y: Seen, regs: Regs, base: nat)
    requires ExpOK(g, e) && Delivers(x, g, e, y, regs, base) && !e.k.VJmp? && Entered(x, g)
    requires Discharge2Reg(g, e, reg).0.k <= x.ks && g.k <= x.ks
    requires g.nactvar <= base <= reg < g.freereg
    ensures var (g', e') := Discharge2Reg(g, e, reg);
            ExpOK(g', e') && Delivers(x, g', e', y, regs, base)
  {
    hide Delivers, GenOK, JumpList, Apart, LoadNil, AddK, Exec;
    match e.k
    case VNil => NilDelivers(x, g, e, reg, y, regs, base);
    case VKNum(_) => NumDelivers(x, g, e, reg, y, regs, base);
    case VReloc(_) => RelocDelivers(x, g, e, reg, y, regs, base);
    case VGlobal(_) =>
      GlobalDelivers(x, g, e, y, regs, base);
      var (g1, e1) := DischargeVars(g, e);
      RelocDelivers(x, g1, e1, reg, y, regs, base);
    case VJmp(_) =>
    case VFalse => SimpleDelivers(x, g, e, reg, y, regs, base);
    case VTrue => SimpleDelivers(x, g, e, reg, y, regs, base);
    case VK(_) => SimpleDelivers(x, g, e, reg, y, regs, base);
    case VNonReloc(r) =>
      // a value that owns the register is there already: nothing is emitted
      if r != reg { SimpleDelivers(x, g, e, reg, y, regs, base); }
    case VLocal(_) => SimpleDelivers(x, g, e, reg, y, regs, base);
  }

  lemma SimpleDelivers(x: Start, g: Gen, e: Exp, reg: nat, y: Seen, regs: Regs, base: nat)
    requires ExpOK(g, e) && Delivers(x, g, e, y, regs, base)
    requires e.k.VFalse? || e.k.VTrue? || e.k.VK? || e.k.VNonReloc? || e.k.VLocal?
    requires g.nactvar <= base <= reg < g.freereg
    requires (e.k.VNonReloc? || e.k.VLocal?) ==> e.k.reg != reg
    ensures var (g', e') := Discharge2Reg(g, e, reg);
            ExpOK(g', e') && Delivers(x, g', e', y, regs, base)
  {
    hide JumpsWithin, NilRanges, Exec;
    assert Puts(LoadInstr(e.k, reg), x, g, e, reg, MachineOf(Run(x, g.code)));
    EmitDelivers(x, g, e, LoadInstr(e.k, reg), reg, y, regs, base);
  }

  /** The one instruction that loads a boolean, a constant or another register. */
  function LoadInstr(k: Kind, reg: nat): Instr {
    match k
    case VFalse => LOADBOOL(reg, false, false)
    case VTrue => LOADBOOL(reg, true, false)
    case VK(info) => LOADK(reg, info)
    case VNonReloc(r) => MOVE(reg, r)
    case VLocal(r) => MOVE(reg, r)
    case _ => OPEN
  }

  lemma Discharge2AnyRegDelivers(x: Start, g: Gen, e: Exp, y: Seen, regs: Regs, base: nat)
    requires ExpOK(g, e) && Delivers(x, g, e, y, regs, base) && !e.k.VJmp? && Entered(x, g) && TopTemp(g, e)
    requires Discharge2AnyReg(g, e).0.k <= x.ks && g.k <= x.ks
    requires g.nactvar <= base <= g.freereg
    ensures var (g', e') := Discharge2AnyReg(g, e);
            ExpOK(g', e') && Delivers(x, g', e', y, regs, base)
  {
    hide JumpsWithin, NilRanges, NoDup, Patch, Left;
    if !e.k.VNonReloc? {
      var r := ReserveReg(g);
      assert ExpOK(r, e) && Core(r, e) == Core(g, e);
      Discharge2RegDelivers(x, r, e, g.freereg, y, regs, base);
    }
  }

  // ---------- branching ----------

  /** After a branch the run goes on at the end of the code or has left through `out`. */
  ghost predicate Turned(x: Start, g: Gen, out: seq<nat>, n: Next, log: Log, regs: Regs, base: nat) {
    var r := Run(x, g.code);
    match n
    case Go(c) =>
      var p := SpotOf(g, r);
      Arrives(x, g, p) && p.At? && p.c == c && p.m.log == log && SameBelow(p.m.regs, regs, base)
    case Leave(c) => Left(g.code, r, out, c, log, regs, base)
  }

  /** The same for a descriptor: the exits of `e` are still where they were, and falling
      through becomes `n`. */
  ghost predicate Directed(x: Start, g: Gen, pc: seq<nat>, e: Exp, y: Seen, n: Next, regs: Regs, base: nat) {
    var r := Run(x, g.code);
    match y
    case Gone(r') => r == r' && Elsewhere(r, [])
    case Got(ToT(c), log) => Left(g.code, r, e.t, c, log, regs, base)
    case Got(ToF(c), log) => Left(g.code, r, e.f, c, log, regs, base)
    case Got(Fall(_, _), log) => Turned(x, g, pc, n, log, regs, base)
  }

  function FallNext(sh: Shape, v: Value, cond: bool): Next {
    if Truthy(v) == cond then Leave(Offered(sh, v)) else Go(None)
  }

  function FallValue(y: Seen): Value {
    if y.Got? && y.o.Fall? then y.o.v else Nil
  }

  /** The test takes its jump, and offers a value, as `n` says. */
  ghost predicate Decides(i: Instr, x: Start, m: Machine, log: Log, n: Next)
    requires IsTest(i)
  {
    var (yes, log') := Accepts(i, x.ks, x.w, m);
    log' == log && n == if yes then Leave(Carried(i, m.regs)) else Go(None)
  }

  /** A test on settled code, for a descriptor whose value is known. */
  lemma TestDirected(x: Start, g: Gen, e: Exp, y: Seen, regs: Regs, base: nat, i: Instr, n: Next)
    requires ExpOK(g, e) && Delivers(x, g, e, y, regs, base) && !Unfinished(e.k) && IsTest(i)
    requires y.Got? && y.o.Fall? ==> Decides(i, x, MachineOf(Run(x, g.code)), y.log, n)
    ensures var (g', l) := CondJump(g, i); Directed(x, g', l, e, y, n, regs, base)
  {
    var (g', l) := CondJump(g, i);
    CondJumpOK(g, i);
    WhereItIs(x, g, e, y, regs, base);
    var p := SpotOf(g, Run(x, g.code));
    CondJumpRun(x, g, i, p);
    SameGuards(g, e, g'.code);
  }

  lemma JumpOnNotDirected(x: Start, g: Gen, e: Exp, cond: bool, y: Seen, regs: Regs, base: nat)
    requires ExpOK(g, e) && Delivers(x, g, e, y, regs, base) && e.k.VReloc? && g.code[e.k.pc].NOT?
    ensures var (g', l) := JumpOnCond(g, e, cond);
            Directed(x, g', l, e, y, FallNext(SNot, FallValue(y), cond), regs, base)
  {
    hide CondJump, JumpsWithin, NilRanges, NoDup, Exec, Opens;
    CutOK(g, e);
    var h := g.(code := g.code[..|g.code| - 1]);
    var i := TEST(g.code[e.k.pc].b, !cond);
    var r := Run(x, h.code);
    var p := if y.Got? && y.o.Fall? then At(r.m, None) else Away(r);
    assert h.code == Core(g, e);
    RunLeavesOpen(h.code, x.ks, x.w, x.q, x.m);
    CondJumpOK(h, i);
    CondJumpRun(x, h, i, p);
    if r.Out? { assert OpenAlike(h.code, CondJump(h, i).0.code, r.j); }
  }

  lemma JumpOnCondDirected(x: Start, g: Gen, e: Exp, sh: Shape, cond: bool, y: Seen, regs: Regs, base: nat)
    requires ExpOK(g, e) && Delivers(x, g, e, y, regs, base) && Entered(x, g) && TopTemp(g, e)
    requires Shaped(g, e, sh) && !sh.SJump?
    requires JumpOnCond(g, e, cond).0.k <= x.ks && g.k <= x.ks && g.nactvar <= base <= g.freereg
    ensures var (g', l) := JumpOnCond(g, e, cond);
            Directed(x, g', l, e, y, FallNext(sh, FallValue(y), cond), regs, base)
  {
    hide Delivers, Directed, Discharge2AnyReg, CondJump, GenOK, JumpList, Exec;
    if sh.SNot? {
      JumpOnNotDirected(x, g, e, cond, y, regs, base);
    } else {
      JumpOnRegDirected(x, g, e, sh, cond, y, regs, base);
    }
  }

  lemma JumpOnRegDirected(x: Start, g: Gen, e: Exp, sh: Shape, cond: bool, y: Seen, regs: Regs, base: nat)
    requires ExpOK(g, e) && Delivers(x, g, e, y, regs, base) && Entered(x, g) && TopTemp(g, e)
    requires !e.k.VJmp? && !sh.SJump? && !sh.SNot? && (e.k.VReloc? ==> !g.code[e.k.pc].NOT?)
    requires JumpOnCond(g, e, cond).0.k <= x.ks && g.k <= x.ks && g.nactvar <= base <= g.freereg
    ensures var (g', l) := JumpOnCond(g, e, cond);
            Directed(x, g', l, e, y, FallNext(sh, FallValue(y), cond), regs, base)
  {
    hide Delivers, Discharge2AnyReg, CondJump, GenOK, JumpList, Keeps, Turned, Left, FallNext, Exec;
    Discharge2AnyRegOK(g, e);
    var (g1, e1) := Discharge2AnyReg(g, e);
    var i := TESTSET(NO_REG, e1.k.reg, cond);
    FreedJump(g1, e1, i);
    Discharge2AnyRegDelivers(x, g, e, y, regs, base);
    TestsetDirected(x, g1, e1, sh, cond, y, regs, base);
    TurnedAlike(x, CondJump(g1, i).0, CondJump(FreeExp(g1, e1), i).0, CondJump(g1, i).1,
                FallNext(sh, FallValue(y), cond), if y.Got? then y.log else [], regs, base);
  }

  /** Releasing a register changes nothing about the code. */
  lemma FreedJump(g: Gen, e: Exp, i: Instr)
    ensures var (g', l) := CondJump(g, i);
            var (h, l') := CondJump(FreeExp(g, e), i);
            h == g'.(freereg := h.freereg) && l' == l && h.k == g.k
  {
  }

  lemma TurnedAlike(x: Start, g: Gen, g': Gen, out: seq<nat>, n: Next, log: Log, regs: Regs, base: nat)
    requires g' == g.(freereg := g'.freereg)
    ensures Turned(x, g, out, n, log, regs, base) ==> Turned(x, g', out, n, log, regs, base)
  {
  }

  lemma TestsetDirected(x: Start, g: Gen, e: Exp, sh: Shape, cond: bool, y: Seen, regs: Regs, base: nat)
    requires ExpOK(g, e) && Delivers(x, g, e, y, regs, base) && e.k.VNonReloc? && !sh.SJump? && !sh.SNot?
    ensures var (g', l) := CondJump(g, TESTSET(NO_REG, e.k.reg, cond));
            Directed(x, g', l, e, y, FallNext(sh, FallValue(y), cond), regs, base)
  {
    assert Core(g, e) == g.code;
    TestDirected(x, g, e, y, regs, base, TESTSET(NO_REG, e.k.reg, cond), FallNext(sh, FallValue(y), cond));
  }
}
