/** The generated code delivers, for every expression, world and run, exactly `Outcome`. */
module LuaCorrect {
  import opened LuaSource
  import opened LuaMachine
  import opened LuaCodegen
  import opened LuaOutcome
  import opened LuaRun
  import opened LuaInvariant
  import opened LuaOperands
  import opened LuaDelivery
  import opened LuaFlow
  import opened LuaRegister

  // ---------- operands ----------

  /** The value owns a temporary register. */
  predicate Owns(g: Gen, e: Exp) {
    e.k.VNonReloc? && e.k.reg >= g.nactvar
  }

  /** `luaK_exp2nextreg`: the final value is in the first register free once the value's own
      temporary is released; a value that owns that register is there already. */
  lemma Exp2NextRegRun(x: Start, g: Gen, e: Exp, y: Seen, regs: Regs, base: nat)
    requires ExpOK(g, e) && Delivers(x, g, e, y, regs, base) && Entered(x, g) && TopTemp(g, e)
    requires Exp2NextReg(g, e).0.k <= x.ks && g.nactvar <= base <= Level(g, e) && !Exp2NextReg(g, e).0.err
    ensures InRegister(x, Exp2NextReg(g, e).0, y, Level(g, e), Owns(g, e), regs, base)
  {
    hide Exp2Reg, DischargeVars, FreeExp, ReserveReg, Level, ExpOK, Delivers, Entered, TopTemp, OpenAlike, From, InRegister;
    DischargeVarsOK(g, e);
    DischargeVarsDelivers(x, g, e, y, regs, base);
    DischargedLevel(g, e);
    var (g1, e1) := DischargeVars(g, e);
    DischargedInto(x, g, e);
    FreshReg(g1, e1);
    var g2 := ReserveReg(FreeExp(g1, e1));
    Reserved(x, g1, e1, y, regs, base);
    ReservedBelow(FreeExp(g1, e1));
    Exp2RegErr(g2, e1, Level(g, e));
    Exp2RegRun(x, g2, e1, Level(g, e), y, regs, base);
  }

  /** Which register the value is in, once it is no variable. */
  lemma DischargedInto(x: Start, g: Gen, e: Exp)
    requires ExpOK(g, e) && Entered(x, g) && TopTemp(g, e)
    ensures var (g1, e1) := DischargeVars(g, e);
            && Entered(x, g1) && g1.nactvar == g.nactvar && g.nactvar <= Level(g, e)
            && (e1.k == VNonReloc(Level(g, e)) <==> Owns(g, e))
  {
    hide JumpsWithin, NilRanges, NoDup, Opens;
    DischargeVarsOK(g, e);
    EnteredLater(x, g, DischargeVars(g, e).0);
  }

  lemma Exp2RegErr(g: Gen, e: Exp, reg: nat)
    requires !Exp2Reg(g, e, reg).0.err
    ensures !g.err
  {
    hide Exp2Reg;
  }

  lemma ReservedBelow(g: Gen)
    requires GenOK(ReserveReg(g)) && !ReserveReg(g).err
    ensures g.freereg < NO_REG && ReserveReg(g).freereg == g.freereg + 1
  {
    hide JumpsWithin, NilRanges, NoDup, Opens;
  }

  /** Releasing the value's own register and reserving it again changes nothing but the
      register level. */
  lemma Reserved(x: Start, g: Gen, e: Exp, y: Seen, regs: Regs, base: nat)
    requires ExpOK(g, e) && Delivers(x, g, e, y, regs, base) && Entered(x, g) && TopTemp(g, e)
    ensures var g' := ReserveReg(FreeExp(g, e));
            && ExpOK(g', e) && GenOK(g') && Delivers(x, g', e, y, regs, base) && Entered(x, g')
            && g'.nactvar == g.nactvar && g'.k == g.k
  {
    hide JumpsWithin, NilRanges, NoDup, Opens, Exec;
    FreshReg(g, e);
    assert Core(ReserveReg(FreeExp(g, e)), e) == Core(g, e);
  }

  /** The operand `rk` denotes the final value wherever the run arrives, and pending jumps
      offer `c`. */
  ghost predicate OperandAt(x: Start, g: Gen, y: Seen, rk: nat, c: Option<Value>, regs: Regs, base: nat) {
    var r := Run(x, g.code);
    var p := SpotOf(g, r);
    Arrives(x, g, p) &&
    match y
    case Gone(r') => r == r' && p.Away?
    case Got(o, log) =>
      p.At? && p.c == c && p.m.log == log && RK(rk, x.ks, p.m.regs) == Final(o) && SameBelow(p.m.regs, regs, base)
  }

  /** Operands whose code is empty. */
  predicate Silent(e: Exp, ks: seq<Value>) {
    Inline(e, ks) || (!HasJumps(e) && (e.k.VLocal? || e.k.VNonReloc?))
  }

  function SilentCarry(e: Exp, ks: seq<Value>, y: Seen): Option<Value> {
    if Silent(e, ks) && y.Got? && y.o.Fall? then y.o.c else None
  }

  lemma Exp2RKRun(x: Start, g: Gen, e: Exp, y: Seen, regs: Regs, base: nat)
    requires ExpOK(g, e) && Delivers(x, g, e, y, regs, base) && Entered(x, g) && NoTemp(g, e)
    requires Exp2RK(g, e).0.k <= x.ks && g.nactvar <= base <= g.freereg && !Exp2RK(g, e).0.err
    ensures var (g', e', rk) := Exp2RK(g, e);
            OperandAt(x, g', y, rk, SilentCarry(e, g.k, y), regs, base)
  {
    Exp2RKCases(g, e);
    Exp2RKOK(g, e);
    Exp2AnyRegOK(g, e);
    if Silent(e, g.k) {
      SilentRun(x, g, e, y, regs, base);
    } else {
      Exp2NextRegRun(x, g, e, y, regs, base);
      Exp2NextRegOK(g, e);
    }
  }

  /** No code: the operand denotes the value wherever the run already was. */
  lemma SilentAt(x: Start, g: Gen, e: Exp, y: Seen, rk: nat, regs: Regs, base: nat)
    requires ExpOK(g, e) && Delivers(x, g, e, y, regs, base) && Idle(g, e.k) && !HasJumps(e)
    requires RK(rk, x.ks, MachineOf(Run(x, g.code)).regs) == ValueOf(x, g, e, MachineOf(Run(x, g.code))).0
    ensures OperandAt(x, g, y, rk, if y.Got? && y.o.Fall? then y.o.c else None, regs, base)
  {
    hide GenOK, JumpList, Exec, RK;
    WhereItIs(x, g, e, y, regs, base);
  }

  lemma SilentRun(x: Start, g: Gen, e: Exp, y: Seen, regs: Regs, base: nat)
    requires ExpOK(g, e) && Delivers(x, g, e, y, regs, base) && NoTemp(g, e) && Silent(e, g.k)
    requires Exp2RK(g, e).0.k <= x.ks && !Exp2RK(g, e).0.err
    ensures var (g', e', rk) := Exp2RK(g, e);
            OperandAt(x, g', y, rk, SilentCarry(e, g.k, y), regs, base)
  {
    hide Exp2RK, Exp2AnyReg, JumpsWithin, NilRanges, JumpList, Apart, Delivers, AddK, Exec;
    Exp2RKCases(g, e);
    if !Inline(e, g.k) {
      Exp2AnyRegOK(g, e);
    } else if !e.k.VK? {
      AddKOK(g, InlineValue(e));
    }
    SilentAt(x, g, e, y, Exp2RK(g, e).2, regs, base);
  }

  // ---------- comparisons ----------

  /** Value and log of the comparison a relation compiles to. */
  function RelValue(op: RelOp, a: Value, b: Value, w: World, log: Log): Seen {
    var (r, l) := Relate(op, a, b, w, log);
    Got(Fall(Bool(r), None), l)
  }

  lemma ComparisonAccepts(op: RelOp, rk1: nat, rk2: nat, x: Start, m: Machine)
    ensures var (yes, log) := Accepts(CompareInstr(OpcodeOf(op), Direct(op), rk1, rk2), x.ks, x.w, m);
            (yes, log) == Relate(op, RK(rk1, x.ks, m.regs), RK(rk2, x.ks, m.regs), x.w, m.log)
  {
  }

  /** The first operand keeps its value while the second is computed. */
  lemma OperandStays(rk: nat, ks: seq<Value>, regs: Regs, regs': Regs, base: nat)
    requires SameBelow(regs', regs, base) && (rk < BITRK ==> rk < base)
    ensures RK(rk, ks, regs') == RK(rk, ks, regs)
  {
  }

  ghost function RelSeen(op: RelOp, v1: Value, y: Seen, w: World): Seen {
    match y
    case Gone(r) => y
    case Got(o, log) => RelValue(op, v1, Final(o), w, log)
  }

  lemma CodeCompDelivers(x: Start, g: Gen, op: RelOp, e1: Exp, rk1: nat, v1: Value, base: nat, e2: Exp, y: Seen, regs: Regs)
    requires ExpOK(g, e2) && NoTemp(g, e2) && Held(g, e1, rk1, base) && Entered(x, g)
    requires Delivers(x, g, e2, y, regs, g.freereg)
    requires y.Got? ==> RK(rk1, x.ks, regs) == v1
    requires !CodeComp(g, OpcodeOf(op), Direct(op), e1, e2).0.err
    requires CodeComp(g, OpcodeOf(op), Direct(op), e1, e2).0.k <= x.ks
    ensures var (g', e') := CodeComp(g, OpcodeOf(op), Direct(op), e1, e2);
            ExpOK(g', e') && Delivers(x, g', e', RelSeen(op, v1, y, x.w), regs, base)
  {
    hide Exp2RK, CodeComp, CondJump, Keeps, Delivers, OperandAt, JumpsWithin, NilRanges, JumpList, Apart, NoDup;
    CodeCompOK(g, OpcodeOf(op), Direct(op), e1, rk1, base, e2);
    var (g2, e2', rk2) := Exp2RK(g, e2);
    Exp2RKOK(g, e2);
    var (g', e') := CodeComp(g, OpcodeOf(op), Direct(op), e1, e2);
    CompareErr(g2.(freereg := base), CompareInstr(OpcodeOf(op), Direct(op), rk1, rk2));
    Exp2RKRun(x, g, e2, y, regs, g.freereg);
    CompareDelivers(x, g2, op, rk1, rk2, v1, SilentCarry(e2, g.k, y), base, y, regs, g.freereg);
  }

  lemma CompareErr(g: Gen, i: Instr)
    ensures CondJump(g, i).0.k == g.k && (g.err ==> CondJump(g, i).0.err)
  {
  }

  lemma CompareDelivers(x: Start, g: Gen, op: RelOp, rk1: nat, rk2: nat, v1: Value, c: Option<Value>, base: nat, y: Seen, regs: Regs, mid: nat)
    requires GenOK(g) && OperandAt(x, g, y, rk2, c, regs, mid) && base <= mid && g.nactvar <= base <= g.freereg
    requires y.Got? ==> RK(rk1, x.ks, regs) == v1
    requires rk1 < BITRK ==> rk1 < mid
    ensures var (g', l) := CondJump(g.(freereg := base), CompareInstr(OpcodeOf(op), Direct(op), rk1, rk2));
            var e' := Exp(VJmp(|g'.code| - 1), [], []);
            ExpOK(g', e') && Delivers(x, g', e', RelSeen(op, v1, y, x.w), regs, base)
  {
    hide JumpsWithin, NilRanges, Exec, Relate, Accepts, RK;
    var h := g.(freereg := base);
    var i := CompareInstr(OpcodeOf(op), Direct(op), rk1, rk2);
    var (g', l) := CondJump(h, i);
    var e' := Exp(VJmp(|g'.code| - 1), [], []);
    CondJumpOK(h, i);
    CompareOK(h, i);
    assert Core(g', e') == Settled(h);
    var p := SpotOf(g, Run(x, g.code));
    assert Arrives(x, h, p);
    SettledRun(x, h, p);
    if y.Got? {
      OperandStays(rk1, x.ks, regs, p.m.regs, mid);
      ComparisonAccepts(op, rk1, rk2, x, p.m);
    } else {
      RunLeavesOpen(g.code, x.ks, x.w, x.q, x.m);
    }
  }

  // ---------- whole expressions ----------

  /** What the compiled expression holds for a run that stood at `p` before it. */
  ghost function SeenOf(s: Expr, ks: seq<Value>, w: World, env: Regs, p: Spot): Seen {
    match p
    case At(m, c) => var (o, log) := Outcome(s, ks, w, env, m.log, c); Got(o, log)
    case Away(r) => Gone(r)
  }

  ghost function RegsAt(p: Spot): Regs {
    if p.At? then p.m.regs else map[]
  }

  ghost predicate Agrees(p: Spot, env: Regs, nactvar: nat) {
    p.At? ==> SameBelow(p.m.regs, env, nactvar)
  }

  lemma DeliversFrom(x: Start, g: Gen, e: Exp, y: Seen, regs: Regs, regs0: Regs, base: nat)
    requires ExpOK(g, e) && Delivers(x, g, e, y, regs, base)
    requires y.Got? ==> SameBelow(regs, regs0, base)
    ensures Delivers(x, g, e, y, regs0, base)
  {
  }

  /** Between the operands of `and`/`or`: on to the second, or away through `out`. */
  ghost function Between(x: Start, g: Gen): Spot {
    SpotOf(g, Run(x, g.code))
  }

  lemma PartedSpot(x: Start, g: Gen, out: seq<nat>, y: Seen, n: Next, regs: Regs, base: nat, env: Regs)
    requires GenOK(g) && Parted(x, g, out, y, n, regs, base) && Apart(g.jpc, out)
    requires y.Got? ==> SameBelow(regs, env, g.nactvar)
    requires g.nactvar <= base
    ensures var p := Between(x, g);
            && Arrives(x, g, p) && Agrees(p, env, g.nactvar)
            && (p.At? <==> y.Got? && n.Go?)
            && (p.At? ==> p.c == n.c && p.m.log == y.log && SameBelow(p.m.regs, regs, base))
  {
  }

  /** The exits of both operands together. */
  lemma JoinedDelivers(x: Start, g2: Gen, out: seq<nat>, y: Seen, n: Next, g: Gen, e: Exp, y2: Seen, g': Gen, e': Exp,
                       isAnd: bool, regs: Regs, base: nat)
    requires GenOK(g2) && JumpList(g2.code, out) && Apart(g2.jpc, out) && Parted(x, g2, out, y, n, regs, base)
    requires ExpOK(g, e) && ExpOK(g', e') && g'.code == g.code && g'.jpc == g.jpc && g'.k == g.k && g'.nactvar == g.nactvar
    requires Keeps(g2, g2.jpc, g, Lists(g, e))
    requires e' == if isAnd then e.(f := e.f + out) else e.(t := e.t + out)
    requires if Between(x, g2).At? then Delivers(x, g, e, y2, regs, base)
             else Run(x, Core(g, e)) == Between(x, g2).r && Elsewhere(Between(x, g2).r, Lists(g, e))
    requires Between(x, g2).At? ==> y2.Got?
    requires Between(x, g2).At? <==> y.Got? && n.Go?
    ensures var y' := if y.Gone? then y else if n.Go? then y2 else Got(if isAnd then ToF(n.c) else ToT(n.c), y.log);
            Delivers(x, g', e', y', regs, base)
  {
    hide JumpsWithin, Exec;
    assert Core(g', e') == Core(g, e);
    var r := Run(x, g2.code);
    RunLeavesOpen(g2.code, x.ks, x.w, x.q, x.m);
    if r.Out? && r.j !in g2.jpc {
      assert OpenAlike(g2.code, g.code, r.j);
    }
  }

  /** A run at `p` before the expression is delivered to its descriptor. */
  ghost predicate Correct(x: Start, g: Gen, s: Expr, env: Regs, p: Spot, g': Gen, e': Exp)
    requires ExpOK(g', e')
  {
    Delivers(x, g', e', SeenOf(s, g.k, x.w, env, p), RegsAt(p), g.freereg)
  }

  /** The state before the second operand of `and` (`or`) and the way a run gets there. */
  lemma AndBetween(x: Start, g: Gen, a: Expr, g1: Gen, ea: Exp, env: Regs, p: Spot)
    requires Compiled(g, a, g1, ea) && Correct(x, g, a, env, p, g1, ea) && Agrees(p, env, g.nactvar)
    requires Entered(x, g1) && !GoIfTrue(g1, ea).0.err && GoIfTrue(g1, ea).0.k <= x.ks
    requires g.nactvar <= g.freereg
    ensures var (g2, ea') := GoIfTrue(g1, ea);
            var y := SeenOf(a, g.k, x.w, env, p);
            var n := if y.Got? then AndNext(ShapeOf(a), y.o) else Go(None);
            var q := Between(x, g2);
            && Parted(x, g2, ea'.f, y, n, RegsAt(p), g.freereg)
            && GenOK(g2) && Arrives(x, g2, q) && Agrees(q, env, g2.nactvar) && Entered(x, g2)
            && (q.At? <==> y.Got? && n.Go?)
            && (q.At? ==> q.c == n.c && q.m.log == y.log && SameBelow(q.m.regs, RegsAt(p), g.freereg))
            && g2.k == Pool(a, g.k)
  {
    hide GoIfTrue, ExpOK, Delivers, Shaped, Arrives, Parted;
    var (g2, ea') := GoIfTrue(g1, ea);
    var y := SeenOf(a, g.k, x.w, env, p);
    var n := if y.Got? then AndNext(ShapeOf(a), y.o) else Go(None);
    GoIfTrueOK(g1, ea);
    GoIfTrueParted(x, g1, ea, ShapeOf(a), y, RegsAt(p), g.freereg);
    PartedSpot(x, g2, ea'.f, y, n, RegsAt(p), g.freereg, env);
  }

  lemma OrBetween(x: Start, g: Gen, a: Expr, g1: Gen, ea: Exp, env: Regs, p: Spot)
    requires Compiled(g, a, g1, ea) && Correct(x, g, a, env, p, g1, ea) && Agrees(p, env, g.nactvar)
    requires Entered(x, g1) && !GoIfFalse(g1, ea).0.err && GoIfFalse(g1, ea).0.k <= x.ks
    requires g.nactvar <= g.freereg
    ensures var (g2, ea') := GoIfFalse(g1, ea);
            var y := SeenOf(a, g.k, x.w, env, p);
            var n := if y.Got? then OrNext(ShapeOf(a), y.o) else Go(None);
            var q := Between(x, g2);
            && Parted(x, g2, ea'.t, y, n, RegsAt(p), g.freereg)
            && GenOK(g2) && Arrives(x, g2, q) && Agrees(q, env, g2.nactvar) && Entered(x, g2)
            && (q.At? <==> y.Got? && n.Go?)
            && (q.At? ==> q.c == n.c && q.m.log == y.log && SameBelow(q.m.regs, RegsAt(p), g.freereg))
            && g2.k == LoadPool(a, Pool(a, g.k))
  {
    hide GoIfFalse, ExpOK, Delivers, Arrives, Parted;
    var (g2, ea') := GoIfFalse(g1, ea);
    var y := SeenOf(a, g.k, x.w, env, p);
    var n := if y.Got? then OrNext(ShapeOf(a), y.o) else Go(None);
    GoIfFalseOK(g1, ea);
    GoIfFalseParted(x, g1, ea, ShapeOf(a), y, RegsAt(p), g.freereg);
    PartedSpot(x, g2, ea'.t, y, n, RegsAt(p), g.freereg, env);
  }

  lemma AndCorrect(x: Start, g: Gen, a: Expr, g1: Gen, ea: Exp, b: Expr, g3: Gen, eb: Exp, env: Regs, p: Spot)
    requires Compiled(g, a, g1, ea) && Correct(x, g, a, env, p, g1, ea) && Agrees(p, env, g.nactvar)
    requires Entered(x, g1) && !GoIfTrue(g1, ea).0.err && GoIfTrue(g1, ea).0.k <= x.ks
    requires g.nactvar <= g.freereg
    requires var g2 := GoIfTrue(g1, ea).0;
             Compiled(g2, b, g3, eb) && Correct(x, g2, b, env, Between(x, g2), g3, eb)
    ensures var (g', e') := JoinAnd(g3, GoIfTrue(g1, ea).1, eb);
            ExpOK(g', e') && Correct(x, g, EAnd(a, b), env, p, g', e')
  {
    hide GoIfTrue, DischargeVars, ExpOK, Delivers, Keeps, Shaped, Arrives, Entered, Parted;
    AndBetween(x, g, a, g1, ea, env, p);
    AndCompiled(g, a, g1, ea, b, g3, eb);
    var (g2, ea') := GoIfTrue(g1, ea);
    GoIfTrueOK(g1, ea);
    var q := Between(x, g2);
    var y := SeenOf(a, g.k, x.w, env, p);
    var n := if y.Got? then AndNext(ShapeOf(a), y.o) else Go(None);
    var y2 := SeenOf(b, g2.k, x.w, env, q);
    DischargeVarsCompiled(g2, b, g3, eb);
    DischargeVarsDelivers(x, g3, eb, y2, RegsAt(q), g2.freereg);
    var (g4, eb') := DischargeVars(g3, eb);
    if q.At? { DeliversFrom(x, g4, eb', y2, RegsAt(q), RegsAt(p), g.freereg); }
    var (g', e') := JoinAnd(g3, ea', eb);
    JoinedDelivers(x, g2, ea'.f, y, n, g4, eb', y2, g', e', true, RegsAt(p), g.freereg);
  }

  lemma OrCorrect(x: Start, g: Gen, a: Expr, g1: Gen, ea: Exp, b: Expr, g3: Gen, eb: Exp, env: Regs, p: Spot)
    requires Compiled(g, a, g1, ea) && Correct(x, g, a, env, p, g1, ea) && Agrees(p, env, g.nactvar)
    requires Entered(x, g1) && !GoIfFalse(g1, ea).0.err && GoIfFalse(g1, ea).0.k <= x.ks
    requires g.nactvar <= g.freereg
    requires var g2 := GoIfFalse(g1, ea).0;
             Compiled(g2, b, g3, eb) && Correct(x, g2, b, env, Between(x, g2), g3, eb)
    ensures var (g', e') := JoinOr(g3, GoIfFalse(g1, ea).1, eb);
            ExpOK(g', e') && Correct(x, g, EOr(a, b), env, p, g', e')
  {
    hide GoIfFalse, DischargeVars, ExpOK, Delivers, Keeps, Shaped, Arrives, Entered, Parted;
    OrBetween(x, g, a, g1, ea, env, p);
    OrCompiled(g, a, g1, ea, b, g3, eb);
    var (g2, ea') := GoIfFalse(g1, ea);
    GoIfFalseOK(g1, ea);
    var q := Between(x, g2);
    var y := SeenOf(a, g.k, x.w, env, p);
    var n := if y.Got? then OrNext(ShapeOf(a), y.o) else Go(None);
    var y2 := SeenOf(b, g2.k, x.w, env, q);
    DischargeVarsCompiled(g2, b, g3, eb);
    DischargeVarsDelivers(x, g3, eb, y2, RegsAt(q), g2.freereg);
    var (g4, eb') := DischargeVars(g3, eb);
    if q.At? { DeliversFrom(x, g4, eb', y2, RegsAt(q), RegsAt(p), g.freereg); }
    var (g', e') := JoinOr(g3, ea', eb);
    JoinedDelivers(x, g2, ea'.t, y, n, g4, eb', y2, g', e', false, RegsAt(p), g.freereg);
  }

  /** Silent operands are exactly the immediate ones of the source account. */
  lemma SilentIsImmediate(g: Gen, e: Exp, s: Expr)
    requires ExpOK(g, e) && NoTemp(g, e) && Shaped(g, e, ShapeOf(s))
    requires (e.t == [] <==> !HasT(s)) && (e.f == [] <==> !HasF(s))
    ensures Silent(e, g.k) <==> Immediate(s, g.k)
  {
    if ShapeOf(s).SStr? {
      var v := Str(ShapeOf(s).s);
      assert IndexOf(g.k, v) == e.k.info;
    }
  }

  /** The state before the second operand of a comparison. */
  lemma RelBetween(x: Start, g: Gen, a: Expr, g1: Gen, ea: Exp, env: Regs, p: Spot)
    requires Compiled(g, a, g1, ea) && Correct(x, g, a, env, p, g1, ea) && Agrees(p, env, g.nactvar)
    requires Entered(x, g1) && !Exp2RK(g1, ea).0.err && Exp2RK(g1, ea).0.k <= x.ks
    requires g.nactvar <= g.freereg
    ensures var (g2, ea', rk) := Exp2RK(g1, ea);
            var y := SeenOf(a, g.k, x.w, env, p);
            var q := Between(x, g2);
            && GenOK(g2) && Arrives(x, g2, q) && Agrees(q, env, g2.nactvar) && Entered(x, g2)
            && Held(g2, ea', rk, g.freereg)
            && g2.k == OperandPool(a, Pool(a, g.k))
            && (q.At? <==> y.Got?) && (y.Gone? ==> q == Away(y.r))
            && (q.At? ==> q.c == OperandCarry(a, Pool(a, g.k), y.o) && q.m.log == y.log
                          && RK(rk, x.ks, q.m.regs) == Final(y.o) && SameBelow(q.m.regs, RegsAt(p), g.freereg))
  {
    hide Exp2RK, ExpOK, Delivers, Shaped, Arrives, Immediate, Silent;
    var y := SeenOf(a, g.k, x.w, env, p);
    Exp2RKOK(g1, ea);
    Exp2RKRun(x, g1, ea, y, RegsAt(p), g.freereg);
    SilentIsImmediate(g1, ea, a);
    OperandPooled(g1, ea, a);
  }

  lemma RelCorrect(x: Start, g: Gen, op: RelOp, a: Expr, g1: Gen, ea: Exp, b: Expr, g3: Gen, eb: Exp, env: Regs, p: Spot)
    requires Compiled(g, a, g1, ea) && Correct(x, g, a, env, p, g1, ea) && Agrees(p, env, g.nactvar)
    requires Entered(x, g1) && !Exp2RK(g1, ea).0.err && Exp2RK(g1, ea).0.k <= x.ks
    requires g.nactvar <= g.freereg
    requires var g2 := Exp2RK(g1, ea).0;
             Compiled(g2, b, g3, eb) && Correct(x, g2, b, env, Between(x, g2), g3, eb) && Entered(x, g3)
    requires !CodeComp(g3, OpcodeOf(op), Direct(op), Exp2RK(g1, ea).1, eb).0.err
    requires CodeComp(g3, OpcodeOf(op), Direct(op), Exp2RK(g1, ea).1, eb).0.k <= x.ks
    ensures var (g', e') := CodeComp(g3, OpcodeOf(op), Direct(op), Exp2RK(g1, ea).1, eb);
            ExpOK(g', e') && Correct(x, g, ERel(op, a, b), env, p, g', e')
  {
    hide Exp2RK, CodeComp, ExpOK, Delivers, Entered, Shaped, OpenAlike, From, Held, SeenOf, OperandPool, Relate;
    RelBetween(x, g, a, g1, ea, env, p);
    var (g2, ea', rk) := Exp2RK(g1, ea);
    HeldLater(g2, ea', rk, g.freereg, g3);
    var q := Between(x, g2);
    var ya := SeenOf(a, g.k, x.w, env, p);
    var yb := SeenOf(b, g2.k, x.w, env, q);
    var v1 := if ya.Got? then Final(ya.o) else Nil;
    RelSeenOf(op, a, b, g.k, x.w, env, p, q);
    CodeCompDelivers(x, g3, op, ea', rk, v1, g.freereg, eb, yb, RegsAt(q));
    var (g', e') := CodeComp(g3, OpcodeOf(op), Direct(op), ea', eb);
    DeliversFrom(x, g', e', RelSeen(op, v1, yb, x.w), RegsAt(q), RegsAt(p), g.freereg);
  }

  /** The source account of a relation, operand by operand. */
  lemma RelSeenOf(op: RelOp, a: Expr, b: Expr, ks: seq<Value>, w: World, env: Regs, p: Spot, q: Spot)
    requires var y := SeenOf(a, ks, w, env, p);
             && (q.At? <==> y.Got?) && (y.Gone? ==> q == Away(y.r))
             && (q.At? ==> q.c == OperandCarry(a, Pool(a, ks), y.o) && q.m.log == y.log)
    ensures var y := SeenOf(a, ks, w, env, p);
            var y2 := SeenOf(b, OperandPool(a, Pool(a, ks)), w, env, q);
            && SeenOf(ERel(op, a, b), ks, w, env, p) == RelSeen(op, if y.Got? then Final(y.o) else Nil, y2, w)
            && (y2.Got? <==> q.At?)
  {
    hide Final, OperandCarry, OperandPool, Pool, Relate;
  }
}
