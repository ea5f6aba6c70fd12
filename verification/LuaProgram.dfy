/** The statements an expression is compiled for: `return s` and the condition of an `if`,
    behind any code. */
module LuaProgram {
  import opened LuaSource
  import opened LuaMachine
  import opened LuaCodegen
  import opened LuaOutcome
  import opened LuaRun
  import opened LuaInvariant
  import opened LuaOperands
  import opened LuaDelivery
  import opened LuaFlow
  import opened LuaRegister
  import opened LuaCorrect
  import opened LuaTheorem
  import opened LuaExact
  import opened LuaNecessary

  /** A new function with `nactvar` parameters, an error when there are too many. */
  function NewFunction(nactvar: nat): Gen {
    Gen([], [], -1, nactvar, if nactvar < 2 then 2 else nactvar, nactvar, [], nactvar > MAXVARS)
  }

  // ---------- return ----------

  lemma ReturnRun(x: Start, g: Gen, reg: nat, p: Spot)
    requires GenOK(g) && Arrives(x, g, p)
    ensures Run(x, Emit(g, RETURN(reg, 2)).code) == if p.At? then Returned([Get(p.m.regs, reg)], p.m.log) else p.r
  {
    var i := RETURN(reg, 2);
    SettledOK(g);
    SettledRun(x, g, p);
    LastNotTest(Settled(g), g.lasttarget);
    TailRun(x, Settled(g), [i], p);
    if p.At? { OneResult(p.m.regs, reg); }
  }

  /** `luaK_exp2anyreg`: the final value is in the register it names, whether it was put there
      now or owns that register. */
  lemma Exp2AnyRegRun(x: Start, g: Gen, e: Exp, y: Seen, regs: Regs, base: nat)
    requires ExpOK(g, e) && Delivers(x, g, e, y, regs, base) && Entered(x, g) && TopTemp(g, e)
    requires Exp2AnyReg(g, e).0.k <= x.ks && g.nactvar <= base <= Level(g, e) && !Exp2AnyReg(g, e).0.err
    ensures var (g', e') := Exp2AnyReg(g, e);
            var p := SpotOf(g', Run(x, g'.code));
            && GenOK(g') && e'.k.VNonReloc? && Arrives(x, g', p)
            && match y
               case Gone(r) => p == Away(r)
               case Got(o, log) =>
                 p.At? && p.m.log == log && Get(p.m.regs, e'.k.reg) == Final(o) && SameBelow(p.m.regs, regs, base)
  {
    hide Exp2AnyReg, Exp2NextReg, Exp2Reg, Level, JumpsWithin, NilRanges, NoDup, Opens, Exec;
    AnyRegCases(g, e);
    Exp2AnyRegOK(g, e);
    if (e.k.VLocal? || e.k.VNonReloc?) && !HasJumps(e) {
      WhereItIs(x, g, e, y, regs, base);
    } else if e.k.VNonReloc? && e.k.reg >= g.nactvar {
      OwnLevel(g, e);
      Exp2RegOK(g, e, e.k.reg);
      Exp2RegRun(x, g, e, e.k.reg, y, regs, base);
    } else {
      Exp2NextRegRun(x, g, e, y, regs, base);
      Exp2NextRegOK(g, e);
    }
  }

  lemma OwnLevel(g: Gen, e: Exp)
    requires TopTemp(g, e) && e.k.VNonReloc? && e.k.reg >= g.nactvar
    ensures Level(g, e) == e.k.reg < g.freereg
  {
  }

  lemma ReturnKeeps(g: Gen, i: Instr)
    ensures Emit(g, i).k == g.k && Emit(g, i).nactvar == g.nactvar && (g.err ==> Emit(g, i).err)
  {
  }

  /** What a run at `p` returns. */
  ghost function ReturnOf(s: Expr, ks: seq<Value>, w: World, env: Regs, p: Spot): Result {
    match SeenOf(s, ks, w, env, p)
    case Got(o, log) => Returned([Final(o)], log)
    case Gone(r) => r
  }

  /** `return s`, compiled behind any code: every run that reaches it, over whatever pending
      jump, returns what `Outcome` says after exactly the events `Outcome` lists; a run that
      is elsewhere stays there. */
  lemma ReturnDelivers(x: Start, g: Gen, s: Expr, env: Regs, p: Spot)
    requires GenOK(g) && Scoped(s, g.nactvar) && Entered(x, g)
    requires Arrives(x, g, p) && Agrees(p, env, g.nactvar)
    requires !CompileReturn(g, s).err && CompileReturn(g, s).k <= x.ks
    ensures Run(x, CompileReturn(g, s).code) == ReturnOf(s, g.k, x.w, env, p)
  {
    hide Compile, Outcome, Emit, Exp2AnyReg, Arrives, Untouched, From, JumpList, KindOK, Exec;
    var (g1, e1) := Compile(g, s);
    var (g2, e2) := Exp2AnyReg(g1, e1);
    ReturnKeeps(g2, RETURN(if e2.k.VNonReloc? then e2.k.reg else 0, 2));
    CompileOK(g, s);
    Exp2AnyRegOK(g1, e1);
    PrefixOf(g1.k, g2.k, x.ks);
    OperandFacts(x, g, s, g1, e1);
    CompileCorrect(x, g, s, env, p);
    Exp2AnyRegRun(x, g1, e1, SeenOf(s, g.k, x.w, env, p), RegsAt(p), g.freereg);
    ReturnRun(x, g2, e2.k.reg, SpotOf(g2, Run(x, g2.code)));
  }

  /** A run is about to execute `s`, in an environment `env`, over pending jumps that offer
      `c`. */
  ghost predicate Enters(x: Start, g: Gen, env: Regs, m: Machine, c: Option<Value>) {
    Entered(x, g) && Arrives(x, g, At(m, c)) && SameBelow(m.regs, env, g.nactvar)
  }

  /** The run returns the short-circuit value of `s`, after the same reads and comparisons in
      the same order. */
  ghost predicate ReturnsRight(x: Start, g: Gen, s: Expr, env: Regs, log: Log) {
    var (v, log') := Eval(s, x.w, env, log);
    Run(x, CompileReturn(g, s).code) == Returned([v], log')
  }

  /** The law, behind any code: a return entered over pending jumps that offer `c` is right
      when the expression is clean for what they offer. */
  lemma CleanReturnsRight(x: Start, g: Gen, s: Expr, env: Regs, m: Machine, c: Option<Value>)
    requires GenOK(g) && Scoped(s, g.nactvar) && Enters(x, g, env, m, c)
    requires !CompileReturn(g, s).err && CompileReturn(g, s).k <= x.ks
    requires Clean(s, g.k, ClassOf(c))
    ensures ReturnsRight(x, g, s, env, m.log)
  {
    hide CompileReturn, Outcome, Eval, Clean;
    ReturnDelivers(x, g, s, env, At(m, c));
    CleanIsRight(s, g.k, x.w, env, m.log, c);
  }

  /** ... and only then: for an expression that is not clean for a class there are a world,
      locals and an offered value of the class with which every run goes wrong.  When its
      comparisons are between globals the world compares as the language does. */
  lemma UncleanReturnsWrong(law: bool, g: Gen, s: Expr, cl: Class, log: Log) returns (w: World, env: Regs, c: Option<Value>)
    requires GenOK(g) && Scoped(s, g.nactvar) && !CompileReturn(g, s).err
    requires !Clean(s, g.k, cl) && (law ==> ComparesGlobals(s))
    ensures ClassOf(c) == cl && env.Keys <= Locals(s) && (law ==> Lawful(w))
    ensures forall x: Start, m: Machine | x.w == w && m.log == log && Enters(x, g, env, m, c) && CompileReturn(g, s).k <= x.ks ::
              !ReturnsRight(x, g, s, env, log)
  {
    hide CompileReturn, Outcome, Eval, GenOK, Arrives, Clean;
    w, env, c := NotCleanIsWrong(law, s, g.k, cl, log);
    forall x: Start, m: Machine | x.w == w && m.log == log && Enters(x, g, env, m, c) && CompileReturn(g, s).k <= x.ks
      ensures !ReturnsRight(x, g, s, env, log)
    {
      ReturnDelivers(x, g, s, env, At(m, c));
    }
  }

  // ---------- conditions ----------

  /** `cond` of the parser: the exits taken when the condition is false. */
  function CompileCond(g: Gen, s: Expr): (r: (Gen, seq<nat>))
    ensures g.err ==> r.0.err
  {
    var (g1, e1) := Compile(g, s);
    var (g2, e2) := GoIfTrue(g1, if e1.k.VNil? then e1.(k := VFalse) else e1);
    (g2, e2.f)
  }

  function NilAsFalse(sh: Shape): Shape {
    if sh.SNil? then SFalse else sh
  }

  function CondNext(s: Expr, o: Exit): Next {
    AndNext(NilAsFalse(ShapeOf(s)), o)
  }

  /** The state after a condition: one list goes on in the block, `out` leaves. */
  ghost predicate CondReady(g: Gen, s: Expr, g': Gen, out: seq<nat>) {
    && GenOK(g') && JumpList(g'.code, out) && Apart(g'.jpc, out)
    && Keeps(g, g.jpc, g', g'.jpc + out)
    && g'.freereg == g.freereg && g'.lasttarget == |g'.code| && g'.k == Pool(s, g.k)
  }

  lemma CondOK(g: Gen, s: Expr)
    requires GenOK(g) && Scoped(s, g.nactvar) && !CompileCond(g, s).0.err
    ensures var (g', out) := CompileCond(g, s); CondReady(g, s, g', out)
  {
    hide Compile, GoIfTrue, Level, Untouched, From;
    var (g1, e1) := Compile(g, s);
    CompileOK(g, s);
    NilIsFalse(g1, e1);
    var e1' := if e1.k.VNil? then e1.(k := VFalse) else e1;
    NoTempLevel(g1, e1');
    GoIfTrueOK(g1, e1');
    var (g', e2) := GoIfTrue(g1, e1');
    KeepsOn(g, g.jpc, g1, Lists(g1, e1), g', g'.jpc + e2.f);
  }

  lemma NilIsFalse(g: Gen, e: Exp)
    requires ExpOK(g, e) && NoTemp(g, e)
    ensures var e' := if e.k.VNil? then e.(k := VFalse) else e;
            ExpOK(g, e') && NoTemp(g, e') && Lists(g, e') == Lists(g, e)
  {
  }

  /** Every run that reaches a condition goes on into the block or leaves through the false
      exits as `CondNext` says. */
  lemma CondDelivers(x: Start, g: Gen, s: Expr, env: Regs, p: Spot)
    requires GenOK(g) && Scoped(s, g.nactvar) && Entered(x, g)
    requires Arrives(x, g, p) && Agrees(p, env, g.nactvar)
    requires !CompileCond(g, s).0.err && CompileCond(g, s).0.k <= x.ks
    ensures var (g', out) := CompileCond(g, s);
            var y := SeenOf(s, g.k, x.w, env, p);
            Parted(x, g', out, y, if y.Got? then CondNext(s, y.o) else Go(None), RegsAt(p), g.freereg)
  {
    hide Compile, Outcome, GoIfTrue, Level, Untouched, From, JumpList, Arrives, Parted, Exec;
    var (g1, e1) := Compile(g, s);
    var e1' := if e1.k.VNil? then e1.(k := VFalse) else e1;
    CompileOK(g, s);
    CompiledOK(g, s, g1, e1);
    NilIsFalse(g1, e1);
    NoTempLevel(g1, e1');
    GoIfTrueOK(g1, e1');
    OperandFacts(x, g, s, g1, e1);
    PrefixOf(g1.k, CompileCond(g, s).0.k, x.ks);
    CompileCorrect(x, g, s, env, p);
    CondParted(x, g1, e1, ShapeOf(s), SeenOf(s, g.k, x.w, env, p), RegsAt(p), g.freereg);
  }

  lemma CondParted(x: Start, g: Gen, e: Exp, sh: Shape, y: Seen, regs: Regs, base: nat)
    requires ExpOK(g, e) && Delivers(x, g, e, y, regs, base) && Entered(x, g) && NoTemp(g, e) && Shaped(g, e, sh)
    requires var e' := if e.k.VNil? then e.(k := VFalse) else e;
             !GoIfTrue(g, e').0.err && GoIfTrue(g, e').0.k <= x.ks
    requires g.nactvar <= base <= g.freereg
    ensures var (g', e2) := GoIfTrue(g, if e.k.VNil? then e.(k := VFalse) else e);
            Parted(x, g', e2.f, y, if y.Got? then AndNext(NilAsFalse(sh), y.o) else Go(None), regs, base)
  {
    hide GoIfTrue, GenOK, JumpList;
    if e.k.VNil? {
      var e' := e.(k := VFalse);
      var y' := if y.Got? && y.o.Fall? then Got(Fall(Bool(false), y.o.c), y.log) else y;
      assert Core(g, e') == Core(g, e);
      GoIfTrueParted(x, g, e', SFalse, y', regs, base);
    } else {
      GoIfTrueParted(x, g, e, sh, y, regs, base);
    }
  }

  /** A run whose comparisons get their own operands performs the right events. */
  lemma RightWay(s: Expr, ks: seq<Value>, w: World, env: Regs, log: Log, c: Option<Value>) returns (way: May)
    requires ComparesClean(s, ks, ClassOf(c))
    ensures var (o, l) := Outcome(s, ks, w, env, log, c);
            var (v, l') := Eval(s, w, env, log);
            l == l' && Describes(way, ShapeOf(s), o, l, v, l) && !way.MWrong?
  {
    var on := set r | r in Locals(s) && Truthy(Get(env, r));
    way := Track(s, ks, on, w, env, log, c);
  }

  lemma RightNext(s: Expr, way: May, o: Exit, l: Log, v: Value)
    requires Describes(way, ShapeOf(s), o, l, v, l) && !way.MWrong?
    ensures CondNext(s, o).Go? <==> Truthy(v)
  {
  }

  /** The run goes on into the block exactly when the short-circuit value is true, and else
      leaves through the list of false exits, after the right events and with all registers
      in use as they were. */
  ghost predicate DecidesRight(x: Start, g: Gen, s: Expr, env: Regs, m: Machine) {
    var (g', out) := CompileCond(g, s);
    var (v, log) := Eval(s, x.w, env, m.log);
    var r := Run(x, g'.code);
    var p := SpotOf(g', r);
    if Truthy(v) then Arrives(x, g', p) && p.At? && p.m.log == log && SameBelow(p.m.regs, m.regs, g.freereg)
    else r.Out? && r.j in out && r.m.log == log && SameBelow(r.m.regs, m.regs, g.freereg)
  }

  /** As a condition every expression is right, clean or not, as long as its comparisons get
      their own operands; this holds behind any code and over any pending jumps. */
  lemma CondIsRight(x: Start, g: Gen, s: Expr, env: Regs, m: Machine, c: Option<Value>)
    requires GenOK(g) && Scoped(s, g.nactvar) && Enters(x, g, env, m, c)
    requires !CompileCond(g, s).0.err && CompileCond(g, s).0.k <= x.ks
    requires ComparesClean(s, g.k, ClassOf(c))
    ensures DecidesRight(x, g, s, env, m)
  {
    hide CompileCond, Outcome, Eval, Describes, CondNext, ComparesClean, JumpsWithin, JumpList, Exec;
    var (o, log) := Outcome(s, g.k, x.w, env, m.log, c);
    var way := RightWay(s, g.k, x.w, env, m.log, c);
    RightNext(s, way, o, log, Eval(s, x.w, env, m.log).0);
    CondDelivers(x, g, s, env, At(m, c));
  }

  /** ... and only then: when some comparison can get a foreign operand there are a world,
      locals and an offered value with which every run performs wrong events. */
  lemma CondIsWrong(g: Gen, s: Expr, cl: Class, log: Log) returns (w: World, env: Regs, c: Option<Value>)
    requires GenOK(g) && Scoped(s, g.nactvar) && !CompileCond(g, s).0.err
    requires !ComparesClean(s, g.k, cl)
    ensures ClassOf(c) == cl
    ensures forall x: Start, m: Machine | x.w == w && m.log == log && Enters(x, g, env, m, c) && CompileCond(g, s).0.k <= x.ks ::
              !DecidesRight(x, g, s, env, m)
  {
    hide CompileCond, Outcome, Eval, GenOK, ComparesClean;
    w, env, c := ComparesUncleanIsWrong(s, g.k, cl, log);
    forall x: Start, m: Machine | x.w == w && m.log == log && Enters(x, g, env, m, c) && CompileCond(g, s).0.k <= x.ks
      ensures !DecidesRight(x, g, s, env, m)
    {
      CondDelivers(x, g, s, env, At(m, c));
    }
  }
}
