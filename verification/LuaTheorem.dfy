/** The compiled code computes, for every expression, world and run, exactly `Outcome`. */
module LuaTheorem {
  import opened LuaSource
  import opened LuaMachine
  import opened LuaCodegen
  import opened LuaOutcome
  import opened LuaRun
  import opened LuaInvariant
  import opened LuaOperands
  import opened LuaDelivery
  import opened LuaFlow
  import opened LuaCorrect

  lemma EnteredKept(x: Start, g: Gen, l: seq<nat>, g': Gen, l': seq<nat>)
    requires Entered(x, g) && Keeps(g, l, g', l') && g'.lasttarget <= |g'.code|
    ensures Entered(x, g')
  {
  }

  /** A descriptor for which nothing was emitted stands for its value where the run is. */
  lemma LeafDelivers(x: Start, g: Gen, p: Spot, g': Gen, e: Exp, v: Value, c: Option<Value>, log: Log)
    requires Arrives(x, g, p) && ExpOK(g', e) && g'.code == g.code && g'.jpc == g.jpc
    requires e.t == [] && e.f == [] && !Unfinished(e.k)
    requires p.At? ==> ValueOf(x, g', e, p.m) == (v, log) && (Idle(g', e.k) ==> c == p.c)
    ensures Delivers(x, g', e, if p.At? then Got(Fall(v, c), log) else Gone(p.r), RegsAt(p), g.freereg)
  {
    hide GenOK, Exec;
    assert Core(g', e) == g'.code;
  }

  lemma LeafValue(x: Start, g: Gen, s: Expr, env: Regs, m: Machine, c: Option<Value>)
    requires GenOK(g) && Scoped(s, g.nactvar) && Leaf(s) && SameBelow(m.regs, env, g.nactvar)
    requires Compile(g, s).0.k <= x.ks && ExpOK(Compile(g, s).0, Compile(g, s).1)
    ensures var (g', e') := Compile(g, s);
            var (o, log) := Outcome(s, g.k, x.w, env, m.log, c);
            && g'.code == g.code && g'.jpc == g.jpc && e'.t == [] && e'.f == [] && !Unfinished(e'.k)
            && o.Fall? && ValueOf(x, g', e', m) == (o.v, log) && (Idle(g', e'.k) ==> o.c == c)
  {
    hide Compile, Outcome, ValueOf, GenOK, ExpOK;
    match s
    case EStr(str) => NamedValue(x, g, s, str, env, m, c);
    case EGlobal(name) => NamedValue(x, g, s, name, env, m, c);
    case _ => PlainValue(x, g, s, env, m, c);
  }

  lemma NamedValue(x: Start, g: Gen, s: Expr, name: string, env: Regs, m: Machine, c: Option<Value>)
    requires GenOK(g) && (s == EStr(name) || s == EGlobal(name))
    requires Compile(g, s).0.k <= x.ks && ExpOK(Compile(g, s).0, Compile(g, s).1)
    ensures var (g', e') := Compile(g, s);
            var (o, log) := Outcome(s, g.k, x.w, env, m.log, c);
            && g'.code == g.code && g'.jpc == g.jpc && e'.t == [] && e'.f == [] && !Unfinished(e'.k)
            && o.Fall? && ValueOf(x, g', e', m) == (o.v, log) && (Idle(g', e'.k) ==> o.c == c)
  {
    hide GenOK, ExpOK, AddK;
    AddKOK(g, Str(name));
  }

  lemma PlainValue(x: Start, g: Gen, s: Expr, env: Regs, m: Machine, c: Option<Value>)
    requires Scoped(s, g.nactvar) && Leaf(s) && SameBelow(m.regs, env, g.nactvar) && !s.EStr? && !s.EGlobal?
    requires ExpOK(Compile(g, s).0, Compile(g, s).1)
    ensures var (g', e') := Compile(g, s);
            var (o, log) := Outcome(s, g.k, x.w, env, m.log, c);
            && g'.code == g.code && g'.jpc == g.jpc && e'.t == [] && e'.f == [] && !Unfinished(e'.k)
            && o.Fall? && ValueOf(x, g', e', m) == (o.v, log) && (Idle(g', e'.k) ==> o.c == c)
  {
    hide GenOK, ExpOK;
  }

  lemma LeafCorrect(x: Start, g: Gen, s: Expr, env: Regs, p: Spot)
    requires GenOK(g) && Scoped(s, g.nactvar) && Leaf(s) && Arrives(x, g, p) && Agrees(p, env, g.nactvar)
    requires Compile(g, s).0.k <= x.ks
    ensures var (g', e') := Compile(g, s); ExpOK(g', e') && Correct(x, g, s, env, p, g', e')
  {
    hide Compile, Outcome, GenOK, Keeps, Delivers, ValueOf, Arrives;
    LeafCompiled(g, s);
    var (g', e') := Compile(g, s);
    var m, c := if p.At? then p.m else Machine(env, []), if p.At? then p.c else None;
    LeafValue(x, g, s, env, m, c);
    var (o, log) := Outcome(s, g.k, x.w, env, m.log, c);
    LeafDelivers(x, g, p, g', e', o.v, o.c, log);
  }

  lemma CompiledOK(g: Gen, s: Expr, g1: Gen, e1: Exp)
    requires Compiled(g, s, g1, e1)
    ensures ExpOK(g1, e1) && NoTemp(g1, e1)
  {
  }

  lemma ParenCorrect(x: Start, g: Gen, s: Expr, g1: Gen, e1: Exp, env: Regs, p: Spot)
    requires Compiled(g, s, g1, e1) && Correct(x, g, s, env, p, g1, e1)
    ensures var (g', e') := DischargeVars(g1, e1); ExpOK(g', e') && Correct(x, g, EParen(s), env, p, g', e')
  {
    hide DischargeVars, JumpsWithin, NilRanges, NoDup, Delivers;
    DischargeVarsDelivers(x, g1, e1, SeenOf(s, g.k, x.w, env, p), RegsAt(p), g.freereg);
  }

  lemma NotCorrect(x: Start, g: Gen, s: Expr, g1: Gen, e1: Exp, env: Regs, p: Spot)
    requires Compiled(g, s, g1, e1) && Correct(x, g, s, env, p, g1, e1) && Entered(x, g1) && g.nactvar <= g.freereg
    requires !CodeNot(g1, e1).0.err && CodeNot(g1, e1).0.k <= x.ks
    ensures var (g', e') := CodeNot(g1, e1); ExpOK(g', e') && Correct(x, g, ENot(s), env, p, g', e')
  {
    CodeNotDelivers(x, g1, e1, ShapeOf(s), SeenOf(s, g.k, x.w, env, p), RegsAt(p), g.freereg);
  }

  /** The constant table only grows, so what a later state needs covers the earlier ones. */
  lemma OperandFacts(x: Start, g: Gen, s: Expr, g1: Gen, e1: Exp)
    requires GenOK(g) && Entered(x, g) && Compiled(g, s, g1, e1)
    ensures Entered(x, g1) && g.nactvar <= g.freereg && g1.nactvar == g.nactvar && g.k <= g1.k && GenOK(g1)
  {
    EnteredKept(x, g, g.jpc, g1, Lists(g1, e1));
  }

  lemma PrefixOf(a: seq<Value>, b: seq<Value>, c: seq<Value>)
    requires a <= b && b <= c
    ensures a <= c
  {
  }

  /** For every expression, every state of the code generator it can start in, every world
      and every run that reaches the code before it: the compiled expression delivers
      exactly `Outcome`, with the same events in the same order, and keeps every register
      in use. */
  lemma {:induction false} CompileCorrect(x: Start, g: Gen, s: Expr, env: Regs, p: Spot)
    requires GenOK(g) && Scoped(s, g.nactvar) && Entered(x, g)
    requires Arrives(x, g, p) && Agrees(p, env, g.nactvar)
    requires !Compile(g, s).0.err && Compile(g, s).0.k <= x.ks
    ensures var (g', e') := Compile(g, s); ExpOK(g', e') && Correct(x, g, s, env, p, g', e')
    decreases s
  {
    hide Compile, DischargeVars, CodeNot, GenOK, Correct, Arrives, Agrees, Entered, ExpOK, Keeps, Outcome;
    match s
    case EParen(e) =>
      var (g1, e1) := Compile(g, e);
      ParenCalls(g, e);
      CompileOK(g, e);
      CompiledOK(g, e, g1, e1);
      DischargeVarsOK(g1, e1);
      CompileCorrect(x, g, e, env, p);
      ParenCorrect(x, g, e, g1, e1, env, p);
    case ENot(e) =>
      var (g1, e1) := Compile(g, e);
      NotCalls(g, e);
      CompileOK(g, e);
      CompiledOK(g, e, g1, e1);
      OperandFacts(x, g, e, g1, e1);
      CodeNotOK(g1, e1);
      CompileCorrect(x, g, e, env, p);
      NotCorrect(x, g, e, g1, e1, env, p);
    case EAnd(a, b) => AndCase(x, g, a, b, env, p);
    case EOr(a, b) => OrCase(x, g, a, b, env, p);
    case ERel(op, a, b) => RelCase(x, g, op, a, b, env, p);
    case _ => LeafCorrect(x, g, s, env, p);
  }

  lemma JoinKeepsConstants(g: Gen, e1: Exp, e2: Exp)
    ensures JoinAnd(g, e1, e2).0.k == g.k && JoinOr(g, e1, e2).0.k == g.k
  {
    hide Patch;
  }

  lemma {:induction false} AndCase(x: Start, g: Gen, a: Expr, b: Expr, env: Regs, p: Spot)
    requires GenOK(g) && Scoped(EAnd(a, b), g.nactvar) && Entered(x, g)
    requires Arrives(x, g, p) && Agrees(p, env, g.nactvar)
    requires !Compile(g, EAnd(a, b)).0.err && Compile(g, EAnd(a, b)).0.k <= x.ks
    ensures var (g', e') := Compile(g, EAnd(a, b)); ExpOK(g', e') && Correct(x, g, EAnd(a, b), env, p, g', e')
    decreases EAnd(a, b), 0
  {
    hide Compile, GoIfTrue, JoinAnd, Untouched, From, GenOK, ExpOK, Shaped, Pool, LoadPool, Correct, Arrives, Agrees, Entered, Outcome;
    AndCalls(g, a, b);
    var (g1, ea) := Compile(g, a);
    var (g2, ea') := GoIfTrue(g1, ea);
    var (g3, eb) := Compile(g2, b);
    CompileOK(g, a);
    OperandFacts(x, g, a, g1, ea);
    GoIfTrueOK(g1, ea);
    CompileOK(g2, b);
    AndCompiled(g, a, g1, ea, b, g3, eb);
    JoinKeepsConstants(g3, ea', eb);
    PrefixOf(g2.k, g3.k, x.ks);
    PrefixOf(g1.k, g2.k, x.ks);
    CompileCorrect(x, g, a, env, p);
    AndBetween(x, g, a, g1, ea, env, p);
    CompileCorrect(x, g2, b, env, Between(x, g2));
    AndCorrect(x, g, a, g1, ea, b, g3, eb, env, p);
  }

  lemma {:induction false} OrCase(x: Start, g: Gen, a: Expr, b: Expr, env: Regs, p: Spot)
    requires GenOK(g) && Scoped(EOr(a, b), g.nactvar) && Entered(x, g)
    requires Arrives(x, g, p) && Agrees(p, env, g.nactvar)
    requires !Compile(g, EOr(a, b)).0.err && Compile(g, EOr(a, b)).0.k <= x.ks
    ensures var (g', e') := Compile(g, EOr(a, b)); ExpOK(g', e') && Correct(x, g, EOr(a, b), env, p, g', e')
    decreases EOr(a, b), 0
  {
    hide Compile, GoIfFalse, JoinOr, Untouched, From, GenOK, ExpOK, Shaped, Pool, LoadPool, Correct, Arrives, Agrees, Entered, Outcome;
    OrCalls(g, a, b);
    var (g1, ea) := Compile(g, a);
    var (g2, ea') := GoIfFalse(g1, ea);
    var (g3, eb) := Compile(g2, b);
    CompileOK(g, a);
    OperandFacts(x, g, a, g1, ea);
    GoIfFalseOK(g1, ea);
    CompileOK(g2, b);
    OrCompiled(g, a, g1, ea, b, g3, eb);
    JoinKeepsConstants(g3, ea', eb);
    PrefixOf(g2.k, g3.k, x.ks);
    PrefixOf(g1.k, g2.k, x.ks);
    CompileCorrect(x, g, a, env, p);
    OrBetween(x, g, a, g1, ea, env, p);
    CompileCorrect(x, g2, b, env, Between(x, g2));
    OrCorrect(x, g, a, g1, ea, b, g3, eb, env, p);
  }

  lemma {:induction false} RelCase(x: Start, g: Gen, op: RelOp, a: Expr, b: Expr, env: Regs, p: Spot)
    requires GenOK(g) && Scoped(ERel(op, a, b), g.nactvar) && Entered(x, g)
    requires Arrives(x, g, p) && Agrees(p, env, g.nactvar)
    requires !Compile(g, ERel(op, a, b)).0.err && Compile(g, ERel(op, a, b)).0.k <= x.ks
    ensures var (g', e') := Compile(g, ERel(op, a, b)); ExpOK(g', e') && Correct(x, g, ERel(op, a, b), env, p, g', e')
    decreases ERel(op, a, b), 0
  {
    hide Compile, Exp2RK, CodeComp, Level, Untouched, From, GenOK, ExpOK, Shaped, Pool, Correct, Arrives, Agrees, Entered, Outcome;
    RelCalls(g, op, a, b);
    var (g1, ea) := Compile(g, a);
    var (g2, ea', rk) := Exp2RK(g1, ea);
    var (g3, eb) := Compile(g2, b);
    CompileOK(g, a);
    OperandFacts(x, g, a, g1, ea);
    NoTempLevel(g1, ea);
    Exp2RKOK(g1, ea);
    CompileOK(g2, b);
    HeldLater(g2, ea', rk, g.freereg, g3);
    NoTempLevel(g3, eb);
    CodeCompOK(g3, OpcodeOf(op), Direct(op), ea', rk, g.freereg, eb);
    PrefixOf(g3.k, Compile(g, ERel(op, a, b)).0.k, x.ks);
    PrefixOf(g2.k, g3.k, x.ks);
    PrefixOf(g1.k, g2.k, x.ks);
    CompileCorrect(x, g, a, env, p);
    RelBetween(x, g, a, g1, ea, env, p);
    CompileCorrect(x, g2, b, env, Between(x, g2));
    OperandFacts(x, g2, b, g3, eb);
    RelCorrect(x, g, op, a, g1, ea, b, g3, eb, env, p);
  }
}
