/** Function bodies: local declarations, conditionals and returns, one after the other.  What
    is pending at the end of a statement is pending at the start of the next. */
module LuaBlock {
  import opened LuaSource
  import opened LuaMachine
  import opened LuaCodegen
  import opened LuaOutcome
  import opened LuaRun
  import opened LuaInvariant
  import opened LuaOperands
  import opened LuaDelivery
  import opened LuaFlow
  import opened LuaCorrect
  import opened LuaTheorem
  import opened LuaProgram

  /** `return e`; `local x = e`; `if cond then body end`; `if cond then end`.  A body ends with
      a return. */
  datatype Block =
    | Return(e: Expr)
    | Local(e: Expr, rest: Block)
    | If(cond: Expr, body: Block, rest: Block)
    | IfEmpty(cond: Expr, rest: Block)

  predicate ScopedBlock(b: Block, nactvar: nat) {
    match b
    case Return(e) => Scoped(e, nactvar)
    case Local(e, rest) => Scoped(e, nactvar) && ScopedBlock(rest, nactvar + 1)
    case If(s, body, rest) => Scoped(s, nactvar) && ScopedBlock(body, nactvar) && ScopedBlock(rest, nactvar)
    case IfEmpty(s, rest) => Scoped(s, nactvar) && ScopedBlock(rest, nactvar)
  }

  /** The meaning of a body: the value it returns and the events before. */
  function EvalBlock(b: Block, nactvar: nat, w: World, env: Regs, log: Log): (Value, Log) {
    match b
    case Return(e) => Eval(e, w, env, log)
    case Local(e, rest) =>
      var (v, l) := Eval(e, w, env, log);
      EvalBlock(rest, nactvar + 1, w, env[nactvar := v], l)
    case If(s, body, rest) =>
      var (v, l) := Eval(s, w, env, log);
      if Truthy(v) then EvalBlock(body, nactvar, w, env, l) else EvalBlock(rest, nactvar, w, env, l)
    case IfEmpty(s, rest) => EvalBlock(rest, nactvar, w, env, Eval(s, w, env, log).1)
  }

  function ValuePool(e: Expr, ks: seq<Value>): seq<Value> {
    LoadPool(e, Pool(e, ks))
  }

  /** The constant table after a body. */
  function BlockPool(b: Block, ks: seq<Value>): seq<Value> {
    match b
    case Return(e) => ValuePool(e, ks)
    case Local(e, rest) => BlockPool(rest, ValuePool(e, ks))
    case If(s, body, rest) => BlockPool(rest, BlockPool(body, Pool(s, ks)))
    case IfEmpty(s, rest) => BlockPool(rest, Pool(s, ks))
  }

  /** What the code of a body delivers, entered over pending jumps that offer `c`. */
  function BlockOutcome(b: Block, nactvar: nat, ks: seq<Value>, w: World, env: Regs, log: Log, c: Option<Value>): (Value, Log) {
    match b
    case Return(e) => var (o, l) := Outcome(e, ks, w, env, log, c); (Final(o), l)
    case Local(e, rest) =>
      var (o, l) := Outcome(e, ks, w, env, log, c);
      BlockOutcome(rest, nactvar + 1, ValuePool(e, ks), w, env[nactvar := Final(o)], l, None)
    case If(s, body, rest) =>
      var (o, l) := Outcome(s, ks, w, env, log, c);
      (match CondNext(s, o)
       case Go(c') => BlockOutcome(body, nactvar, Pool(s, ks), w, env, l, c')
       case Leave(c') => BlockOutcome(rest, nactvar, BlockPool(body, Pool(s, ks)), w, env, l, c'))
    case IfEmpty(s, rest) =>
      var (o, l) := Outcome(s, ks, w, env, log, c);
      BlockOutcome(rest, nactvar, Pool(s, ks), w, env, l, CondNext(s, o).c)
  }

  // ---------- the calls of the parser ----------

  /** `local x = e`: the value goes to the next register, which becomes a local variable. */
  function CompileLocal(g: Gen, e: Expr): (r: Gen)
    ensures g.err ==> r.err
  {
    var (g1, e1) := Compile(g, e);
    var g2 := Exp2NextReg(g1, e1).0;
    g2.(nactvar := g2.nactvar + 1, err := g2.err || g.nactvar + 1 > MAXVARS)
  }

  /** The end of an `if`: registers are freed and the false exits go on here. */
  function AfterIf(g: Gen, out: seq<nat>): (r: Gen)
    ensures g.err ==> r.err
  {
    PatchToHere(g.(freereg := g.nactvar), out)
  }

  function CompileBlock(g: Gen, b: Block): (r: Gen)
    ensures g.err ==> r.err
    decreases b
  {
    match b
    case Return(e) => CompileReturn(g, e)
    case Local(e, rest) => CompileBlock(CompileLocal(g, e), rest).(nactvar := g.nactvar)
    case If(s, body, rest) =>
      var (g1, out) := CompileCond(g, s);
      CompileBlock(AfterIf(CompileBlock(g1, body), out), rest)
    case IfEmpty(s, rest) =>
      var (g1, out) := CompileCond(g, s);
      CompileBlock(AfterIf(g1, out), rest)
  }

  /** A whole function, closed by `close_func` with a RETURN of no values. */
  function CompileFunction(b: Block, nactvar: nat): Gen {
    Emit(CompileBlock(NewFunction(nactvar), b), RETURN(0, 1))
  }

  // ---------- what statements keep ----------

  /** The state between statements. */
  ghost predicate AtStatement(g: Gen) {
    GenOK(g) && g.freereg == g.nactvar
  }

  lemma LocalOK(g: Gen, e: Expr)
    requires AtStatement(g) && Scoped(e, g.nactvar) && !CompileLocal(g, e).err
    ensures var g' := CompileLocal(g, e);
            && AtStatement(g') && g'.nactvar == g.nactvar + 1 && g'.k == ValuePool(e, g.k)
            && Keeps(g, g.jpc, g'.(nactvar := g.nactvar), g'.jpc)
  {
    hide Compile, Exp2NextReg, Level, JumpsWithin, NilRanges, JumpList;
    var (g1, e1) := Compile(g, e);
    CompileOK(g, e);
    NoTempLevel(g1, e1);
    Exp2NextRegOK(g1, e1);
    var g2 := Exp2NextReg(g1, e1).0;
    KeepsOn(g, g.jpc, g1, Lists(g1, e1), g2, g2.jpc);
  }

  lemma AfterIfOK(g: Gen, out: seq<nat>)
    requires GenOK(g) && JumpList(g.code, out) && Apart(g.jpc, out)
    ensures var g' := AfterIf(g, out);
            && AtStatement(g') && g'.nactvar == g.nactvar && g'.code == g.code && g'.jpc == g.jpc + out
            && g'.k == g.k && g'.lasttarget == |g.code|
  {
    HereOK(g, out);
  }

  /** The code of the body does not touch the false exits. */
  lemma BodyKeeps(g: Gen, g1: Gen, out: seq<nat>, g2: Gen)
    requires Keeps(g, g.jpc, g1, g1.jpc + out) && JumpList(g1.code, out) && Apart(g1.jpc, out)
    requires GenOK(g2) && g2.jpc == [] && Keeps(g1, g1.jpc, g2, [])
    ensures var g3 := AfterIf(g2, out);
            && AtStatement(g3) && g3.code == g2.code && g3.jpc == out && g3.k == g2.k && g3.nactvar == g.nactvar
            && Keeps(g, g.jpc, g3, g3.jpc) && g3.lasttarget == |g3.code|
    ensures forall j :: j in out ==> j < |g1.code| && |g1.code| <= |g2.code| && OpenAlike(g1.code, g2.code, j)
  {
    hide JumpsWithin, NilRanges;
    ListKept(g1.code, g2.code, g1.jpc, out);
    AfterIfOK(g2, out);
    KeepsOn(g, g.jpc, g1, g1.jpc + out, AfterIf(g2, out), out);
  }

  lemma CondKeeps(g: Gen, g1: Gen, out: seq<nat>)
    requires Keeps(g, g.jpc, g1, g1.jpc + out) && GenOK(g1) && JumpList(g1.code, out) && Apart(g1.jpc, out)
    ensures var g3 := AfterIf(g1, out);
            && AtStatement(g3) && g3.code == g1.code && g3.jpc == g1.jpc + out && g3.k == g1.k && g3.nactvar == g.nactvar
            && Keeps(g, g.jpc, g3, g3.jpc) && g3.lasttarget == |g3.code|
  {
    AfterIfOK(g1, out);
  }

  lemma ReturnOK(g: Gen, e: Expr)
    requires GenOK(g) && Scoped(e, g.nactvar) && !CompileReturn(g, e).err
    ensures var g' := CompileReturn(g, e);
            GenOK(g') && g'.jpc == [] && Keeps(g, g.jpc, g', []) && g'.k == ValuePool(e, g.k)
  {
    hide Compile, Exp2AnyReg, Level, JumpsWithin, NilRanges, JumpList, NoDup, Guarded, DischargeVars;
    var (g1, e1) := Compile(g, e);
    CompileOK(g, e);
    NoTempLevel(g1, e1);
    Exp2AnyRegOK(g1, e1);
    var (g2, e2) := Exp2AnyReg(g1, e1);
    KeepsOn(g, g.jpc, g1, Lists(g1, e1), g2, g2.jpc);
    EmitOK(g2, RETURN(e2.k.reg, 2));
    KeepsOn(g, g.jpc, g2, g2.jpc, CompileReturn(g, e), []);
  }

  lemma CondAtStatement(g: Gen, s: Expr, g1: Gen, out: seq<nat>)
    requires AtStatement(g) && CondReady(g, s, g1, out)
    ensures AtStatement(g1) && g1.nactvar == g.nactvar && GenOK(g1)
  {
  }

  /** A body closes everything it opens: afterwards no jump is pending, and of the jumps that
      were open before only the pending ones have been redirected. */
  lemma {:induction false} BlockOK(g: Gen, b: Block)
    requires AtStatement(g) && ScopedBlock(b, g.nactvar) && !CompileBlock(g, b).err
    ensures var g' := CompileBlock(g, b);
            GenOK(g') && g'.jpc == [] && Keeps(g, g.jpc, g', []) && g'.k == BlockPool(b, g.k)
    decreases b
  {
    hide CompileReturn, CompileLocal, CompileCond, AfterIf, JumpList, NilRanges, JumpsWithin, Untouched, From, Apart;
    match b
    case Return(e) => ReturnOK(g, e);
    case Local(e, rest) =>
      var g1 := CompileLocal(g, e);
      LocalOK(g, e);
      BlockOK(g1, rest);
      LocalKeeps(g, g1, CompileBlock(g1, rest));
    case If(s, body, rest) =>
      var (g1, out) := CompileCond(g, s);
      var g2 := CompileBlock(g1, body);
      CondOK(g, s);
      BlockOK(g1, body);
      BodyKeeps(g, g1, out, g2);
      BlockOK(AfterIf(g2, out), rest);
      KeepsOn(g, g.jpc, AfterIf(g2, out), AfterIf(g2, out).jpc, CompileBlock(g, b), []);
    case IfEmpty(s, rest) =>
      var (g1, out) := CompileCond(g, s);
      CondOK(g, s);
      CondKeeps(g, g1, out);
      BlockOK(AfterIf(g1, out), rest);
      KeepsOn(g, g.jpc, AfterIf(g1, out), AfterIf(g1, out).jpc, CompileBlock(g, b), []);
  }

  lemma LocalKeeps(g: Gen, g1: Gen, g2: Gen)
    requires GenOK(g2) && g2.jpc == [] && Keeps(g1, g1.jpc, g2, []) && g1.nactvar == g.nactvar + 1
    requires Keeps(g, g.jpc, g1.(nactvar := g.nactvar), g1.jpc)
    ensures var g' := g2.(nactvar := g.nactvar); GenOK(g') && Keeps(g, g.jpc, g', [])
  {
    KeepsOn(g, g.jpc, g1.(nactvar := g.nactvar), g1.jpc, g2.(nactvar := g.nactvar), []);
  }

  // ---------- what statements deliver ----------

  ghost function BlockResult(b: Block, nactvar: nat, ks: seq<Value>, w: World, env: Regs, p: Spot): Result {
    match p
    case At(m, c) => var (v, l) := BlockOutcome(b, nactvar, ks, w, env, m.log, c); Returned([v], l)
    case Away(r) => r
  }

  /** After `local x = e` a run that arrives has the final value in the new variable, and no
      value is offered any more. */
  ghost predicate Declared(q: Spot, y: Seen, nactvar: nat, env: Regs) {
    match y
    case Gone(r) => q == Away(r)
    case Got(o, log) => q.At? && q.c == None && q.m.log == log && SameBelow(q.m.regs, env[nactvar := Final(o)], nactvar + 1)
  }

  lemma LocalDelivers(x: Start, g: Gen, e: Expr, env: Regs, p: Spot)
    requires AtStatement(g) && Scoped(e, g.nactvar) && Entered(x, g)
    requires Arrives(x, g, p) && Agrees(p, env, g.nactvar)
    requires !CompileLocal(g, e).err && CompileLocal(g, e).k <= x.ks
    ensures var g' := CompileLocal(g, e);
            var q := SpotOf(g', Run(x, g'.code));
            Arrives(x, g', q) && Declared(q, SeenOf(e, g.k, x.w, env, p), g.nactvar, env)
  {
    hide Compile, Outcome, Exp2NextReg, Level, ExpOK, Shaped, Delivers, OpenAlike, From;
    var (g1, e1) := Compile(g, e);
    CompileOK(g, e);
    NoTempLevel(g1, e1);
    OperandFacts(x, g, e, g1, e1);
    Exp2NextRegOK(g1, e1);
    PrefixOf(g1.k, Exp2NextReg(g1, e1).0.k, x.ks);
    CompileCorrect(x, g, e, env, p);
    Exp2NextRegRun(x, g1, e1, SeenOf(e, g.k, x.w, env, p), RegsAt(p), g.freereg);
  }

  /** Where a run is behind `if s then ... end`, when it did not return in the body. */
  ghost predicate Passed(q: Spot, y: Seen, n: Next, env: Regs, nactvar: nat) {
    match y
    case Gone(r) => q == Away(r)
    case Got(_, log) => q.At? && q.c == n.c && q.m.log == log && SameBelow(q.m.regs, env, nactvar)
  }

  lemma EmptyIfDelivers(x: Start, g: Gen, s: Expr, env: Regs, p: Spot)
    requires AtStatement(g) && Scoped(s, g.nactvar) && Entered(x, g)
    requires Arrives(x, g, p) && Agrees(p, env, g.nactvar)
    requires !CompileCond(g, s).0.err && CompileCond(g, s).0.k <= x.ks
    ensures var (g1, out) := CompileCond(g, s);
            var g' := AfterIf(g1, out);
            var y := SeenOf(s, g.k, x.w, env, p);
            var q := SpotOf(g', Run(x, g'.code));
            Arrives(x, g', q) && Passed(q, y, if y.Got? then CondNext(s, y.o) else Go(None), env, g.nactvar)
  {
    hide CompileCond, Outcome, CondNext, Exec, JumpsWithin, NilRanges, JumpList, Untouched, From;
    CondOK(g, s);
    CondDelivers(x, g, s, env, p);
  }

  /** The run took the false exits: behind the body they are pending. */
  lemma IfLeaves(x: Start, g1: Gen, out: seq<nat>, g2: Gen, y: Seen, n: Next, regs: Regs, base: nat)
    requires Parted(x, g1, out, y, n, regs, base) && Apart(g1.jpc, out)
    requires y.Got? && n.Leave? && Run(x, g2.code) == Between(x, g1).r
    requires forall j :: j in out ==> j < |g1.code| && |g1.code| <= |g2.code| && OpenAlike(g1.code, g2.code, j)
    ensures var g3 := g2.(jpc := out);
            var q := SpotOf(g3, Run(x, g3.code));
            Between(x, g1).Away? && Arrives(x, g3, q) && q.At? && q.c == n.c && q.m.log == y.log && SameBelow(q.m.regs, regs, base)
  {
  }

  lemma {:induction false} BlockDelivers(x: Start, g: Gen, b: Block, env: Regs, p: Spot)
    requires AtStatement(g) && ScopedBlock(b, g.nactvar) && Entered(x, g)
    requires Arrives(x, g, p) && Agrees(p, env, g.nactvar)
    requires !CompileBlock(g, b).err && CompileBlock(g, b).k <= x.ks
    ensures Run(x, CompileBlock(g, b).code) == BlockResult(b, g.nactvar, g.k, x.w, env, p)
    decreases b
  {
    match b
    case Return(e) => ReturnDelivers(x, g, e, env, p);
    case Local(e, rest) => LocalCase(x, g, e, rest, env, p);
    case If(s, body, rest) => IfCase(x, g, s, body, rest, env, p);
    case IfEmpty(s, rest) => EmptyIfCase(x, g, s, rest, env, p);
  }

  lemma ReturnCalls(g: Gen, e: Expr)
    ensures CompileBlock(g, Return(e)) == CompileReturn(g, e)
  {
    hide CompileReturn;
  }


  lemma LocalCalls(g: Gen, e: Expr, rest: Block)
    ensures var g1 := CompileLocal(g, e);
            && CompileBlock(g, Local(e, rest)) == CompileBlock(g1, rest).(nactvar := g.nactvar)
            && (g1.err ==> CompileBlock(g1, rest).err)
  {
    hide CompileLocal;
  }

  lemma IfCalls(g: Gen, s: Expr, body: Block, rest: Block)
    ensures var (g1, out) := CompileCond(g, s);
            var g2 := CompileBlock(g1, body);
            var g3 := AfterIf(g2, out);
            && CompileBlock(g, If(s, body, rest)) == CompileBlock(g3, rest)
            && (g1.err || g2.err || g3.err ==> CompileBlock(g3, rest).err)
  {
    hide CompileCond, AfterIf;
  }

  lemma EmptyIfCalls(g: Gen, s: Expr, rest: Block)
    ensures var (g1, out) := CompileCond(g, s);
            var g3 := AfterIf(g1, out);
            && CompileBlock(g, IfEmpty(s, rest)) == CompileBlock(g3, rest)
            && (g1.err || g3.err ==> CompileBlock(g3, rest).err)
  {
    hide CompileCond, AfterIf;
  }

  lemma {:induction false} LocalCase(x: Start, g: Gen, e: Expr, rest: Block, env: Regs, p: Spot)
    requires AtStatement(g) && ScopedBlock(Local(e, rest), g.nactvar) && Entered(x, g)
    requires Arrives(x, g, p) && Agrees(p, env, g.nactvar)
    requires !CompileBlock(g, Local(e, rest)).err && CompileBlock(g, Local(e, rest)).k <= x.ks
    ensures Run(x, CompileBlock(g, Local(e, rest)).code) == BlockResult(Local(e, rest), g.nactvar, g.k, x.w, env, p)
    decreases Local(e, rest), 0
  {
    hide CompileBlock, CompileLocal, Outcome, Arrives, JumpsWithin, NilRanges, JumpList, Untouched, From, Exec;
    LocalCalls(g, e, rest);
    var g1 := CompileLocal(g, e);
    LocalOK(g, e);
    BlockOK(g1, rest);
    PrefixOf(g1.k, CompileBlock(g1, rest).k, x.ks);
    LocalDelivers(x, g, e, env, p);
    EnteredKept(x, g, g.jpc, g1.(nactvar := g.nactvar), g1.jpc);
    var y := SeenOf(e, g.k, x.w, env, p);
    var env' := if y.Got? then env[g.nactvar := Final(y.o)] else env;
    BlockDelivers(x, g1, rest, env', SpotOf(g1, Run(x, g1.code)));
  }

  lemma {:induction false} IfCase(x: Start, g: Gen, s: Expr, body: Block, rest: Block, env: Regs, p: Spot)
    requires AtStatement(g) && ScopedBlock(If(s, body, rest), g.nactvar) && Entered(x, g)
    requires Arrives(x, g, p) && Agrees(p, env, g.nactvar)
    requires !CompileBlock(g, If(s, body, rest)).err && CompileBlock(g, If(s, body, rest)).k <= x.ks
    ensures Run(x, CompileBlock(g, If(s, body, rest)).code) == BlockResult(If(s, body, rest), g.nactvar, g.k, x.w, env, p)
    decreases If(s, body, rest), 0
  {
    hide CompileBlock, CompileCond, AfterIf, Outcome, CondNext, Arrives, Parted, GenOK, JumpList, Apart, Untouched, From, Exec;
    IfCalls(g, s, body, rest);
    var (g1, out) := CompileCond(g, s);
    var g2 := CompileBlock(g1, body);
    var g3 := AfterIf(g2, out);
    CondOK(g, s);
    CondFacts(x, g, s, g1, out);
    BlockOK(g1, body);
    BodyKeeps(g, g1, out, g2);
    BlockOK(g3, rest);
    PrefixOf(g3.k, CompileBlock(g3, rest).k, x.ks);
    PrefixOf(g1.k, g2.k, x.ks);
    var y := SeenOf(s, g.k, x.w, env, p);
    var n := if y.Got? then CondNext(s, y.o) else Go(None);
    CondDelivers(x, g, s, env, p);
    PartedSpot(x, g1, out, y, n, RegsAt(p), g.freereg, env);
    BlockDelivers(x, g1, body, env, Between(x, g1));
    BehindBody(x, g1, out, g2, g3, y, n, RegsAt(p), g.freereg, body, env);
    EnteredKept(x, g, g.jpc, g3, g3.jpc);
    BlockDelivers(x, g3, rest, env, Between(x, g3));
  }

  lemma CondFacts(x: Start, g: Gen, s: Expr, g1: Gen, out: seq<nat>)
    requires AtStatement(g) && Entered(x, g) && CondReady(g, s, g1, out)
    ensures AtStatement(g1) && Entered(x, g1) && g1.nactvar == g.nactvar && GenOK(g1)
  {
    EnteredKept(x, g, g.jpc, g1, g1.jpc + out);
  }

  /** Where every run is behind the body. */
  lemma BehindBody(x: Start, g1: Gen, out: seq<nat>, g2: Gen, g3: Gen, y: Seen, n: Next, regs: Regs, base: nat, body: Block, env: Regs)
    requires Parted(x, g1, out, y, n, regs, base) && Apart(g1.jpc, out)
    requires Run(x, g2.code) == BlockResult(body, g1.nactvar, g1.k, x.w, env, Between(x, g1))
    requires g3.code == g2.code && g3.jpc == out
    requires forall j :: j in out ==> j < |g1.code| && |g1.code| <= |g2.code| && OpenAlike(g1.code, g2.code, j)
    requires y.Got? ==> SameBelow(regs, env, g1.nactvar) && g1.nactvar <= base
    requires y.Got? && n.Go? ==> Between(x, g1).At?
    ensures var q := Between(x, g3);
            && Arrives(x, g3, q) && Agrees(q, env, g1.nactvar)
            && match y
               case Gone(r) => q == Away(r)
               case Got(_, log) =>
                 if n.Go? then q == Away(BlockResult(body, g1.nactvar, g1.k, x.w, env, Between(x, g1)))
                 else q.At? && q.c == n.c && q.m.log == log
  {
    if y.Got? && n.Leave? {
      IfLeaves(x, g1, out, g2, y, n, regs, base);
    }
  }

  lemma {:induction false} EmptyIfCase(x: Start, g: Gen, s: Expr, rest: Block, env: Regs, p: Spot)
    requires AtStatement(g) && ScopedBlock(IfEmpty(s, rest), g.nactvar) && Entered(x, g)
    requires Arrives(x, g, p) && Agrees(p, env, g.nactvar)
    requires !CompileBlock(g, IfEmpty(s, rest)).err && CompileBlock(g, IfEmpty(s, rest)).k <= x.ks
    ensures Run(x, CompileBlock(g, IfEmpty(s, rest)).code) == BlockResult(IfEmpty(s, rest), g.nactvar, g.k, x.w, env, p)
    decreases IfEmpty(s, rest), 0
  {
    hide CompileBlock, CompileCond, AfterIf, Outcome, CondNext, Arrives, GenOK, JumpList, Apart, Untouched, From, Exec;
    EmptyIfCalls(g, s, rest);
    var (g1, out) := CompileCond(g, s);
    var g3 := AfterIf(g1, out);
    CondOK(g, s);
    CondKeeps(g, g1, out);
    BlockOK(g3, rest);
    PrefixOf(g3.k, CompileBlock(g3, rest).k, x.ks);
    EmptyIfDelivers(x, g, s, env, p);
    EnteredKept(x, g, g.jpc, g3, g3.jpc);
    BlockDelivers(x, g3, rest, env, SpotOf(g3, Run(x, g3.code)));
  }

  // ---------- whole functions ----------

  lemma ClosingRun(x: Start, g: Gen, i: Instr, p: Spot)
    requires GenOK(g) && Arrives(x, g, p) && p.Away?
    ensures Run(x, Emit(g, i).code) == p.r
  {
    SettledOK(g);
    SettledRun(x, g, p);
    LastNotTest(Settled(g), g.lasttarget);
    TailRun(x, Settled(g), [i], p);
  }

  /** A function called with `args` and nil in all other registers delivers what its body
      does, unless the compiler reported an error. */
  lemma FunctionDelivers(b: Block, nactvar: nat, w: World, args: Regs, log: Log)
    requires ScopedBlock(b, nactvar)
    requires forall r :: r >= nactvar ==> Get(args, r) == Nil
    requires !CompileFunction(b, nactvar).err
    ensures var g := CompileFunction(b, nactvar);
            var (v, log') := BlockOutcome(b, nactvar, [], w, args, log, None);
            Exec(g.code, g.k, w, 0, Machine(args, log)) == Returned([v], log')
  {
    hide CompileBlock, BlockOutcome, Emit;
    var g0 := NewFunction(nactvar);
    var g1 := CompileBlock(g0, b);
    ReturnKeeps(g1, RETURN(0, 1));
    var x := Start(g1.k, w, 0, Machine(args, log));
    assert AtStatement(g0) && Entered(x, g0);
    assert Arrives(x, g0, At(x.m, None));
    BlockOK(g0, b);
    BlockDelivers(x, g0, b, args, At(x.m, None));
    ClosingRun(x, g1, RETURN(0, 1), Away(Run(x, g1.code)));
  }
}
