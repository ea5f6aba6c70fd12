/** The calls the parser makes for statements and whole functions, on the state updated in
    place. */
module LuaStatements {
  import opened LuaSource
  import opened LuaMachine
  import opened LuaCodegen
  import opened LuaInvariant
  import opened LuaOperands
  import opened LuaThreads
  import opened LuaFuncState
  import opened LuaParser
  import opened LuaProgram
  import opened LuaBlock
  import opened LuaCheckCode
  import opened LuaChecker
  import opened LuaWord
  import opened LuaLimits
  import opened LuaLaw

  /** The state is `g`, and jumps of other lists than the pending ones keep their links. */
  twostate predicate Emitted(fs: FuncState, g: Gen)
    reads fs
  {
    && fs.Is(g)
    && (!fs.failed ==> Unmoved(old(fs.gen).code, old(fs.Live()), fs.Live(), old(fs.gen).jpc))
  }

  /** `retstat` with one value. */
  method ReturnStat(fs: FuncState, s: Expr)
    requires fs.Valid() && GenOK(fs.gen) && Scoped(s, fs.nactvar)
    modifies fs
    ensures Emitted(fs, CompileReturn(old(fs.gen), s))
  {
    hide Compile, Exp2AnyReg, Emit, Level, Stands, Threads, Unmoved, GenOK, Untouched, From;
    ghost var g0, c0 := fs.gen, fs.Live();
    var e := Expression(fs, s);
    if fs.failed { return; }
    CompileOK(g0, s);
    ghost var g1, c1, e1 := fs.gen, fs.Live(), e.e;
    NoTempLevel(g1, e1);
    Exp2AnyRegOK(g1, e1);
    fs.Exp2AnyReg(e);
    if fs.failed { return; }
    ghost var g2, c2 := fs.gen, fs.Live();
    UnmovedOn(g0.code, g1.code, c0, c1, c2, g0.jpc, Lists(g1, e1));
    KeepsOn(g0, g0.jpc, g1, Lists(g1, e1), g2, g2.jpc);
    var at := fs.Code(RETURN(e.k.reg, 2));
    if fs.failed { return; }
    UnmovedOn(g0.code, g2.code, c0, c2, fs.Live(), g0.jpc, g2.jpc);
  }

  /** `cond`: the exits taken when the condition is false. */
  method Condition(fs: FuncState, s: Expr) returns (f: int)
    requires fs.Valid() && GenOK(fs.gen) && Scoped(s, fs.nactvar)
    modifies fs
    ensures var r := CompileCond(old(fs.gen), s);
            Emitted(fs, r.0) && (!fs.failed ==> Threads(fs.Live(), f, r.1))
  {
    hide Compile, GoIfTrue, Stands, Threads, Unmoved, GenOK, JumpList, Apart, Untouched, From;
    ghost var g0, c0 := fs.gen, fs.Live();
    f := NO_JUMP;
    var e := Expression(fs, s);
    if fs.failed { return; }
    CompileOK(g0, s);
    ghost var g1, c1, e1 := fs.gen, fs.Live(), e.e;
    NilIsFalse(g1, e1);
    if e.k.VNil? {
      e.k := VFalse;
      e.e := e.e.(k := VFalse);
    }
    fs.GoIfTrue(e);
    if fs.failed { return; }
    f := e.f;
    UnmovedOn(g0.code, g1.code, c0, c1, fs.Live(), g0.jpc, Lists(g1, e1));
  }

  /** `localstat` with one variable and one value: the register of the value becomes the
      variable. */
  method LocalStat(fs: FuncState, e: Expr)
    requires fs.Valid() && GenOK(fs.gen) && Scoped(e, fs.nactvar)
    modifies fs
    ensures Emitted(fs, CompileLocal(old(fs.gen), e))
  {
    hide Compile, Exp2NextReg, Stands, Threads, Unmoved, GenOK, JumpList;
    if fs.nactvar + 1 > MAXVARS {
      fs.failed := true;
      return;
    }
    LocalValue(fs, e);
    if fs.failed { return; }
    fs.nactvar := fs.nactvar + 1;
    fs.gen := fs.gen.(nactvar := fs.gen.nactvar + 1);
  }

  /** The value is put into the next register. */
  method LocalValue(fs: FuncState, e: Expr)
    requires fs.Valid() && GenOK(fs.gen) && Scoped(e, fs.nactvar)
    modifies fs
    ensures var (g1, e1) := Compile(old(fs.gen), e); Emitted(fs, Exp2NextReg(g1, e1).0)
  {
    hide Compile, Exp2NextReg, Stands, Threads, Unmoved, GenOK, Untouched, From, JumpList, Apart;
    ghost var g0, c0 := fs.gen, fs.Live();
    var d := Expression(fs, e);
    if fs.failed { return; }
    CompileOK(g0, e);
    ghost var g1, c1, e1 := fs.gen, fs.Live(), d.e;
    fs.Exp2NextReg(d);
    if fs.failed { return; }
    UnmovedOn(g0.code, g1.code, c0, c1, fs.Live(), g0.jpc, Lists(g1, e1));
  }

  /** The end of an `if` statement: the false exits `f` go on here. */
  method EndIf(fs: FuncState, f: int, ghost out: seq<nat>)
    requires fs.Valid() && GenOK(fs.gen)
    requires Threads(fs.Live(), f, out) && JumpList(fs.gen.code, out) && Apart(fs.gen.jpc, out)
    modifies fs
    ensures Emitted(fs, AfterIf(old(fs.gen), out))
  {
    hide Stands, Threads, Unmoved, GenOK;
    fs.freereg := fs.nactvar;
    fs.gen := fs.gen.(freereg := fs.nactvar);
    fs.Here(f, out);
  }

  /** `block` and the statements in it. */
  method Body(fs: FuncState, b: Block)
    requires fs.Valid() && AtStatement(fs.gen) && ScopedBlock(b, fs.nactvar)
    modifies fs
    ensures Emitted(fs, CompileBlock(old(fs.gen), b))
    decreases b, 1
  {
    match b
    case Return(e) =>
      ReturnCalls(fs.gen, e);
      ReturnStat(fs, e);
    case Local(e, rest) => LocalBody(fs, e, rest);
    case If(s, body, rest) => IfBody(fs, s, body, rest);
    case IfEmpty(s, rest) => EmptyIfBody(fs, s, rest);
  }

  method LocalBody(fs: FuncState, e: Expr, rest: Block)
    requires fs.Valid() && AtStatement(fs.gen) && ScopedBlock(Local(e, rest), fs.nactvar)
    modifies fs
    ensures Emitted(fs, CompileBlock(old(fs.gen), Local(e, rest)))
    decreases Local(e, rest), 0
  {
    hide CompileBlock, CompileLocal, Stands, Threads, Unmoved, GenOK, Untouched, From;
    ghost var g0, c0 := fs.gen, fs.Live();
    var level := fs.nactvar;
    LocalCalls(g0, e, rest);
    LocalStat(fs, e);
    if fs.failed { return; }
    LocalOK(g0, e);
    ghost var g1, c1 := fs.gen, fs.Live();
    Body(fs, rest);
    if fs.failed { return; }
    UnmovedOn(g0.code, g1.code, c0, c1, fs.Live(), g0.jpc, g1.jpc);
    fs.nactvar := level;
    fs.gen := fs.gen.(nactvar := level);
  }

  method IfBody(fs: FuncState, s: Expr, body: Block, rest: Block)
    requires fs.Valid() && AtStatement(fs.gen) && ScopedBlock(If(s, body, rest), fs.nactvar)
    modifies fs
    ensures Emitted(fs, CompileBlock(old(fs.gen), If(s, body, rest)))
    decreases If(s, body, rest), 0
  {
    hide CompileBlock, CompileCond, AfterIf, Stands, Threads, Unmoved, GenOK, JumpList, Apart, Untouched, From;
    ghost var g0, c0 := fs.gen, fs.Live();
    IfCalls(g0, s, body, rest);
    var f := Condition(fs, s);
    if fs.failed { return; }
    ghost var g1, c1, out := fs.gen, fs.Live(), CompileCond(g0, s).1;
    CondOK(g0, s);
    CondAtStatement(g0, s, g1, out);
    Body(fs, body);
    if fs.failed { return; }
    ghost var g2, c2 := fs.gen, fs.Live();
    BlockOK(g1, body);
    BodyKeeps(g0, g1, out, g2);
    StillWaiting(g1, c1, f, out, g2, c2, []);
    ghost var g3 := AfterIf(g2, out);
    EndIf(fs, f, out);
    if fs.failed { return; }
    ghost var c3 := fs.Live();
    UnmovedIf(g0, g1, out, g2, g3, c0, c1, c2, c3);
    Body(fs, rest);
    if fs.failed { return; }
    UnmovedOn(g0.code, g3.code, c0, c3, fs.Live(), g0.jpc, g3.jpc);
  }

  lemma UnmovedIf(g0: Gen, g1: Gen, out: seq<nat>, g2: Gen, g3: Gen, c0: Code, c1: Code, c2: Code, c3: Code)
    requires Keeps(g0, g0.jpc, g1, g1.jpc + out) && g3.code == g2.code && Keeps(g0, g0.jpc, g3, g3.jpc)
    requires Unmoved(g0.code, c0, c1, g0.jpc) && Unmoved(g1.code, c1, c2, g1.jpc) && Unmoved(g2.code, c2, c3, [])
    ensures Unmoved(g0.code, c0, c3, g0.jpc)
  {
    hide Unmoved;
    UnmovedOn(g0.code, g1.code, c0, c1, c2, g0.jpc, g1.jpc);
    UnmovedOn(g0.code, g2.code, c0, c2, c3, g0.jpc, []);
  }

  method EmptyIfBody(fs: FuncState, s: Expr, rest: Block)
    requires fs.Valid() && AtStatement(fs.gen) && ScopedBlock(IfEmpty(s, rest), fs.nactvar)
    modifies fs
    ensures Emitted(fs, CompileBlock(old(fs.gen), IfEmpty(s, rest)))
    decreases IfEmpty(s, rest), 0
  {
    hide CompileBlock, CompileCond, AfterIf, Stands, Threads, Unmoved, GenOK, JumpList, Apart, Untouched, From;
    ghost var g0, c0 := fs.gen, fs.Live();
    EmptyIfCalls(g0, s, rest);
    var f := Condition(fs, s);
    if fs.failed { return; }
    ghost var g1, c1, out := fs.gen, fs.Live(), CompileCond(g0, s).1;
    CondOK(g0, s);
    CondKeeps(g0, g1, out);
    ghost var g3 := AfterIf(g1, out);
    EndIf(fs, f, out);
    if fs.failed { return; }
    ghost var c3 := fs.Live();
    UnmovedEmptyIf(g0, g1, out, g3, c0, c1, c3);
    Body(fs, rest);
    if fs.failed { return; }
    UnmovedOn(g0.code, g3.code, c0, c3, fs.Live(), g0.jpc, g3.jpc);
  }

  lemma UnmovedEmptyIf(g0: Gen, g1: Gen, out: seq<nat>, g3: Gen, c0: Code, c1: Code, c3: Code)
    requires Keeps(g0, g0.jpc, g1, g1.jpc + out)
    requires Unmoved(g0.code, c0, c1, g0.jpc) && Unmoved(g1.code, c1, c3, g1.jpc)
    ensures Unmoved(g0.code, c0, c3, g0.jpc)
  {
    hide Unmoved;
    UnmovedOn(g0.code, g1.code, c0, c1, c3, g0.jpc, g1.jpc);
  }

  /** A whole function: `open_func`, the parameters, the body, and the RETURN of `close_func`.
      Within the limits there is no error, and a 51st variable is one.  The code passes the
      checker, can be read back from its 32-bit words, and delivers what the body does; when
      the function is clean that is what the source says. */
  method Function(b: Block, nactvar: nat) returns (fs: FuncState)
    requires ScopedBlock(b, nactvar)
    ensures fresh(fs) && fs.failed == CompileFunction(b, nactvar).err
    ensures WithinLimits(b, nactvar) ==> !fs.failed
    ensures nactvar + Variables(b) > 50 ==> fs.failed
    ensures !fs.failed ==> CheckCode(fs.Live(), fs.k, fs.maxstack, nactvar) && ReadBack(fs.Live())
    ensures !fs.failed ==>
              forall w, args, log | Arguments(args, nactvar) ::
                var (v, log') := BlockOutcome(b, nactvar, [], w, args, log, None);
                Exec(fs.Live(), fs.k, w, 0, Machine(args, log)) == Returned([v], log')
    ensures !fs.failed && CleanFunction(b, nactvar) ==>
              forall w, args, log | Arguments(args, nactvar) ::
                var (v, log') := EvalBlock(b, nactvar, w, args, log);
                Exec(fs.Live(), fs.k, w, 0, Machine(args, log)) == Returned([v], log')
  {
    hide CompileBlock, BlockOutcome, EvalBlock, GoodBlock, Emit, Stands, Threads, Unmoved, GenOK, Exec, CheckCode, ReadBack, WithinLimits, Variables, ScopedBlock;
    FunctionLimits(b, nactvar);
    if nactvar > MAXVARS {
      fs := new FuncState(0);
      fs.failed := true;
      return;
    }
    fs := new FuncState(nactvar);
    Body(fs, b);
    if fs.failed { return; }
    var at := fs.Code(RETURN(0, 1));
    if fs.failed { return; }
    FunctionChecked(b, nactvar);
    FunctionEncoded(b, nactvar);
    StandsClosed(fs.Live(), fs.gen.code);
    forall w, args, log | Arguments(args, nactvar)
      ensures var (v, log') := BlockOutcome(b, nactvar, [], w, args, log, None);
              Exec(fs.Live(), fs.k, w, 0, Machine(args, log)) == Returned([v], log')
      ensures CleanFunction(b, nactvar) ==>
                var (v, log') := EvalBlock(b, nactvar, w, args, log);
                Exec(fs.Live(), fs.k, w, 0, Machine(args, log)) == Returned([v], log')
    {
      FunctionDelivers(b, nactvar, w, args, log);
      if CleanFunction(b, nactvar) {
        CleanFunctionIsRight(b, nactvar, w, args, log);
      }
    }
  }
}
