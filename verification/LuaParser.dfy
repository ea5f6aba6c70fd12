/** The calls the parser makes for expressions, on the state updated in place. */
module LuaParser {
  import opened LuaSource
  import opened LuaMachine
  import opened LuaCodegen
  import opened LuaInvariant
  import opened LuaOperands
  import opened LuaThreads
  import opened LuaFuncState

  /** The new descriptor is `r`, and jumps of other lists than the pending ones keep their
      links. */
  twostate predicate Parsed(fs: FuncState, new e: ExpDesc, r: (Gen, Exp))
    reads fs, e
  {
    && fs.Is(r.0)
    && (!fs.failed ==> e.e == r.1 && e.Holds(fs.Live())
                       && Unmoved(old(fs.gen).code, old(fs.Live()), fs.Live(), old(fs.gen).jpc))
  }

  /** `subexpr`: the operands in source order, with the prefix, infix and posfix calls
      around them. */
  method Expression(fs: FuncState, s: Expr) returns (e: ExpDesc)
    requires fs.Valid() && GenOK(fs.gen) && Scoped(s, fs.nactvar)
    modifies fs
    ensures fresh(e) && Parsed(fs, e, Compile(old(fs.gen), s))
    decreases s, 2
  {
    hide GoIfTrue, GoIfFalse, Exp2RK, CodeNot, JoinAnd, JoinOr, CodeComp, DischargeVars, Stands, Threads, Unmoved, GenOK;
    NoThread(fs.Live());
    UnmovedSame(fs.gen.code, fs.Live(), fs.gen.jpc);
    match s
    case EParen(a) => e := Paren(fs, a);
    case ENot(a) => e := Not(fs, a);
    case EAnd(a, b) => e := And(fs, a, b);
    case EOr(a, b) => e := Or(fs, a, b);
    case ERel(op, a, b) => e := Rel(fs, op, a, b);
    case ENil => e := new ExpDesc(VNil);
    case ETrue => e := new ExpDesc(VTrue);
    case EFalse => e := new ExpDesc(VFalse);
    case ENum(n) => e := new ExpDesc(VKNum(n));
    case ELocal(r) => e := new ExpDesc(VLocal(r));
    case EStr(str) =>
      var i := fs.Constant(Str(str));
      e := new ExpDesc(VK(i));
    case EGlobal(name) =>
      var i := fs.Constant(Str(name));
      e := new ExpDesc(VGlobal(i));
  }

  method Paren(fs: FuncState, a: Expr) returns (e: ExpDesc)
    requires fs.Valid() && GenOK(fs.gen) && Scoped(a, fs.nactvar)
    modifies fs
    ensures fresh(e) && Parsed(fs, e, Compile(old(fs.gen), EParen(a)))
    decreases EParen(a), 0
  {
    hide Compile, DischargeVars, Stands, Threads, Unmoved, GenOK;
    ghost var g0, c0 := fs.gen, fs.Live();
    ParenCalls(g0, a);
    e := Expression(fs, a);
    if fs.failed { return; }
    CompileOK(g0, a);
    ghost var g1, c1, e1 := fs.gen, fs.Live(), e.e;
    fs.DischargeVars(e);
    if fs.failed { return; }
    UnmovedOn(g0.code, g1.code, c0, c1, fs.Live(), g0.jpc, Lists(g1, e1));
  }

  method Not(fs: FuncState, a: Expr) returns (e: ExpDesc)
    requires fs.Valid() && GenOK(fs.gen) && Scoped(a, fs.nactvar)
    modifies fs
    ensures fresh(e) && Parsed(fs, e, Compile(old(fs.gen), ENot(a)))
    decreases ENot(a), 0
  {
    hide Compile, CodeNot, Stands, Threads, Unmoved, GenOK;
    ghost var g0, c0 := fs.gen, fs.Live();
    NotCalls(g0, a);
    e := Expression(fs, a);
    if fs.failed { return; }
    CompileOK(g0, a);
    ghost var g1, c1, e1 := fs.gen, fs.Live(), e.e;
    fs.Not(e);
    if fs.failed { return; }
    UnmovedOn(g0.code, g1.code, c0, c1, fs.Live(), g0.jpc, Lists(g1, e1));
  }

  /** The exits `l` of a first operand, threaded from `head`, wait for the second. */
  ghost predicate Waiting(fs: FuncState, head: int, l: seq<nat>)
    reads fs
  {
    && GenOK(fs.gen) && Threads(fs.Live(), head, l)
    && JumpList(fs.gen.code, l) && Apart(fs.gen.jpc, l)
  }

  lemma WaitingReady(fs: FuncState, head: int, l: seq<nat>)
    requires Waiting(fs, head, l)
    ensures GenOK(fs.gen) && Threads(fs.Live(), head, l) && JumpList(fs.gen.code, l) && Apart(fs.gen.jpc, l)
  {
  }

  /** Code of the second operand does not disturb them. */
  lemma StillWaiting(g2: Gen, c2: Code, head: int, l: seq<nat>, g3: Gen, c3: Code, l3: seq<nat>)
    requires Threads(c2, head, l) && JumpList(g2.code, l) && Apart(g2.jpc, l)
    requires Keeps(g2, g2.jpc, g3, l3) && Unmoved(g2.code, c2, c3, g2.jpc)
    ensures Threads(c3, head, l) && JumpList(g3.code, l) && Apart(l3, l)
  {
    hide Threads, Unmoved;
    assert Apart(l, g2.jpc);
    ListKept(g2.code, g3.code, g2.jpc, l);
    ThreadsKept(g2.code, c2, c3, g2.jpc, head, l);
    OutsideLists(g2, l, g3, l3);
  }

  /** The first operand of `and`: parsed, then branched on by `luaK_infix`. */
  method AndLeft(fs: FuncState, a: Expr) returns (e1: ExpDesc)
    requires fs.Valid() && GenOK(fs.gen) && Scoped(a, fs.nactvar)
    modifies fs
    ensures fresh(e1)
    ensures var (g1, ea) := Compile(old(fs.gen), a);
            var r := GoIfTrue(g1, ea);
            && fs.Is(r.0)
            && (!fs.failed ==>
                  && Waiting(fs, e1.f, r.1.f)
                  && Keeps(old(fs.gen), old(fs.gen).jpc, fs.gen, fs.gen.jpc + r.1.f)
                  && Unmoved(old(fs.gen).code, old(fs.Live()), fs.Live(), old(fs.gen).jpc))
    decreases a, 3
  {
    hide GoIfTrue, Stands, Threads, Unmoved, GenOK, NoDup, Opens;
    ghost var g0, c0 := fs.gen, fs.Live();
    e1 := Expression(fs, a);
    if fs.failed { return; }
    CompileOK(g0, a);
    ghost var g1, c1, ea := fs.gen, fs.Live(), e1.e;
    fs.GoIfTrue(e1);
    if fs.failed { return; }
    GoIfTrueOK(g1, ea);
    ghost var ea' := GoIfTrue(g1, ea).1;
    UnmovedOn(g0.code, g1.code, c0, c1, fs.Live(), g0.jpc, Lists(g1, ea));
    KeepsOn(g0, g0.jpc, g1, Lists(g1, ea), fs.gen, fs.gen.jpc + ea'.f);
  }

  method And(fs: FuncState, a: Expr, b: Expr) returns (e1: ExpDesc)
    requires fs.Valid() && GenOK(fs.gen) && Scoped(EAnd(a, b), fs.nactvar)
    modifies fs
    ensures fresh(e1) && Parsed(fs, e1, Compile(old(fs.gen), EAnd(a, b)))
    decreases EAnd(a, b), 0
  {
    hide Compile, GoIfTrue, JoinAnd, Stands, Threads, Unmoved, GenOK, NoDup, Opens, Waiting;
    ghost var g0, c0 := fs.gen, fs.Live();
    AndCalls(g0, a, b);
    e1 := AndLeft(fs, a);
    if fs.failed { return; }
    ghost var g2, c2, ea' := fs.gen, fs.Live(), GoIfTrue(Compile(g0, a).0, Compile(g0, a).1).1;
    WaitingReady(fs, e1.f, ea'.f);
    var e2 := Expression(fs, b);
    if fs.failed { return; }
    CompileOK(g2, b);
    ghost var g3, c3, eb := fs.gen, fs.Live(), e2.e;
    UnmovedOn(g0.code, g2.code, c0, c2, c3, g0.jpc, g2.jpc);
    KeepsOn(g0, g0.jpc, g2, g2.jpc, g3, Lists(g3, eb));
    StillWaiting(g2, c2, e1.f, ea'.f, g3, c3, Lists(g3, eb));
    fs.PosfixAnd(e1, e2, ea');
    if fs.failed { return; }
    UnmovedOn(g0.code, g3.code, c0, c3, fs.Live(), g0.jpc, Lists(g3, eb));
  }

  /** The first operand of `or`: parsed, then branched on by `luaK_infix`. */
  method OrLeft(fs: FuncState, a: Expr) returns (e1: ExpDesc)
    requires fs.Valid() && GenOK(fs.gen) && Scoped(a, fs.nactvar)
    modifies fs
    ensures fresh(e1)
    ensures var (g1, ea) := Compile(old(fs.gen), a);
            var r := GoIfFalse(g1, ea);
            && fs.Is(r.0)
            && (!fs.failed ==>
                  && Waiting(fs, e1.t, r.1.t)
                  && Keeps(old(fs.gen), old(fs.gen).jpc, fs.gen, fs.gen.jpc + r.1.t)
                  && Unmoved(old(fs.gen).code, old(fs.Live()), fs.Live(), old(fs.gen).jpc))
    decreases a, 3
  {
    hide GoIfFalse, Stands, Threads, Unmoved, GenOK, NoDup, Opens;
    ghost var g0, c0 := fs.gen, fs.Live();
    e1 := Expression(fs, a);
    if fs.failed { return; }
    CompileOK(g0, a);
    ghost var g1, c1, ea := fs.gen, fs.Live(), e1.e;
    fs.GoIfFalse(e1);
    if fs.failed { return; }
    GoIfFalseOK(g1, ea);
    ghost var ea' := GoIfFalse(g1, ea).1;
    UnmovedOn(g0.code, g1.code, c0, c1, fs.Live(), g0.jpc, Lists(g1, ea));
    KeepsOn(g0, g0.jpc, g1, Lists(g1, ea), fs.gen, fs.gen.jpc + ea'.t);
  }

  method Or(fs: FuncState, a: Expr, b: Expr) returns (e1: ExpDesc)
    requires fs.Valid() && GenOK(fs.gen) && Scoped(EOr(a, b), fs.nactvar)
    modifies fs
    ensures fresh(e1) && Parsed(fs, e1, Compile(old(fs.gen), EOr(a, b)))
    decreases EOr(a, b), 0
  {
    hide Compile, GoIfFalse, JoinOr, Stands, Threads, Unmoved, GenOK, NoDup, Opens, Waiting;
    ghost var g0, c0 := fs.gen, fs.Live();
    OrCalls(g0, a, b);
    e1 := OrLeft(fs, a);
    if fs.failed { return; }
    ghost var g2, c2, ea' := fs.gen, fs.Live(), GoIfFalse(Compile(g0, a).0, Compile(g0, a).1).1;
    WaitingReady(fs, e1.t, ea'.t);
    var e2 := Expression(fs, b);
    if fs.failed { return; }
    CompileOK(g2, b);
    ghost var g3, c3, eb := fs.gen, fs.Live(), e2.e;
    UnmovedOn(g0.code, g2.code, c0, c2, c3, g0.jpc, g2.jpc);
    KeepsOn(g0, g0.jpc, g2, g2.jpc, g3, Lists(g3, eb));
    StillWaiting(g2, c2, e1.t, ea'.t, g3, c3, Lists(g3, eb));
    fs.PosfixOr(e1, e2, ea');
    if fs.failed { return; }
    UnmovedOn(g0.code, g3.code, c0, c3, fs.Live(), g0.jpc, Lists(g3, eb));
  }

  /** The first operand of a comparison: parsed, then made an operand by `luaK_infix`. */
  method Operand(fs: FuncState, a: Expr) returns (e1: ExpDesc, rk: nat)
    requires fs.Valid() && GenOK(fs.gen) && Scoped(a, fs.nactvar)
    modifies fs
    ensures fresh(e1)
    ensures var (g1, ea) := Compile(old(fs.gen), a);
            var r := Exp2RK(g1, ea);
            && Parsed(fs, e1, (r.0, r.1))
            && (!fs.failed ==>
                  && rk == r.2 && GenOK(fs.gen) && ExpOK(fs.gen, e1.e) && Held(fs.gen, e1.e, rk, old(fs.freereg))
                  && fs.nactvar == old(fs.nactvar)
                  && Keeps(old(fs.gen), old(fs.gen).jpc, fs.gen, fs.gen.jpc))
    decreases a, 3
  {
    hide Exp2RK, Level, Stands, Threads, Unmoved, GenOK;
    ghost var g0, c0 := fs.gen, fs.Live();
    rk := 0;
    e1 := Expression(fs, a);
    if fs.failed { return; }
    CompileOK(g0, a);
    ghost var g1, c1, ea := fs.gen, fs.Live(), e1.e;
    NoTempLevel(g1, ea);
    Exp2RKOK(g1, ea);
    rk := fs.Exp2RK(e1);
    if fs.failed { return; }
    UnmovedOn(g0.code, g1.code, c0, c1, fs.Live(), g0.jpc, Lists(g1, ea));
    KeepsOn(g0, g0.jpc, g1, Lists(g1, ea), fs.gen, fs.gen.jpc);
  }

  /** Both operands are ready for `codecomp`. */
  ghost predicate Comparable(fs: FuncState, e1: ExpDesc, e2: ExpDesc, rk: nat, base: nat)
    reads fs, e1, e2
  {
    && fs.Ready(e1) && fs.Ready(e2) && TopTemp(fs.gen, e2.e) && e1 != e2
    && Held(fs.gen.(freereg := Level(fs.gen, e2.e)), e1.e, rk, base)
  }

  /** The second operand, parsed while the first is held. */
  method Second(fs: FuncState, e1: ExpDesc, rk: nat, b: Expr, ghost base: nat) returns (e2: ExpDesc)
    requires fs.Valid() && GenOK(fs.gen) && Scoped(b, fs.nactvar)
    requires e1.Holds(fs.Live()) && Held(fs.gen, e1.e, rk, base)
    modifies fs
    ensures fresh(e2) && Parsed(fs, e2, Compile(old(fs.gen), b))
    ensures !fs.failed ==>
              && Comparable(fs, e1, e2, rk, base)
              && Keeps(old(fs.gen), old(fs.gen).jpc, fs.gen, Lists(fs.gen, e2.e))
    decreases b, 3
  {
    hide Compile, Level, Stands, Threads, Unmoved, Held, GenOK, JumpList, Apart, Shaped, Untouched, From;
    ghost var g2, c2 := fs.gen, fs.Live();
    e2 := Expression(fs, b);
    if fs.failed { return; }
    CompileOK(g2, b);
    HeldLater(g2, e1.e, rk, base, fs.gen);
    HeldReady(fs, e1, rk, base, c2);
    NoTempLevel(fs.gen, e2.e);
  }

  method Rel(fs: FuncState, op: RelOp, a: Expr, b: Expr) returns (e1: ExpDesc)
    requires fs.Valid() && GenOK(fs.gen) && Scoped(ERel(op, a, b), fs.nactvar)
    modifies fs
    ensures fresh(e1) && Parsed(fs, e1, Compile(old(fs.gen), ERel(op, a, b)))
    decreases ERel(op, a, b), 1
  {
    hide Compile, Exp2RK, CodeComp, Comparable, Stands, Threads, Unmoved, Held, GenOK, ExpOK, JumpList, Keeps, Indexes;
    ghost var g0, c0 := fs.gen, fs.Live();
    RelCalls(g0, op, a, b);
    var rk;
    e1, rk := Operand(fs, a);
    if fs.failed { return; }
    ghost var g2, c2 := fs.gen, fs.Live();
    var e2 := Second(fs, e1, rk, b, g0.freereg);
    if fs.failed { return; }
    ghost var g3, c3, l3 := fs.gen, fs.Live(), Lists(fs.gen, e2.e);
    UnmovedAfter(g0, g0.jpc, g2, g2.jpc, c0, c2, c3);
    KeepsOn(g0, g0.jpc, g2, g2.jpc, g3, l3);
    CompareHeld(fs, OpcodeOf(op), Direct(op), e1, e2, rk, g0.freereg);
    if fs.failed { return; }
    UnmovedAfter(g0, g0.jpc, g3, l3, c0, c3, fs.Live());
  }

  method CompareHeld(fs: FuncState, op: CmpOp, cond: bool, e1: ExpDesc, e2: ExpDesc, ghost rk: nat, ghost base: nat)
    requires Comparable(fs, e1, e2, rk, base)
    modifies fs, e1, e2
    ensures var r := CodeComp(old(fs.gen), op, cond, old(e1.e), old(e2.e));
            && fs.Is(r.0)
            && (!fs.failed ==> e1.e == r.1 && e1.Holds(fs.Live())
                               && Unmoved(old(fs.gen).code, old(fs.Live()), fs.Live(), Lists(old(fs.gen), old(e2.e))))
  {
    hide CodeComp, Level, TopTemp, Held, GenOK, ExpOK, JumpList;
    fs.Compare(op, cond, e1, e2, rk, base);
  }

  /** A held operand has no lists, so later code cannot disturb it. */
  lemma HeldReady(fs: FuncState, e: ExpDesc, rk: nat, base: nat, c: Code)
    requires fs.Valid() && GenOK(fs.gen) && e.Holds(c) && Held(fs.gen, e.e, rk, base)
    ensures fs.Ready(e)
  {
  }
}
