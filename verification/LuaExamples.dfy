/** Inputs the code generator gets wrong, the code it emits for two of them, and the limits of the
    condition. */
module LuaExamples {
  import opened LuaSource
  import opened LuaMachine
  import opened LuaCodegen
  import opened LuaOutcome
  import opened LuaExact
  import opened LuaNecessary
  import opened LuaProgram
  import opened LuaBlock
  import opened LuaLaw
  import opened LuaLimits

  const X := ELocal(0)
  const Y := ELocal(1)
  const Z := ELocal(2)

  /** `((x or false) and true) or false` */
  const BoolOf := EOr(EAnd(EOr(X, EFalse), ETrue), EFalse)

  /** `not ((x and true) or false) or x` */
  const NotOf := EOr(ENot(EOr(EAnd(X, ETrue), EFalse)), X)

  /** The first should be a boolean, but delivers `x` itself when `x` is true. */
  lemma BoolOfDeliversX(w: World, args: Regs, log: Log)
    requires Truthy(Get(args, 0))
    ensures Eval(BoolOf, w, args, log) == (Bool(true), log)
    ensures var (o, l) := Outcome(BoolOf, [], w, args, log, None);
            (Final(o), l) == (Get(args, 0), log)
  {
    var s1 := EOr(X, EFalse);
    var s2 := EAnd(s1, ETrue);
    assert Outcome(X, [], w, args, log, None) == (Fall(Get(args, 0), None), log);
    assert Outcome(s1, [], w, args, log, None) == (ToT(Some(Get(args, 0))), log);
    assert Outcome(s2, [], w, args, log, None) == (Fall(Bool(true), Some(Get(args, 0))), log);
    assert Eval(s1, w, args, log) == (Get(args, 0), log);
    assert Eval(s2, w, args, log) == (Bool(true), log);
    assert ShapeOf(s2) == STrue;
    assert Outcome(BoolOf, [], w, args, log, None) == (ToT(Some(Get(args, 0))), log);
  }

  /** The second is true when `x` is nil, but delivers nil: even the truth value is lost. */
  lemma NotOfLosesTruth(w: World, args: Regs, log: Log)
    requires Get(args, 0) == Nil
    ensures Eval(NotOf, w, args, log) == (Bool(true), log)
    ensures var (o, l) := Outcome(NotOf, [], w, args, log, None);
            (Final(o), l) == (Nil, log)
  {
    var s1 := EAnd(X, ETrue);
    var s2 := EOr(s1, EFalse);
    assert Outcome(s1, [], w, args, log, None) == (ToF(Some(Nil)), log);
    assert Outcome(s2, [], w, args, log, None) == (Fall(Bool(false), Some(Nil)), log);
    assert Outcome(ENot(s2), [], w, args, log, None) == (Fall(Bool(true), Some(Nil)), log);
    assert Eval(s1, w, args, log) == (Nil, log);
    assert Eval(s2, w, args, log) == (Bool(false), log);
  }

  // ---------- across statements ----------

  /** `if x then end return true or y` */
  const BehindIf := IfEmpty(X, Return(EOr(ETrue, Y)))

  /** The returned expression is clean where nothing is pending, but the false exit of the
      condition before it is pending and offers `x`: the function returns nil, not true. */
  lemma BehindIfReturnsNil(w: World, args: Regs, log: Log)
    requires Get(args, 0) == Nil && Arguments(args, 2)
    ensures Clean(EOr(ETrue, Y), [], NoValue) && !Clean(EOr(ETrue, Y), [], FalseValue)
    ensures EvalBlock(BehindIf, 2, w, args, log) == (Bool(true), log)
    ensures var g := CompileFunction(BehindIf, 2);
            !g.err && Exec(g.code, g.k, w, 0, Machine(args, log)) == Returned([Nil], log)
  {
    hide CompileFunction, Exec, Ways, Clean;
    CompiledBehindIf();
    var s := EOr(ETrue, Y);
    TrueOrWays(NoValue);
    TrueOrWays(FalseValue);
    assert Outcome(X, [], w, args, log, None) == (Fall(Nil, None), log);
    assert CondNext(X, Fall(Nil, None)) == Leave(Some(Nil));
    assert Outcome(s, [], w, args, log, Some(Nil)) == (ToT(Some(Nil)), log);
    assert BlockOutcome(Return(s), 2, [], w, args, log, Some(Nil)) == (Nil, log);
    assert Eval(ETrue, w, args, log) == (Bool(true), log);
    assert Eval(s, w, args, log) == (Bool(true), log) && Eval(X, w, args, log) == (Nil, log);
    assert EvalBlock(Return(s), 2, w, args, log) == (Bool(true), log);
    FunctionDelivers(BehindIf, 2, w, args, log);
  }

  lemma TrueOrWays(c: Class)
    ensures forall on :: Ways(EOr(ETrue, Y), [], on, c) == {MExit(true, c, c != NoValue)}
    ensures Clean(EOr(ETrue, Y), [], c) <==> c == NoValue
  {
    var m := MExit(true, c, c != NoValue);
    forall on
      ensures Ways(EOr(ETrue, Y), [], on, c) == {m}
    {
      assert MFall(c, true) in Ways(ETrue, [], on, c);
      OrLeavesWay(ETrue, Y, [], on, c, MFall(c, true), m);
      forall m' | m' in Ways(EOr(ETrue, Y), [], on, c)
        ensures m' == m
      {
        var ma :| ma in Ways(ETrue, [], on, c) && m' in NextWays(Y, LoadPool(ETrue, []), on, OrMay(STrue, ma));
        assert ma == MFall(c, true);
      }
    }
    if c != NoValue {
      assert {} <= Locals(EOr(ETrue, Y)) && m in Ways(EOr(ETrue, Y), [], {}, c) && Spoils(m);
    }
  }

  /** `(true or y) == z` as a condition */
  const Compares := ERel(OpEq, EParen(EOr(ETrue, Y)), Z)

  /** Where nothing is pending its comparison gets its own operands, but behind an `if` whose
      condition was nil it compares nil with `z`, and not true. */
  lemma ComparesForeign(w: World, args: Regs, log: Log)
    ensures Eval(Compares, w, args, log).1 == log + [Compared(CmpEq, Bool(true), Get(args, 2))]
    ensures Outcome(Compares, [], w, args, log, None).1 == log + [Compared(CmpEq, Bool(true), Get(args, 2))]
    ensures Outcome(Compares, [], w, args, log, Some(Nil)).1 == log + [Compared(CmpEq, Nil, Get(args, 2))]
    ensures ComparesClean(Compares, [], NoValue) && !ComparesClean(Compares, [], FalseValue)
  {
    hide Ways, Clean, ComparesClean, Outcome;
    var a := EParen(EOr(ETrue, Y));
    assert Eval(ETrue, w, args, log) == (Bool(true), log);
    assert Eval(EOr(ETrue, Y), w, args, log) == (Bool(true), log) && Eval(a, w, args, log) == (Bool(true), log);
    ForeignOutcome(w, args, log, None);
    ForeignOutcome(w, args, log, Some(Nil));
    ForeignWays(NoValue);
    ForeignWays(FalseValue);
  }

  /** The first operand is what the pending jumps offer, if they offer anything. */
  lemma ForeignOutcome(w: World, args: Regs, log: Log, c: Option<Value>)
    ensures Outcome(Compares, [], w, args, log, c).1
         == log + [Compared(CmpEq, if c.Some? then c.value else Bool(true), Get(args, 2))]
  {
    var s := EOr(ETrue, Y);
    assert Outcome(ETrue, [], w, args, log, c) == (Fall(Bool(true), c), log);
    assert Outcome(s, [], w, args, log, c) == (ToT(c), log);
    assert Outcome(EParen(s), [], w, args, log, c) == (ToT(c), log);
  }

  lemma ForeignWays(c: Class)
    ensures ComparesClean(Compares, [], c) <==> c == NoValue
  {
    hide Ways;
    var a := EParen(EOr(ETrue, Y));
    var m := MExit(true, c, c != NoValue);
    OperandWays(c);
    if c == NoValue {
      forall on, mw | mw in Ways(Compares, [], on, c)
        ensures !mw.MWrong?
      {
        OnlyWay(on, c, m, mw);
      }
    } else {
      var mb := MFall(NoValue, false);
      assert m in Ways(a, [], {}, c) && mb in Ways(Z, [], {}, NoValue) && MWrong in ComparedWays(m, mb);
      RelWay(OpEq, a, Z, [], {}, c, m, mb, MWrong);
    }
  }

  lemma OperandWays(c: Class)
    ensures forall on :: Ways(EParen(EOr(ETrue, Y)), [], on, c) == {MExit(true, c, c != NoValue)}
    ensures forall on :: Ways(Z, [], on, NoValue) == {MFall(NoValue, 2 in on)}
  {
    TrueOrWays(c);
  }

  lemma OnlyWay(on: set<nat>, c: Class, m: May, mw: May)
    requires mw in Ways(Compares, [], on, c) && Ways(EParen(EOr(ETrue, Y)), [], on, c) == {m}
    requires Ways(Z, [], on, NoValue) == {MFall(NoValue, 2 in on)} && m == MExit(true, c, c != NoValue)
    ensures mw in ComparedWays(m, MFall(NoValue, 2 in on))
  {
  }

  /** `local y = ((x or false) and true) or false return true` */
  const Unused := Local(BoolOf, Return(ETrue))

  /** A wrong value in a variable does no harm when it is not looked at: with declarations the
      condition is sufficient, but not necessary. */
  lemma UnusedYetRight(w: World, args: Regs, log: Log)
    requires Arguments(args, 1)
    ensures !CleanFunction(Unused, 1) && !CompileFunction(Unused, 1).err
    ensures FunctionRight(Unused, 1, w, args, log)
  {
    hide CompileFunction, Exec, Ways;
    UnusedCompiles();
    BoolOfSpoiled();
    assert {0} <= Params(1) && !GoodBlock(Unused, 1, [], {0}, NoValue);
    NoEvents(w, args, log);
    var args' := args[1 := Final(Outcome(BoolOf, [], w, args, log, None).0)];
    assert BlockOutcome(Return(ETrue), 2, ValuePool(BoolOf, []), w, args', log, None) == (Bool(true), log);
    assert EvalBlock(Return(ETrue), 2, w, args[1 := Eval(BoolOf, w, args, log).0], log) == (Bool(true), log);
    FunctionDelivers(Unused, 1, w, args, log);
  }

  lemma UnusedCompiles()
    ensures ScopedBlock(Unused, 1) && !CompileFunction(Unused, 1).err
  {
    hide CompileFunction;
    FunctionCompiles(Unused, 1);
  }

  lemma NoEvents(w: World, args: Regs, log: Log)
    ensures Outcome(BoolOf, [], w, args, log, None).1 == log && Eval(BoolOf, w, args, log).1 == log
  {
    if Truthy(Get(args, 0)) {
      BoolOfDeliversX(w, args, log);
    } else {
      var s1 := EOr(X, EFalse);
      var s2 := EAnd(s1, ETrue);
      assert Outcome(X, [], w, args, log, None) == (Fall(Get(args, 0), None), log);
      assert Outcome(s1, [], w, args, log, None) == (Fall(Bool(false), None), log);
      assert Outcome(s2, [], w, args, log, None) == (ToF(None), log);
      assert Eval(s1, w, args, log) == (Bool(false), log);
      assert Eval(s2, w, args, log) == (Bool(false), log);
    }
  }

  lemma BoolOfSpoiled()
    ensures MExit(true, TrueValue, true) in Ways(BoolOf, [], {0}, NoValue) && Spoils(MExit(true, TrueValue, true))
  {
    hide Ways;
    var on: set<nat> := {0};
    var s1, s2 := EOr(X, EFalse), EAnd(EOr(X, EFalse), ETrue);
    SimpleWays(on);
    OrLeavesWay(X, EFalse, [], on, NoValue, MFall(NoValue, true), MExit(true, TrueValue, false));
    AndGoesWay(s1, ETrue, [], on, NoValue, MExit(true, TrueValue, false), TrueValue, MFall(TrueValue, true));
    OrLeavesWay(s2, EFalse, [], on, NoValue, MFall(TrueValue, true), MExit(true, TrueValue, true));
  }

  // ---------- decided comparisons ----------

  const OneIsTwo := ERel(OpEq, ENum(1.0), ENum(2.0))

  /** `((((1 == 2) and x) or false) and true) or false` */
  const Decides1 := EAnd(OneIsTwo, X)
  const Decides2 := EOr(Decides1, EFalse)
  const Decides3 := EAnd(Decides2, ETrue)
  const Decides := EOr(Decides3, EFalse)

  /** A comparison of constants is answered by the language and not by the world.  This
      expression is not clean, because of the way on which 1 equals 2; in every world that
      compares as the language does it is right. */
  lemma UncleanYetLawful(w: World, args: Regs, log: Log)
    requires Lawful(w)
    ensures !Clean(Decides, [], NoValue)
    ensures IsRight(Decides, [], w, args, log, None)
  {
    hide Ways, Clean, Outcome, Eval;
    DecidesWrongly();
    DecidesOutcome(w, args, log);
    DecidesEval(w, args, log);
  }

  const Asked: Event := Compared(CmpEq, Num(1.0), Num(2.0))

  lemma OneIsNotTwo(w: World, args: Regs, log: Log)
    requires Lawful(w)
    ensures Eval(OneIsTwo, w, args, log) == (Bool(false), log + [Asked])
    ensures Outcome(OneIsTwo, [], w, args, log, None) == (Fall(Bool(false), None), log + [Asked])
  {
    assert Decided(CmpEq, Num(1.0), Num(2.0));
    assert Outcome(ENum(2.0), OperandPool(ENum(1.0), []), w, args, log, None) == (Fall(Num(2.0), None), log);
  }

  lemma DecidesEval(w: World, args: Regs, log: Log)
    requires Lawful(w)
    ensures Eval(Decides, w, args, log) == (Bool(false), log + [Asked])
  {
    OneIsNotTwo(w, args, log);
    assert Eval(Decides1, w, args, log) == (Bool(false), log + [Asked]);
    assert Eval(Decides2, w, args, log) == (Bool(false), log + [Asked]);
    assert Eval(Decides3, w, args, log) == (Bool(false), log + [Asked]);
  }

  lemma DecidesOutcome(w: World, args: Regs, log: Log)
    requires Lawful(w)
    ensures Outcome(Decides, [], w, args, log, None) == (Fall(Bool(false), None), log + [Asked])
  {
    OneIsNotTwo(w, args, log);
    assert Outcome(Decides1, [], w, args, log, None) == (ToF(None), log + [Asked]);
    assert Outcome(Decides2, [], w, args, log, None) == (Fall(Bool(false), None), log + [Asked]);
    assert Outcome(Decides3, [], w, args, log, None) == (ToF(None), log + [Asked]);
  }

  lemma DecidesWrongly()
    ensures !Clean(Decides, [], NoValue)
  {
    hide Ways;
    var on: set<nat> := {0};
    SimpleWays(on);
    RelWay(OpEq, ENum(1.0), ENum(2.0), [], on, NoValue, MFall(NoValue, true), MFall(NoValue, true), MFall(NoValue, true));
    AndGoesWay(OneIsTwo, X, [], on, NoValue, MFall(NoValue, true), NoValue, MFall(NoValue, true));
    OrLeavesWay(Decides1, EFalse, [], on, NoValue, MFall(NoValue, true), MExit(true, TrueValue, false));
    AndGoesWay(Decides2, ETrue, [], on, NoValue, MExit(true, TrueValue, false), TrueValue, MFall(TrueValue, true));
    OrLeavesWay(Decides3, EFalse, [], on, NoValue, MFall(TrueValue, true), MExit(true, TrueValue, true));
    assert on <= Locals(Decides) && Spoils(MExit(true, TrueValue, true));
  }

  lemma SimpleWays(on: set<nat>)
    requires on == {0}
    ensures forall n, ks: seq<Value> :: MFall(NoValue, true) in Ways(ENum(n), ks, on, NoValue)
    ensures forall ks: seq<Value> :: MFall(NoValue, true) in Ways(X, ks, on, NoValue)
    ensures forall ks: seq<Value> :: MFall(TrueValue, true) in Ways(ETrue, ks, on, TrueValue)
  {
  }

  lemma AndGoesWay(a: Expr, b: Expr, ks: seq<Value>, on: set<nat>, c: Class, ma: May, c': Class, m: May)
    requires ma in Ways(a, ks, on, c) && AndMay(ShapeOf(a), ma) == MGo(c') && m in Ways(b, Pool(a, ks), on, c')
    ensures m in Ways(EAnd(a, b), ks, on, c)
  {
    assert m in NextWays(b, Pool(a, ks), on, MGo(c'));
  }

  lemma OrLeavesWay(a: Expr, b: Expr, ks: seq<Value>, on: set<nat>, c: Class, ma: May, m: May)
    requires ma in Ways(a, ks, on, c) && OrMay(ShapeOf(a), ma) == MLeave(m)
    ensures m in Ways(EOr(a, b), ks, on, c)
  {
    assert m in NextWays(b, LoadPool(a, Pool(a, ks)), on, MLeave(m));
  }

  // ---------- the code of the first ----------

  function At0(code: Code, jpc: seq<nat>, lasttarget: int): Gen {
    NewFunction(1).(code := code, jpc := jpc, lasttarget := lasttarget)
  }

  lemma Appended(c: Code, l: seq<nat>)
    ensures c + [OPEN] == c + [OPEN] + [] && l + [] == l == [] + l && [|c|] + [] == [|c|]
  {
  }

  lemma Listed(l: seq<nat>, l2: seq<nat>)
    requires l == []
    ensures l + l2 == l2 && l2 + l == l2
  {
  }

  lemma CompiledOr()
    ensures Compile(NewFunction(1), EOr(X, EFalse))
         == (At0([TESTSET(NO_REG, 0, true), OPEN], [], 2), Exp(VFalse, [1], []))
  {
    hide Patch;
    var g := NewFunction(1);
    var i := TESTSET(NO_REG, 0, true);
    assert Patch([], [], 0, NO_REG, 0) == [];
    assert [] + [i] == [i];
    assert Emit(g, i) == g.(code := [i]);
    assert [i] + [OPEN] == [i, OPEN];
    assert [1] + [] == [1];
    assert CondJump(g, i) == (g.(code := [i, OPEN]), [1]);
    var e := Exp(VNonReloc(0), [], []);
    assert JumpIfTrue(g, e) == (g.(code := [i, OPEN]), [1]);
    Listed([], [1]);
    var h := g.(code := [i, OPEN]);
    Listed(h.jpc, []);
    assert Part(h, [], [1], []) == At0([i, OPEN], [], 2);
    assert GoIfFalse(g, Exp(VLocal(0), [], [])) == (At0([i, OPEN], [], 2), Exp(VNonReloc(0), [1], []));
  }

  lemma CompiledAnd()
    ensures Compile(NewFunction(1), EAnd(EOr(X, EFalse), ETrue))
         == (At0([TESTSET(NO_REG, 0, true), OPEN, OPEN], [1], 3), Exp(VTrue, [], [2]))
  {
    CompiledOr();
    var g := At0([TESTSET(NO_REG, 0, true), OPEN], [], 2);
    var h := At0([TESTSET(NO_REG, 0, true), OPEN, OPEN], [], 2);
    Appended(g.code, g.jpc);
    assert g.code + [OPEN] == h.code;
    assert Jump(g) == (h, [2]);
    Listed([], [1]);
    Listed([], [2]);
    assert GoIfTrue(g, Exp(VFalse, [1], [])) == (h.(jpc := [1], lasttarget := 3), Exp(VFalse, [], [2]));
  }

  lemma CompiledBoolOf()
    ensures Compile(NewFunction(1), BoolOf)
         == (At0([TESTSET(NO_REG, 0, true), OPEN, OPEN, OPEN], [2], 4), Exp(VFalse, [3, 1], []))
  {
    hide Patch, Emit, CondJump;
    CompiledAnd();
    var g := At0([TESTSET(NO_REG, 0, true), OPEN, OPEN], [1], 3);
    var h := At0([TESTSET(NO_REG, 0, true), OPEN, OPEN, OPEN], [], 3);
    Appended(g.code, g.jpc);
    assert g.code + [OPEN] == h.code;
    assert [3] + [1] == [3, 1];
    assert Jump(g) == (h, [3, 1]);
    Listed([], [2]);
    Listed([], [3, 1]);
    assert GoIfFalse(g, Exp(VTrue, [], [2])) == (h.(jpc := [2], lasttarget := 4), Exp(VTrue, [3, 1], []));
  }

  /** The whole function `return ((x or false) and true) or false`. */
  const BoolOfCode: Code := [
    TESTSET(1, 0, true), JMP(6), JMP(1), JMP(3), LOADBOOL(1, false, false), JMP(2),
    LOADBOOL(1, false, true), LOADBOOL(1, true, false), RETURN(1, 2)]

  const Loaded: Code := [TESTSET(NO_REG, 0, true), OPEN, JMP(1), OPEN, LOADBOOL(1, false, false)]
  const Bools: Code := Loaded + [OPEN, LOADBOOL(1, false, true), LOADBOOL(1, true, false)]

  lemma CompiledLoad()
    ensures ToList(ReserveReg(At0([TESTSET(NO_REG, 0, true), OPEN, OPEN, OPEN], [2], 4)), Exp(VFalse, [3, 1], []), 1)
         == (At0(Loaded, [], 4).(freereg := 2), Exp(VNonReloc(1), [3, 1], []))
  {
    var g := At0([TESTSET(NO_REG, 0, true), OPEN, OPEN, OPEN], [2], 4);
    assert Patch(g.code, [2], 4, NO_REG, 4) == [TESTSET(NO_REG, 0, true), OPEN, JMP(1), OPEN];
    assert Patch(g.code, [2], 4, NO_REG, 4) + [LOADBOOL(1, false, false)] == Loaded;
    assert !PatchTooFar(g.code, [2], 4, 4);
  }

  lemma CompiledBools()
    ensures LoadBools(At0(Loaded, [], 4).(freereg := 2), false, 1)
         == (At0(Bools, [5], 8).(freereg := 2), 6, 7)
  {
    var g := At0(Loaded, [], 4).(freereg := 2);
    var c1 := Loaded + [OPEN];
    var c2 := c1 + [LOADBOOL(1, false, true)];
    var c3 := c2 + [LOADBOOL(1, true, false)];
    assert [5] + [] == [5] && [] + [5] == [5];
    assert Jump(g) == (g.(code := c1), [5]);
    assert Patch(c1, [], 6, NO_REG, 6) == c1 && Patch(c2, [], 7, NO_REG, 7) == c2;
    assert c3 == Bools;
    var g1 := g.(code := c1);
    assert Emit(GetLabel(g1), LOADBOOL(1, false, true)) == g.(code := c2, lasttarget := 6);
    assert Emit(GetLabel(g.(code := c2, lasttarget := 6)), LOADBOOL(1, true, false)) == g.(code := c3, lasttarget := 7);
  }

  const Ended: Code := [
    TESTSET(1, 0, true), JMP(6), JMP(1), JMP(3), LOADBOOL(1, false, false), OPEN,
    LOADBOOL(1, false, true), LOADBOOL(1, true, false)]

  lemma CompiledExits()
    ensures PatchExits(At0(Bools, [5], 8).(freereg := 2), Exp(VNonReloc(1), [3, 1], []), 1, 6, 7)
         == At0(Ended, [5], 8).(freereg := 2)
  {
    assert Patch(Bools, [], 8, 1, 6) == Bools;
    assert Patch(Bools, [3, 1], 8, 1, 7) == Ended;
  }

  lemma CompiledValue()
    ensures Exp2AnyReg(At0([TESTSET(NO_REG, 0, true), OPEN, OPEN, OPEN], [2], 4), Exp(VFalse, [3, 1], []))
         == (At0(Ended, [5], 8).(freereg := 2), Exp(VNonReloc(1), [], []))
  {
    hide PatchExits, LoadBools, ToList;
    CompiledLoad();
    CompiledBools();
    CompiledExits();
    var g0 := At0([TESTSET(NO_REG, 0, true), OPEN, OPEN, OPEN], [2], 4);
    var e0 := Exp(VFalse, [3, 1], []);
    assert NeedValue(Loaded, [3, 1]) by { assert 3 in [3, 1] && !Guarded(Loaded, 3); }
    assert Exp2AnyReg(g0, e0) == Exp2Reg(ReserveReg(g0), e0, 1);
  }

  lemma CompiledProgram()
    ensures var g := CompileReturn(NewFunction(1), BoolOf); g.code == BoolOfCode && !g.err && g.k == []
  {
    hide Exp2AnyReg, Compile;
    CompiledBoolOf();
    CompiledValue();
    assert Patch(Ended, [5], 8, NO_REG, 8) + [RETURN(1, 2)] == BoolOfCode;
    assert !PatchTooFar(Ended, [5], 8, 8);
  }

  /** Run on a true argument it returns the argument. */
  lemma ProgramReturnsX(w: World, args: Regs, log: Log)
    requires Truthy(Get(args, 0))
    ensures Exec(BoolOfCode, [], w, 0, Machine(args, log)) == Returned([Get(args, 0)], log)
  {
    var m := Machine(args[1 := Get(args, 0)], log);
    OneResult(m.regs, 1);
    assert Exec(BoolOfCode, [], w, 8, m) == Returned([Get(args, 0)], log);
    assert TakeJump(BoolOfCode, [], w, 1, Some(Get(args, 0)), Machine(args, log)) == Exec(BoolOfCode, [], w, 8, m);
  }

  // ---------- the code behind an `if` ----------

  function At2(code: Code, jpc: seq<nat>, lasttarget: int): Gen {
    NewFunction(2).(code := code, jpc := jpc, lasttarget := lasttarget)
  }

  const Tested: Code := [TESTSET(NO_REG, 0, false), OPEN]

  lemma CompiledIf()
    ensures CompileCond(NewFunction(2), X) == (At2(Tested, [], 2), [1])
  {
    hide Patch;
    var g := NewFunction(2);
    var i := TESTSET(NO_REG, 0, false);
    assert Patch([], [], 0, NO_REG, 0) == [];
    assert [] + [i] == [i];
    assert Emit(g, i) == g.(code := [i]);
    assert [i] + [OPEN] == Tested;
    assert [1] + [] == [1];
    assert CondJump(g, i) == (g.(code := Tested), [1]);
    var e := Exp(VNonReloc(0), [], []);
    assert JumpIfFalse(g, e) == (g.(code := Tested), [1]);
    Listed([], [1]);
    var h := g.(code := Tested);
    Listed(h.jpc, []);
    assert Part(h, [], [1], []) == At2(Tested, [], 2);
    assert GoIfTrue(g, Exp(VLocal(0), [], [])) == (At2(Tested, [], 2), Exp(VNonReloc(0), [], [1]));
  }

  lemma CompiledTrueOr()
    ensures Compile(At2(Tested, [1], 2), EOr(ETrue, Y)) == (At2(Tested + [OPEN], [], 3), Exp(VNonReloc(1), [2, 1], []))
  {
    var g := At2(Tested, [1], 2);
    var h := At2(Tested + [OPEN], [], 2);
    assert [2] + [1] == [2, 1];
    assert Jump(g) == (h, [2, 1]);
    Listed([], [2, 1]);
    Listed(h.jpc, []);
    assert Part(h, [], [2, 1], []) == At2(Tested + [OPEN], [], 3);
    assert GoIfFalse(g, Exp(VTrue, [], [])) == (At2(Tested + [OPEN], [], 3), Exp(VTrue, [2, 1], []));
  }

  const Moved: Code := [TESTSET(NO_REG, 0, false), OPEN, OPEN, MOVE(2, 1)]
  const MovedBools: Code := Moved + [OPEN, LOADBOOL(2, false, true), LOADBOOL(2, true, false)]
  const MovedEnded: Code := [
    TESTSET(2, 0, false), JMP(5), JMP(3), MOVE(2, 1), OPEN, LOADBOOL(2, false, true), LOADBOOL(2, true, false)]

  /** The whole function `if x then end return true or y`: when `x` is nil, TESTSET puts it
      into the register that is returned. */
  const BehindIfCode: Code := [
    TESTSET(2, 0, false), JMP(5), JMP(3), MOVE(2, 1), JMP(2), LOADBOOL(2, false, true), LOADBOOL(2, true, false),
    RETURN(2, 2), RETURN(0, 1)]

  function Used(g: Gen): Gen {
    g.(freereg := 3, maxstack := 3)
  }

  lemma MovedLoad()
    ensures ToList(Used(At2(Tested + [OPEN], [], 3)), Exp(VNonReloc(1), [2, 1], []), 2)
         == (Used(At2(Moved, [], 3)), Exp(VNonReloc(2), [2, 1], []))
  {
    var c := Tested + [OPEN];
    assert Patch(c, [], 3, NO_REG, 3) == c;
    assert c + [MOVE(2, 1)] == Moved;
  }

  lemma MovedLoadBools()
    ensures LoadBools(Used(At2(Moved, [], 3)), false, 2) == (Used(At2(MovedBools, [4], 7)), 5, 6)
  {
    var g := Used(At2(Moved, [], 3));
    var c1 := Moved + [OPEN];
    var c2 := c1 + [LOADBOOL(2, false, true)];
    var c3 := c2 + [LOADBOOL(2, true, false)];
    assert [4] + [] == [4] && [] + [4] == [4];
    assert Jump(g) == (g.(code := c1), [4]);
    assert Patch(c1, [], 5, NO_REG, 5) == c1 && Patch(c2, [], 6, NO_REG, 6) == c2;
    assert c3 == MovedBools;
    var g1 := g.(code := c1);
    assert Emit(GetLabel(g1), LOADBOOL(2, false, true)) == g.(code := c2, lasttarget := 5);
    assert Emit(GetLabel(g.(code := c2, lasttarget := 5)), LOADBOOL(2, true, false)) == g.(code := c3, lasttarget := 6);
  }

  lemma MovedExits()
    ensures PatchExits(Used(At2(MovedBools, [4], 7)), Exp(VNonReloc(2), [2, 1], []), 2, 5, 6)
         == Used(At2(MovedEnded, [4], 7))
  {
    assert Patch(MovedBools, [], 7, 2, 5) == MovedBools;
    assert Patch(MovedBools, [2, 1], 7, 2, 6) == MovedEnded;
  }

  lemma MovedValue()
    ensures Exp2AnyReg(At2(Tested + [OPEN], [], 3), Exp(VNonReloc(1), [2, 1], []))
         == (Used(At2(MovedEnded, [4], 7)), Exp(VNonReloc(2), [], []))
  {
    hide PatchExits, LoadBools, ToList;
    MovedLoad();
    MovedLoadBools();
    MovedExits();
    var g0 := At2(Tested + [OPEN], [], 3);
    var e0 := Exp(VNonReloc(1), [2, 1], []);
    assert NeedValue(Moved, [2, 1]) by { assert 2 in [2, 1] && !Guarded(Moved, 2); }
    assert ReserveReg(g0) == Used(g0);
    assert Exp2AnyReg(g0, e0) == Exp2Reg(Used(g0), e0, 2);
  }

  lemma MovedReturn()
    ensures CompileReturn(At2(Tested, [1], 2), EOr(ETrue, Y)) == Used(At2(BehindIfCode[..8], [], 7))
  {
    hide Exp2AnyReg, Compile;
    CompiledTrueOr();
    MovedValue();
    assert Patch(MovedEnded, [4], 7, NO_REG, 7) + [RETURN(2, 2)] == BehindIfCode[..8];
    assert !PatchTooFar(MovedEnded, [4], 7, 7);
  }

  lemma CompiledBehindIf()
    ensures var g := CompileFunction(BehindIf, 2); g.code == BehindIfCode && !g.err && g.k == []
  {
    hide CompileReturn, CompileCond;
    CompiledIf();
    MovedReturn();
    Listed([], [1]);
    assert AfterIf(At2(Tested, [], 2), [1]) == At2(Tested, [1], 2);
    assert CompileBlock(At2(Tested, [1], 2), Return(EOr(ETrue, Y))) == CompileReturn(At2(Tested, [1], 2), EOr(ETrue, Y));
    var c := BehindIfCode[..8];
    assert Patch(c, [], 8, NO_REG, 8) + [RETURN(0, 1)] == BehindIfCode;
  }
}
