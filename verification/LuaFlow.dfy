/** What the logical operators, comparisons and registers make of a delivered value. */
module LuaFlow {
  import opened LuaSource
  import opened LuaMachine
  import opened LuaCodegen
  import opened LuaOutcome
  import opened LuaRun
  import opened LuaInvariant
  import opened LuaDelivery

  // ---------- and, or ----------

  /** Code behind the unfinished comparison is only its test and open jump. */
  lemma CompareCode(g: Gen, e: Exp)
    requires ExpOK(g, e) && e.k.VJmp?
    ensures g.code == Core(g, e) + [g.code[e.k.pc - 1], OPEN]
    ensures Core(g, e) == [] || !IsTest(Core(g, e)[|Core(g, e)| - 1])
    ensures Inverted(g, e) == g.code[..e.k.pc - 1] + [g.code[e.k.pc - 1].(accept := !g.code[e.k.pc - 1].accept), OPEN]
  {
    var c := Core(g, e);
    if c != [] {
      assert JumpWithin(g.code, g.lasttarget, |c| - 1);
    }
  }

  ghost function Inverted(g: Gen, e: Exp): Code
    requires ExpOK(g, e) && e.k.VJmp?
  {
    InvertJump(g, e.k.pc).code
  }

  ghost predicate CompareTurned(x: Start, g: Gen, e: Exp, c': Code, y: Seen, jumpWhen: bool, regs: Regs, base: nat) {
    var r := Run(x, c');
    match y
    case Gone(r') => r == r' && Elsewhere(r, [])
    case Got(ToT(v), log) => Left(c', r, e.t, v, log, regs, base)
    case Got(ToF(v), log) => Left(c', r, e.f, v, log, regs, base)
    case Got(Fall(v, _), log) =>
      if Truthy(v) == jumpWhen then e.k.VJmp? && Left(c', r, [e.k.pc], None, log, regs, base)
      else r.Halt? && r.m.log == log && SameBelow(r.m.regs, regs, base)
  }

  /** The comparison's own jump is taken when it holds, or when it does not after
      `invertjump`. */
  lemma ComparisonRun(x: Start, g: Gen, e: Exp, y: Seen, regs: Regs, base: nat, invert: bool)
    requires ExpOK(g, e) && Delivers(x, g, e, y, regs, base) && e.k.VJmp?
    ensures CompareTurned(x, g, e, if invert then Inverted(g, e) else g.code, y, !invert, regs, base)
  {
    hide Exec, GenOK, JumpList, Apart, Inverted;
    CompareCode(g, e);
    var c := Core(g, e);
    var i0 := g.code[e.k.pc - 1];
    var i := if invert then i0.(accept := !i0.accept) else i0;
    var c' := c + [i, OPEN];
    var r := Run(x, c);
    var p := if y.Got? && y.o.Fall? then At(r.m, None) else Away(r);
    RunLeavesOpen(c, x.ks, x.w, x.q, x.m);
    TailRun(x, c, [i, OPEN], p);
    if p.At? {
      LastTest(c, i, x, r.m);
    }
  }

  function AndFall(sh: Shape, y: Seen): Next {
    if y.Got? && y.o.Fall? then AndNext(sh, y.o) else Go(None)
  }

  function OrFall(sh: Shape, y: Seen): Next {
    if y.Got? && y.o.Fall? then OrNext(sh, y.o) else Go(None)
  }

  /** A constant that decides nothing: the run just goes on. */
  lemma PassDirected(x: Start, g: Gen, e: Exp, y: Seen, regs: Regs, base: nat)
    requires ExpOK(g, e) && Delivers(x, g, e, y, regs, base) && ConstantKind(e.k)
    ensures Directed(x, g, [], e, y, if y.Got? && y.o.Fall? then Go(y.o.c) else Go(None), regs, base)
  {
    assert Core(g, e) == g.code;
  }

  /** A constant that decides everything: an unconditional jump, joined by the pending
      jumps with whatever they offer. */
  lemma JumpDirected(x: Start, g: Gen, e: Exp, y: Seen, regs: Regs, base: nat)
    requires ExpOK(g, e) && Delivers(x, g, e, y, regs, base) && ConstantKind(e.k)
    ensures var (g1, pc) := Jump(g);
            Directed(x, g1, pc, e, y, if y.Got? && y.o.Fall? then Leave(y.o.c) else Go(None), regs, base)
  {
    WhereItIs(x, g, e, y, regs, base);
    JumpOK(g);
    JumpRun(x, g, SpotOf(g, Run(x, g.code)));
    var r := Run(x, g.code);
    RunLeavesOpen(g.code, x.ks, x.w, x.q, x.m);
    if r.Out? { assert OpenAlike(g.code, Jump(g).0.code, r.j); }
  }

  lemma ComparisonDirected(x: Start, g: Gen, e: Exp, y: Seen, regs: Regs, base: nat, invert: bool)
    requires ExpOK(g, e) && Delivers(x, g, e, y, regs, base) && e.k.VJmp?
    ensures Directed(x, if invert then InvertJump(g, e.k.pc) else g, [e.k.pc], e, y,
                     FallNext(SJump, FallValue(y), !invert), regs, base)
  {
    ComparisonRun(x, g, e, y, regs, base, invert);
  }

  lemma JumpIfFalseDirected(x: Start, g: Gen, e: Exp, sh: Shape, y: Seen, regs: Regs, base: nat)
    requires ExpOK(g, e) && Delivers(x, g, e, y, regs, base) && Entered(x, g) && TopTemp(g, e) && Shaped(g, e, sh)
    requires JumpIfFalse(g, e).0.k <= x.ks && g.k <= x.ks && g.nactvar <= base <= g.freereg && !JumpIfFalse(g, e).0.err
    ensures var (g1, pc) := JumpIfFalse(g, e); Directed(x, g1, pc, e, y, AndFall(sh, y), regs, base)
  {
    hide Jump, InvertJump, JumpOnCond, ExpOK, TopTemp, Entered, Delivers, Turned, Left;
    match e.k
    case VK(_) => PassDirected(x, g, e, y, regs, base);
    case VKNum(_) => PassDirected(x, g, e, y, regs, base);
    case VTrue => PassDirected(x, g, e, y, regs, base);
    case VFalse => JumpDirected(x, g, e, y, regs, base);
    case VJmp(_) => ComparisonDirected(x, g, e, y, regs, base, true);
    case _ => JumpOnCondDirected(x, g, e, sh, false, y, regs, base);
  }

  lemma JumpIfTrueDirected(x: Start, g: Gen, e: Exp, sh: Shape, y: Seen, regs: Regs, base: nat)
    requires ExpOK(g, e) && Delivers(x, g, e, y, regs, base) && Entered(x, g) && TopTemp(g, e) && Shaped(g, e, sh)
    requires JumpIfTrue(g, e).0.k <= x.ks && g.k <= x.ks && g.nactvar <= base <= g.freereg && !JumpIfTrue(g, e).0.err
    ensures var (g1, pc) := JumpIfTrue(g, e); Directed(x, g1, pc, e, y, OrFall(sh, y), regs, base)
  {
    hide Jump, JumpOnCond, ExpOK, TopTemp, Entered, Delivers, Turned, Left;
    match e.k
    case VNil => PassDirected(x, g, e, y, regs, base);
    case VFalse => PassDirected(x, g, e, y, regs, base);
    case VTrue => JumpDirected(x, g, e, y, regs, base);
    case VJmp(_) => ComparisonDirected(x, g, e, y, regs, base, false);
    case _ => JumpOnCondDirected(x, g, e, sh, true, y, regs, base);
  }

  /** What the whole of `luaK_goiftrue`/`luaK_goiffalse` makes of a delivered value. */
  ghost predicate Parted(x: Start, g: Gen, out: seq<nat>, y: Seen, n: Next, regs: Regs, base: nat) {
    var r := Run(x, g.code);
    match y
    case Gone(r') => r == r' && Elsewhere(r, g.jpc + out)
    case Got(_, log) => Turned(x, g, out, n, log, regs, base)
  }

  lemma PartParted(x: Start, g: Gen, e: Exp, g1: Gen, pc: seq<nat>, isAnd: bool, y: Seen, n: Next, regs: Regs, base: nat)
    requires ExpOK(g, e) && Delivers(x, g, e, y, regs, base)
    requires Branches(g, e, g1, pc) && Directed(x, g1, pc, e, y, n, regs, base)
    ensures var out, here := if isAnd then e.f else e.t, if isAnd then e.t else e.f;
            var n' := match y
              case Got(ToT(c), _) => if isAnd then Go(c) else Leave(c)
              case Got(ToF(c), _) => if isAnd then Leave(c) else Go(c)
              case _ => n;
            Parted(x, Part(g1, out, pc, here), out + pc, y, n', regs, base)
  {
    RunLeavesOpen(Core(g, e), x.ks, x.w, x.q, x.m);
    RunLeavesOpen(g1.code, x.ks, x.w, x.q, x.m);
  }

  /** The variable has become a value. */
  lemma DischargedFirst(x: Start, g: Gen, e: Exp, sh: Shape, y: Seen, regs: Regs, base: nat)
    requires ExpOK(g, e) && Delivers(x, g, e, y, regs, base) && Entered(x, g) && TopTemp(g, e) && Shaped(g, e, sh)
    ensures var (g0, e0) := DischargeVars(g, e);
            && ExpOK(g0, e0) && Delivers(x, g0, e0, y, regs, base)
            && Entered(x, g0) && TopTemp(g0, e0) && Shaped(g0, e0, sh)
            && g0.k == g.k && g0.freereg == g.freereg && g0.nactvar == g.nactvar && e0.t == e.t && e0.f == e.f
  {
    hide Delivers, JumpsWithin, NilRanges, NoDup, Opens, Exec;
    DischargeVarsOK(g, e);
    DischargedLevel(g, e);
    DischargeVarsDelivers(x, g, e, y, regs, base);
    EnteredLater(x, g, DischargeVars(g, e).0);
  }

  lemma GoIfTrueParted(x: Start, g: Gen, e: Exp, sh: Shape, y: Seen, regs: Regs, base: nat)
    requires ExpOK(g, e) && Delivers(x, g, e, y, regs, base) && Entered(x, g) && TopTemp(g, e) && Shaped(g, e, sh)
    requires GoIfTrue(g, e).0.k <= x.ks && g.nactvar <= base <= g.freereg && !GoIfTrue(g, e).0.err
    ensures var (g', e') := GoIfTrue(g, e);
            Parted(x, g', e'.f, y, if y.Got? then AndNext(sh, y.o) else Go(None), regs, base)
  {
    hide DischargeVars, JumpIfFalse, ExpOK, Delivers, Entered, TopTemp, Shaped, Branches, Directed, Turned, Elsewhere;
    DischargedFirst(x, g, e, sh, y, regs, base);
    var (g0, e0) := DischargeVars(g, e);
    JumpIfFalseOK(g0, e0);
    JumpIfFalseDirected(x, g0, e0, sh, y, regs, base);
    var (g1, pc) := JumpIfFalse(g0, e0);
    PartParted(x, g0, e0, g1, pc, true, y, AndFall(sh, y), regs, base);
  }

  lemma GoIfFalseParted(x: Start, g: Gen, e: Exp, sh: Shape, y: Seen, regs: Regs, base: nat)
    requires ExpOK(g, e) && Delivers(x, g, e, y, regs, base) && Entered(x, g) && TopTemp(g, e) && Shaped(g, e, sh)
    requires GoIfFalse(g, e).0.k <= x.ks && g.nactvar <= base <= g.freereg && !GoIfFalse(g, e).0.err
    ensures var (g', e') := GoIfFalse(g, e);
            Parted(x, g', e'.t, y, if y.Got? then OrNext(sh, y.o) else Go(None), regs, base)
  {
    hide DischargeVars, JumpIfTrue, ExpOK, Delivers, Entered, TopTemp, Shaped, Branches, Directed, Turned, Elsewhere;
    DischargedFirst(x, g, e, sh, y, regs, base);
    var (g0, e0) := DischargeVars(g, e);
    JumpIfTrueOK(g0, e0);
    JumpIfTrueDirected(x, g0, e0, sh, y, regs, base);
    var (g1, pc) := JumpIfTrue(g0, e0);
    PartParted(x, g0, e0, g1, pc, false, y, OrFall(sh, y), regs, base);
  }

  lemma EnteredLater(x: Start, g: Gen, g': Gen)
    requires Entered(x, g) && |g.code| <= |g'.code| && g'.nactvar == g.nactvar
    requires |g'.code| == |g.code| ==> g'.lasttarget >= g.lasttarget && g'.lasttarget <= |g'.code|
    ensures Entered(x, g')
  {
  }

  // ---------- not ----------

  function NegatedFall(y: Seen): Seen {
    match y
    case Got(Fall(v, c), log) => Got(Fall(Bool(!Truthy(v)), c), log)
    case _ => y
  }

  function NotSeen(y: Seen): Seen {
    match y
    case Got(o, log) => Got(NotExit(o), log)
    case _ => y
  }

  lemma NotIntoDelivers(x: Start, g: Gen, e: Exp, y: Seen, regs: Regs, base: nat)
    requires ExpOK(g, e) && Delivers(x, g, e, y, regs, base) && Entered(x, g) && TopTemp(g, e)
    requires Negate(g, e).0.k <= x.ks && g.k <= x.ks && g.nactvar <= base <= g.freereg && !Negate(g, e).0.err
    requires e.k.VReloc? || e.k.VNonReloc? || e.k.VLocal? || e.k.VGlobal?
    ensures var (g1, k1) := Negate(g, e);
            ExpOK(g1, e.(k := k1)) && Delivers(x, g1, e.(k := k1), NegatedFall(y), regs, base)
  {
    hide Delivers, ExpOK, TopTemp, Untouched, From, Discharge2AnyReg, Settled;
    Discharge2AnyRegOK(g, e);
    Discharge2AnyRegDelivers(x, g, e, y, regs, base);
    var (g2, e2) := Discharge2AnyReg(g, e);
    NotInto(g, e);
    var (g1, k1) := Negate(g, e);
    NotCode(g, e, g2, e2);
    NegatedReg(x, g2, e2, y, g1, e.(k := k1), regs, base);
  }

  lemma NotCode(g: Gen, e: Exp, g2: Gen, e2: Exp)
    requires e.k.VReloc? || e.k.VNonReloc? || e.k.VLocal? || e.k.VGlobal?
    requires (g2, e2) == Discharge2AnyReg(g, e) && e2.k.VNonReloc?
    ensures var (g1, k1) := Negate(g, e);
            g1.code == Settled(g2) + [NOT(0, e2.k.reg)] && g1.jpc == [] && k1 == VReloc(|g2.code|)
  {
    hide Discharge2AnyReg;
  }

  /** OP_NOT on the register that holds the value. */
  lemma NegatedReg(x: Start, g: Gen, e: Exp, y: Seen, g1: Gen, e1: Exp, regs: Regs, base: nat)
    requires ExpOK(g, e) && Delivers(x, g, e, y, regs, base) && e.k.VNonReloc?
    requires ExpOK(g1, e1) && e1 == e.(k := VReloc(|g.code|)) && g1.jpc == []
    requires g1.code == Settled(g) + [NOT(0, e.k.reg)]
    ensures Delivers(x, g1, e1, NegatedFall(y), regs, base)
  {
    WhereItIs(x, g, e, y, regs, base);
    SettledOK(g);
    SettledRun(x, g, SpotOf(g, Run(x, g.code)));
    assert Core(g1, e1) == Settled(g);
    RunLeavesOpen(g.code, x.ks, x.w, x.q, x.m);
    var r := Run(x, g.code);
    if r.Out? && r.j !in g.jpc {
      assert OpenAlike(g.code, Settled(g), r.j);
    }
  }

  lemma NegateDelivers(x: Start, g: Gen, e: Exp, sh: Shape, y: Seen, regs: Regs, base: nat)
    requires ExpOK(g, e) && Delivers(x, g, e, y, regs, base) && Entered(x, g) && TopTemp(g, e) && Shaped(g, e, sh)
    requires Negate(g, e).0.k <= x.ks && g.k <= x.ks && g.nactvar <= base <= g.freereg && !Negate(g, e).0.err
    ensures var (g1, k1) := Negate(g, e);
            ExpOK(g1, e.(k := k1)) && Delivers(x, g1, e.(k := k1), NegatedFall(y), regs, base)
  {
    hide Delivers, ExpOK, TopTemp, Entered, Discharge2AnyReg, Emit, InvertJump;
    if e.k.VReloc? || e.k.VNonReloc? || e.k.VLocal? || e.k.VGlobal? {
      NotIntoDelivers(x, g, e, y, regs, base);
    } else if e.k.VJmp? {
      InvertedDelivers(x, g, e, y, regs, base);
    } else {
      NegateOK(g, e);
      NegatedConstant(x, g, e, sh, y, regs, base);
    }
  }

  lemma NegatedConstant(x: Start, g: Gen, e: Exp, sh: Shape, y: Seen, regs: Regs, base: nat)
    requires ExpOK(g, e) && Delivers(x, g, e, y, regs, base) && Shaped(g, e, sh) && ConstantKind(e.k) && g.k <= x.ks
    requires ExpOK(g, e.(k := Negate(g, e).1))
    ensures Negate(g, e).0 == g && Delivers(x, g, e.(k := Negate(g, e).1), NegatedFall(y), regs, base)
  {
    hide GenOK, JumpList, Exec;
    assert Core(g, e.(k := Negate(g, e).1)) == Core(g, e);
  }

  lemma InvertedDelivers(x: Start, g: Gen, e: Exp, y: Seen, regs: Regs, base: nat)
    requires ExpOK(g, e) && Delivers(x, g, e, y, regs, base) && e.k.VJmp?
    ensures var g1 := InvertJump(g, e.k.pc); ExpOK(g1, e) && Delivers(x, g1, e, NegatedFall(y), regs, base)
  {
    var g1 := InvertJump(g, e.k.pc);
    InvertJumpOK(g, e);
    assert Core(g1, e) == Core(g, e);
    var r := Run(x, Core(g, e));
    RunLeavesOpen(Core(g, e), x.ks, x.w, x.q, x.m);
    if r.Out? && r.j !in g.jpc {
      assert OpenAlike(g.code, g1.code, r.j);
    }
  }

  /** Interchanging the lists after their TESTSETs lost their values. */
  lemma SwapDelivers(x: Start, g: Gen, e: Exp, y: Seen, regs: Regs, base: nat)
    requires ExpOK(g, e) && Delivers(x, g, e, y, regs, base)
    ensures var c := RemoveValues(RemoveValues(g.code, e.t), e.f);
            var g', e', y' := g.(code := c), Exp(e.k, e.f, e.t), (match y
              case Got(ToT(_), log) => Got(ToF(None), log)
              case Got(ToF(_), log) => Got(ToT(None), log)
              case _ => y);
            ExpOK(g', e') && Delivers(x, g', e', y', regs, base)
  {
    hide RemoveValues, Exec, GenOK;
    var c := RemoveValues(RemoveValues(g.code, e.t), e.f);
    SwappedCode(g, e);
    SwappedRun(x, g, e);
  }

  lemma SwappedCode(g: Gen, e: Exp)
    requires ExpOK(g, e)
    ensures var c := RemoveValues(RemoveValues(g.code, e.t), e.f);
            var g', e' := g.(code := c), Exp(e.k, e.f, e.t);
            && ExpOK(g', e') && CoreLen(g', e') == CoreLen(g, e) && Extends(g.code, c) && |c| == |g.code|
            && (forall j :: j in e.t + e.f ==> !Guarded(c, j))
            && Untouched(g.code, c, e.t + e.f)
            && (e.k.VReloc? ==> c[e.k.pc] == g.code[e.k.pc])
            && (e.k.VJmp? ==> c[e.k.pc - 1] == g.code[e.k.pc - 1])
  {
    hide RemoveValues, JumpsWithin, NilRanges, NoDup;
    SwappedOK(g, e);
    RemoveListsOK(g, e);
    if e.k.VReloc? { assert ExtendsAt(g.code, RemoveValues(RemoveValues(g.code, e.t), e.f), e.k.pc); }
    if e.k.VJmp? { assert ExtendsAt(g.code, RemoveValues(RemoveValues(g.code, e.t), e.f), e.k.pc - 1); }
  }

  /** A run leaves where it left before, with its value unless that was dropped. */
  lemma SwappedRun(x: Start, g: Gen, e: Exp)
    requires ExpOK(g, e) && !Run(x, Core(g, e)).Stuck?
    ensures var c := RemoveValues(RemoveValues(g.code, e.t), e.f);
            var b := Core(g, e);
            var r := Run(x, b);
            && |b| <= |c| && (r.Out? && r.j !in e.t + e.f ==> (Guarded(c, r.j) <==> Guarded(g.code, r.j)))
            && Run(x, c[..|b|]) == if r.Out? && r.j in e.t + e.f then Out(r.j, None, r.m) else r
  {
    hide RemoveValues, JumpsWithin, NilRanges, NoDup;
    SwappedCode(g, e);
    var c := RemoveValues(RemoveValues(g.code, e.t), e.f);
    var b := Core(g, e);
    var b' := c[..|b|];
    ExtendsPrefix(g.code, c, |b|);
    RunLeavesOpen(b, x.ks, x.w, x.q, x.m);
    RunExtended(b, b', x.ks, x.w, x.q, x.m);
    var r := Run(x, b);
    if r.Halt? { AtEnd(x, b', r.m); }
    if r.Out? {
      assert b'[r.j] == c[r.j];
      if r.j !in e.t + e.f { assert OpenAlike(g.code, c, r.j); }
    }
  }

  lemma ExtendsPrefix(c: Code, c': Code, n: nat)
    requires Extends(c, c') && n <= |c| && |c| == |c'|
    requires n < |c| ==> c[n] != OPEN
    ensures Extends(c[..n], c'[..n])
  {
    forall i | 0 <= i < n
      ensures ExtendsAt(c[..n], c'[..n], i)
    {
      assert ExtendsAt(c, c', i);
    }
  }

  lemma CodeNotDelivers(x: Start, g: Gen, e: Exp, sh: Shape, y: Seen, regs: Regs, base: nat)
    requires ExpOK(g, e) && Delivers(x, g, e, y, regs, base) && Entered(x, g) && TopTemp(g, e) && Shaped(g, e, sh)
    requires CodeNot(g, e).0.k <= x.ks && g.nactvar <= base <= g.freereg && !CodeNot(g, e).0.err
    ensures var (g', e') := CodeNot(g, e);
            ExpOK(g', e') && Delivers(x, g', e', NotSeen(y), regs, base)
  {
    hide DischargeVars, Negate, ExpOK, Delivers, Entered, TopTemp, Shaped, RemoveValues;
    DischargedFirst(x, g, e, sh, y, regs, base);
    var (g0, e0) := DischargeVars(g, e);
    NegateOK(g0, e0);
    NegateDelivers(x, g0, e0, sh, y, regs, base);
    var (g1, k1) := Negate(g0, e0);
    SwapDelivers(x, g1, e0.(k := k1), NegatedFall(y), regs, base);
  }
}
