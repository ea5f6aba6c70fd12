/** The code generator as it is: a state updated in place, with jump lists threaded through
    the instructions.  Every method is proved to do what its function in LuaCodegen does. */
module LuaFuncState {
  import opened LuaSource
  import opened LuaMachine
  import opened LuaCodegen
  import opened LuaRun
  import opened LuaInvariant
  import opened LuaOperands
  import opened LuaThreads

  /** Expression descriptor, updated in place as the expression is compiled. */
  class ExpDesc {
    var k: Kind
    var t: int
    var f: int
    /** Its lists, as sequences. */
    ghost var e: Exp

    constructor (k: Kind)
      ensures this.k == k && t == NO_JUMP && f == NO_JUMP && e == Exp(k, [], [])
    {
      this.k := k;
      t := NO_JUMP;
      f := NO_JUMP;
      e := Exp(k, [], []);
    }

    ghost predicate Holds(c: Code)
      reads this
    {
      && k == e.k && Threads(c, t, e.t) && Threads(c, f, e.f)
      && (k.VJmp? ==> Threads(c, k.pc, [k.pc]))
    }

    /** Its lists are `t` and `f`, whatever its kind. */
    ghost predicate Exits(c: Code, lt: seq<nat>, lf: seq<nat>)
      reads this
    {
      Threads(c, t, lt) && Threads(c, f, lf)
    }

    lemma ExitsStill(a: Code, c: Code, c': Code, lists: seq<nat>, lt: seq<nat>, lf: seq<nat>)
      requires Exits(c, lt, lf) && Unmoved(a, c, c', lists) && Opens(a, lt) && Opens(a, lf)
      requires Apart(lt, lists) && Apart(lf, lists)
      ensures Exits(c', lt, lf)
    {
      ThreadsKept(a, c, c', lists, t, lt);
      ThreadsKept(a, c, c', lists, f, lf);
    }

    lemma NoLists(c: Code)
      requires Holds(c)
      ensures e.t == [] <==> t == NO_JUMP
      ensures e.f == [] <==> f == NO_JUMP
    {
    }

    /** Its lists are where they were after a step that redirects only other jumps. */
    lemma HoldsStill(a: Code, c: Code, c': Code, lists: seq<nat>)
      requires Holds(c) && Unmoved(a, c, c', lists) && Opens(a, e.t) && Opens(a, e.f)
      requires Apart(e.t, lists) && Apart(e.f, lists)
      requires k.VJmp? ==> Opens(a, [k.pc]) && k.pc !in lists
      ensures Holds(c')
    {
      ThreadsKept(a, c, c', lists, t, e.t);
      ThreadsKept(a, c, c', lists, f, e.f);
      if k.VJmp? { ThreadsKept(a, c, c', lists, k.pc, [k.pc]); }
    }
  }

  class FuncState {
    var code: Code
    var pc: nat
    var lasttarget: int
    var jpc: int
    var freereg: nat
    var maxstack: nat
    var nactvar: nat
    var k: seq<Value>
    var h: map<Value, nat>
    /** An error was raised; nothing is done after that. */
    var failed: bool
    ghost var gen: Gen

    /** The instructions emitted so far. */
    ghost function Live(): Code
      reads this
    {
      if pc <= |code| then code[..pc] else code
    }

    ghost predicate Valid()
      reads this
    {
      && pc <= |code| && Stands(Live(), gen.code)
      && Threads(Live(), jpc, gen.jpc) && JumpList(gen.code, gen.jpc)
      && lasttarget == gen.lasttarget && freereg == gen.freereg && maxstack == gen.maxstack
      && nactvar == gen.nactvar && k == gen.k && !failed && !gen.err
      && Indexes(h, k)
    }

    /** The state is what `g` says, or an error was raised where `g` has one. */
    ghost predicate Is(g: Gen)
      reads this
    {
      failed == g.err && (!failed ==> Valid() && gen == g)
    }

    constructor (nactvar: nat)
      requires nactvar < MAXSTACK
      ensures Valid() && GenOK(gen) && pc == 0
      ensures gen == Gen([], [], -1, nactvar, if nactvar < 2 then 2 else nactvar, nactvar, [], false)
    {
      code := [];
      pc := 0;
      lasttarget := -1;
      jpc := NO_JUMP;
      freereg := nactvar;
      maxstack := if nactvar < 2 then 2 else nactvar;
      this.nactvar := nactvar;
      k := [];
      h := map[];
      failed := false;
      gen := Gen([], [], -1, nactvar, if nactvar < 2 then 2 else nactvar, nactvar, [], false);
    }

    // ---------- jump lists ----------

    method FixJump(j: nat, dest: int)
      requires j < pc <= |code| && !failed
      modifies this`code, this`failed
      ensures failed == TooFar(j, dest) && |code| == |old(code)|
      ensures !failed ==> code == old(code)[j := JMP(dest - (j + 1))]
    {
      if TooFar(j, dest) {
        failed := true;
        return;
      }
      code := code[j := JMP(dest - (j + 1))];
    }

    /** `luaK_concat`: the result threads the concatenation, and only the last link of the
        first list changes. */
    method Concat(l1: int, l2: int, ghost a: seq<nat>, ghost b: seq<nat>) returns (l: int)
      requires pc <= |code| && !failed
      requires Threads(Live(), l1, a) && Threads(Live(), l2, b) && NoDup(a + b)
      modifies this`code, this`failed
      ensures failed == LinkTooFar(a, b) && |code| == |old(code)|
      ensures !failed ==> Threads(Live(), l, a + b)
      ensures !failed ==> forall i :: 0 <= i < |code| && (a == [] || b == [] || i != a[|a| - 1]) ==> code[i] == old(code)[i]
      ensures !failed && a != [] && b != [] ==> a[|a| - 1] < pc && code[a[|a| - 1]].JMP?
    {
      if l2 == NO_JUMP {
        assert b == [] && a + b == a;
        return l1;
      }
      if l1 == NO_JUMP {
        assert a == [] && a + b == b;
        return l2;
      }
      var list := l1 as nat;
      ghost var i := 0;
      ThreadsInside(Live(), l1, a);
      while NextJump(code, list) != NO_JUMP
        invariant 0 <= i < |a| && list == a[i] && list < pc && code[list].JMP?
        invariant Threads(Live(), list as int, a[i..])
        decreases |a| - i
      {
        assert a[i..][1..] == a[i + 1..];
        list := NextJump(code, list) as nat;
        i := i + 1;
      }
      assert a[i..][1..] == [];
      FixJump(list, l2);
      if !failed {
        Linked(old(Live()), l1, a, l2, b);
        assert Live() == old(Live())[list := JMP(l2 - (list + 1))];
      }
      l := l1;
    }

    /** Concatenation of lists of the current code. */
    method Link(l1: int, l2: int, ghost a: seq<nat>, ghost b: seq<nat>) returns (l: int)
      requires pc <= |code| && !failed && Stands(Live(), gen.code) && JumpList(gen.code, a + b)
      requires Threads(Live(), l1, a) && Threads(Live(), l2, b)
      modifies this`code, this`failed
      ensures failed == LinkTooFar(a, b) && |code| == |old(code)|
      ensures !failed ==> Stands(Live(), gen.code) && Threads(Live(), l, a + b) && Unmoved(gen.code, old(Live()), Live(), a)
    {
      hide Stands, Threads, Unmoved, NoDup;
      ghost var c0 := Live();
      l := Concat(l1, l2, a, b);
      if !failed {
        ListPart(gen.code, a, b);
        LinkStands(gen.code, c0, Live(), a, b);
      }
    }

    /** `patchtestreg`: patches a TESTSET that guards the jump, and says whether there is
        one. */
    method PatchTestReg(node: nat, reg: nat) returns (patched: bool)
      requires node < |code| && code[node].JMP?
      modifies this`code
      ensures patched == Guarded(old(code), node)
      ensures code == if patched then old(code)[node - 1 := PatchedTest(old(code)[node - 1], reg)] else old(code)
    {
      var control := if node >= 1 && IsTest(code[node - 1]) then node - 1 else node;
      if !code[control].TESTSET? {
        return false;
      }
      var i := code[control];
      if reg != NO_REG && reg != i.b {
        code := code[control := TESTSET(reg, i.b, i.cond)];
      } else {
        code := code[control := TEST(i.b, i.cond)];
      }
      return true;
    }

    /** `patchlistaux`: sends exactly the jumps of the list to their targets and changes
        nothing else but the TESTSETs guarding them. */
    method PatchListAux(head: int, ghost l: seq<nat>, vtarget: nat, reg: nat, dtarget: nat)
      requires pc <= |code| && !failed && Stands(Live(), gen.code)
      requires Threads(Live(), head, l) && JumpList(gen.code, l)
      modifies this`code, this`failed, this`gen
      ensures failed == PatchTooFar(old(gen).code, l, vtarget, dtarget)
      ensures |code| == |old(code)|
      ensures !failed ==> gen == old(gen).(code := Patch(old(gen).code, l, vtarget, reg, dtarget))
                          && Stands(Live(), gen.code) && Unmoved(old(gen).code, old(Live()), Live(), l)
    {
      var list := head;
      ghost var c0, a := Live(), gen.code;
      ghost var i := 0;
      PatchNothing(a, vtarget, reg, dtarget);
      while list != NO_JUMP
        invariant |code| == |old(code)| && !failed && gen == old(gen)
        invariant PatchedSoFar(c0, Live(), a, l, i, list, vtarget, reg, dtarget)
        decreases |l| - i
      {
        PatchStep(c0, Live(), a, l, i, list, vtarget, reg, dtarget);
        var node := list as nat;
        list := NextJump(code, node);
        PatchJump(node, vtarget, reg, dtarget);
        if failed {
          assert node in l;
          return;
        }
        i := i + 1;
      }
      assert l[i..] == [] && l[..i] == l;
      gen := gen.(code := Patch(a, l, vtarget, reg, dtarget));
    }

    /** One jump: to the value target when a TESTSET guards it, else to the default. */
    method PatchJump(node: nat, vtarget: nat, reg: nat, dtarget: nat)
      requires node < pc <= |code| && !failed && code[node].JMP?
      modifies this`code, this`failed
      ensures |code| == |old(code)|
      ensures failed == TooFar(node, if Guarded(old(Live()), node) then vtarget else dtarget)
      ensures !failed ==> Live() == PatchNode(old(Live()), node, vtarget, reg, dtarget)
    {
      var patched := PatchTestReg(node, reg);
      FixJump(node, if patched then vtarget else dtarget);
      if !failed {
        assert Live() == PatchNode(old(Live()), node, vtarget, reg, dtarget);
      }
    }

    /** `need_value`: does some jump of the list offer no value? */
    method NeedsValue(head: int, ghost l: seq<nat>) returns (yes: bool)
      requires pc <= |code| && Stands(Live(), gen.code)
      requires Threads(Live(), head, l) && JumpList(gen.code, l)
      ensures yes == NeedValue(gen.code, l)
    {
      var list := head;
      ghost var i := 0;
      while list != NO_JUMP
        invariant 0 <= i <= |l| && Threads(Live(), list, l[i..])
        invariant forall j :: j in l[..i] ==> Guarded(gen.code, j)
        decreases |l| - i
      {
        ThreadsInside(Live(), list, l[i..]);
        var node := list as nat;
        assert node == l[i] && node in l && l[i..][1..] == l[i + 1..] && l[..i + 1] == l[..i] + [node];
        var control := if node >= 1 && IsTest(code[node - 1]) then node - 1 else node;
        if node >= 1 { assert StandsAt(Live(), gen.code, node - 1); }
        if !code[control].TESTSET? {
          return true;
        }
        list := NextJump(code, node);
        i := i + 1;
      }
      assert l[..i] == l;
      return false;
    }

    /** `removevalues` */
    method DropValues(head: int, ghost l: seq<nat>)
      requires pc <= |code| && !failed && Stands(Live(), gen.code)
      requires Threads(Live(), head, l) && JumpList(gen.code, l)
      modifies this`code, this`gen
      ensures |code| == |old(code)|
      ensures gen == old(gen).(code := RemoveValues(old(gen).code, l))
      ensures Stands(Live(), gen.code) && Unmoved(old(gen).code, old(Live()), Live(), [])
    {
      var list := head;
      ghost var a := gen.code;
      ghost var i := 0;
      RemoveNothing(a);
      while list != NO_JUMP
        invariant 0 <= i <= |l| && |code| == |old(code)| && gen == old(gen)
        invariant Threads(Live(), list, l[i..])
        invariant Stands(Live(), RemoveValues(a, l[..i]))
        invariant Unmoved(a, old(Live()), Live(), [])
        decreases |l| - i
      {
        ghost var c := Live();
        ThreadsInside(c, list, l[i..]);
        var node := list as nat;
        assert node == l[i] && l[i..][1..] == l[i + 1..] && l[..i + 1] == l[..i] + [node];
        var next := NextJump(code, node);
        var patched := PatchTestReg(node, NO_REG);
        RemoveOneMore(c, Live(), a, l, i);
        assert Opens(a, l[i + 1..]);
        ThreadsKept(a, c, Live(), [], next, l[i + 1..]);
        forall j | 0 <= j < |a| && a[j] == OPEN
          ensures UnmovedAt(old(Live()), Live(), j)
        {
          assert UnmovedAt(old(Live()), c, j) && UnmovedAt(c, Live(), j);
        }
        list := next;
        i := i + 1;
      }
      assert l[i..] == [] && l[..i] == l;
      gen := gen.(code := RemoveValues(a, l));
    }

    // ---------- emitting ----------

    /** `luaK_code` */
    method Code(i: Instr) returns (at: nat)
      requires Valid()
      modifies this
      ensures Is(Emit(old(gen), i)) && at == old(pc)
      ensures !failed ==> Unmoved(old(gen).code, old(Live()), Live(), old(gen).jpc) && pc == at + 1 && Live()[at] == i
    {
      ghost var g0, c0 := gen, Live();
      at := pc;
      PatchListAux(jpc, gen.jpc, pc, NO_REG, pc);
      if failed { return; }
      jpc := NO_JUMP;
      if pc >= MAX_INT {
        failed := true;
        return;
      }
      ghost var c := Live();
      code := code[..pc] + [i];
      pc := pc + 1;
      gen := Emit(g0, i);
      assert Live() == c + [i];
      StandsAppended(c, Patch(g0.code, g0.jpc, |c|, NO_REG, |c|), i);
      UnmovedAppended(g0.code, c0, c, i, g0.jpc);
    }

    /** `luaK_jump` */
    method Jump() returns (j: int)
      requires Valid()
      modifies this
      ensures Is(LuaCodegen.Jump(old(gen)).0)
      ensures !failed ==> Threads(Live(), j, LuaCodegen.Jump(old(gen)).1) && Unmoved(old(gen).code, old(Live()), Live(), [])
    {
      hide Threads, Unmoved, Untouched;
      ghost var g0, c0 := gen, Live();
      var saved := jpc;
      j := NO_JUMP;
      jpc := NO_JUMP;
      gen := gen.(jpc := []);
      PatchNothing(g0.code, pc, NO_REG, pc);
      NoThread(c0);
      var at := Code(OPEN);
      if failed { return; }
      ghost var c := Live();
      ThreadsKept(g0.code, c0, c, [], saved, g0.jpc);
      OneThread(c, at);
      NewFirst(g0.code, g0.jpc);
      j := Link(at, saved, [at], g0.jpc);
      if failed { return; }
      gen := LuaCodegen.Jump(g0).0;
      UnmovedOn(g0.code, gen.code, c0, c, Live(), [], [at]);
      ThreadsKept(gen.code, c, Live(), [at], jpc, []);
    }

    /** `condjump` */
    method CondJump(i: Instr) returns (j: int)
      requires Valid() && GenOK(gen) && IsTest(i)
      modifies this
      ensures Is(LuaCodegen.CondJump(old(gen), i).0)
      ensures !failed ==> Threads(Live(), j, LuaCodegen.CondJump(old(gen), i).1)
                          && Unmoved(old(gen).code, old(Live()), Live(), old(gen).jpc)
    {
      ghost var g0, c0 := gen, Live();
      j := NO_JUMP;
      var at := Code(i);
      if failed { return; }
      ghost var g1, c1 := gen, Live();
      j := Jump();
      if failed { return; }
      SettledOK(g0);
      EmittedUntouched(g0, i);
      UnmovedOn(g0.code, g1.code, c0, c1, Live(), g0.jpc, []);
    }

    /** `luaK_getlabel` */
    method Label() returns (at: nat)
      requires Valid()
      modifies this`lasttarget, this`gen
      ensures Valid() && gen == GetLabel(old(gen)) && at == pc
    {
      lasttarget := pc;
      gen := GetLabel(gen);
      at := pc;
    }

    /** `luaK_patchtohere` */
    method Here(list: int, ghost l: seq<nat>)
      requires Valid() && Threads(Live(), list, l) && JumpList(gen.code, l) && Apart(gen.jpc, l)
      modifies this
      ensures Is(PatchToHere(old(gen), l))
      ensures !failed ==> Unmoved(old(gen).code, old(Live()), Live(), old(gen).jpc)
    {
      hide Stands, Threads, Unmoved, NoDup;
      ghost var g0 := gen;
      var at := Label();
      JoinedList(g0.code, g0.jpc, l);
      jpc := Link(jpc, list, g0.jpc, l);
      if failed { return; }
      gen := PatchToHere(g0, l);
    }

    /** `luaK_nil` for one register */
    method LoadNil1(from: nat)
      requires Valid() && GenOK(gen)
      modifies this
      ensures Is(LoadNil(old(gen), from))
      ensures !failed ==> Unmoved(old(gen).code, old(Live()), Live(), old(gen).jpc)
    {
      if pc > lasttarget {
        if pc == 0 {
          if from >= nactvar { return; }
        } else {
          assert StandsAt(Live(), gen.code, pc - 1);
          var previous := code[pc - 1];
          if previous.LOADNIL? {
            if previous.a <= from && from <= previous.b + 1 {
              if from > previous.b {
                ghost var g0, c0 := gen, Live();
                code := code[pc - 1 := LOADNIL(previous.a, from)];
                gen := LoadNil(g0, from);
                SetStands(c0, Live(), g0.code, pc - 1, LOADNIL(previous.a, from));
                ThreadsSet(g0.code, c0, Live(), g0.jpc, jpc, pc - 1);
              }
              return;
            }
          }
        }
      }
      var at := Code(LOADNIL(from, from));
    }

    // ---------- registers and constants ----------

    method ReserveReg1()
      requires Valid()
      modifies this
      ensures Is(ReserveReg(old(gen)))
      ensures !failed ==> Live() == old(Live())
    {
      var newstack := freereg + 1;
      if newstack > maxstack {
        if newstack >= MAXSTACK {
          failed := true;
          return;
        }
        maxstack := newstack;
      }
      freereg := newstack;
      gen := ReserveReg(gen);
    }

    /** `freereg`: the register freed is always the last one reserved. */
    method ReleaseReg(reg: nat)
      requires Valid()
      requires reg < BITRK && reg >= nactvar ==> freereg == reg + 1
      modifies this`freereg, this`gen
      ensures Valid() && gen == FreeReg(old(gen), reg)
    {
      if reg < BITRK && reg >= nactvar {
        freereg := freereg - 1;
        assert reg == freereg;
      }
      gen := FreeReg(gen, reg);
    }

    /** `addk` */
    method Constant(v: Value) returns (i: nat)
      requires Valid()
      modifies this
      ensures Is(AddK(old(gen), v).0)
      ensures !failed ==> i == AddK(old(gen), v).1 && Live() == old(Live())
    {
      ghost var g0, c0 := gen, Live();
      if v in h {
        i := h[v];
        IndexIs(k, v, i);
        assert AddK(gen, v) == (gen, i);
        return;
      }
      i := |k|;
      IndexAdded(h, k, v);
      assert AddK(g0, v) == (g0.(k := k + [v], err := |k| >= MAXARG_BX), i);
      if |k| >= MAXARG_BX {
        failed := true;
        return;
      }
      h := h[v := |k|];
      k := k + [v];
      gen := gen.(k := k);
      assert Live() == c0;
      assert Valid();
    }

    // ---------- discharging ----------

    ghost predicate Ready(e: ExpDesc)
      reads this, e
    {
      Valid() && ExpOK(gen, e.e) && e.Holds(Live())
    }

    /** The operation turned state and descriptor into `r`, or raised an error; jumps
        of other lists keep their links. */
    twostate predicate Did(e: ExpDesc, r: (Gen, Exp))
      reads this, e
    {
      && Is(r.0)
      && (!failed ==> e.e == r.1 && e.Holds(Live())
                      && Unmoved(old(gen).code, old(Live()), Live(), Lists(old(gen), old(e.e))))
    }

    /** `luaK_dischargevars` */
    method DischargeVars(e: ExpDesc)
      requires Ready(e)
      modifies this, e
      ensures Did(e, LuaCodegen.DischargeVars(old(gen), old(e.e)))
    {
      ghost var g0, c0, e0 := gen, Live(), e.e;
      match e.k {
        case VLocal(r) =>
          e.k := VNonReloc(r);
          e.e := e0.(k := VNonReloc(r));
        case VGlobal(name) =>
          var at := Code(GETGLOBAL(0, name));
          if failed { return; }
          e.HoldsStill(g0.code, c0, Live(), g0.jpc);
          UnmovedMore(g0.code, c0, Live(), g0.jpc, Lists(g0, e0));
          e.k := VReloc(at);
          e.e := e0.(k := VReloc(at));
        case _ =>
      }
    }

    /** `discharge2reg` */
    method Discharge2Reg(e: ExpDesc, reg: nat)
      requires Ready(e) && reg < freereg
      modifies this, e
      ensures Did(e, LuaCodegen.Discharge2Reg(old(gen), old(e.e), reg))
    {
      ghost var g0, c0, e0 := gen, Live(), e.e;
      DischargeVarsOK(g0, e0);
      DischargeVars(e);
      if failed { return; }
      ghost var g1, c1, e1 := gen, Live(), e.e;
      assert Ready(e) && LuaCodegen.Discharge2Reg(g1, e1, reg) == LuaCodegen.Discharge2Reg(g0, e0, reg);
      DischargedTo(e, reg);
      if failed { return; }
      UnmovedOn(g0.code, g1.code, c0, c1, Live(), Lists(g0, e0), Lists(g1, e1));
    }

    /** The rest of `discharge2reg`, for a value that needs no variable. */
    method DischargedTo(e: ExpDesc, reg: nat)
      requires Ready(e) && !e.k.VLocal? && !e.k.VGlobal?
      modifies this, e
      ensures Did(e, LuaCodegen.Discharge2Reg(old(gen), old(e.e), reg))
    {
      hide LuaCodegen.Discharge2Reg, Stands, Threads, Unmoved, JumpsWithin, NilRanges, NoDup;
      ghost var g0, c0, e0 := gen, Live(), e.e;
      DischargedKind(g0, e0, reg);
      if e.k.VJmp? {
        UnmovedSame(g0.code, c0, Lists(g0, e0));
        return;
      }
      LoadInto(e, reg);
      if failed { return; }
      e.HoldsStill(g0.code, c0, Live(), g0.jpc);
      UnmovedMore(g0.code, c0, Live(), g0.jpc, Lists(g0, e0));
      e.k := VNonReloc(reg);
      e.e := e0.(k := VNonReloc(reg));
    }

    /** The instruction that puts the value into `reg`. */
    method LoadInto(e: ExpDesc, reg: nat)
      requires Ready(e) && !e.k.VLocal? && !e.k.VGlobal? && !e.k.VJmp?
      modifies this
      ensures Is(LuaCodegen.Discharge2Reg(old(gen), e.e, reg).0)
      ensures !failed ==> Unmoved(old(gen).code, old(Live()), Live(), old(gen).jpc)
    {
      hide Emit, LoadNil, Stands, Threads, Unmoved, JumpsWithin, NilRanges, NoDup;
      UnmovedSame(gen.code, Live(), gen.jpc);
      var at;
      match e.k {
        case VNil => LoadNil1(reg);
        case VFalse => at := Code(LOADBOOL(reg, false, false));
        case VTrue => at := Code(LOADBOOL(reg, true, false));
        case VK(info) => at := Code(LOADK(reg, info));
        case VKNum(n) =>
          var i := Constant(Num(n));
          if failed { return; }
          at := Code(LOADK(reg, i));
        case VReloc(pc) => SetTarget(pc, reg, e);
        case VNonReloc(r) => if r != reg { at := Code(MOVE(reg, r)); }
      }
    }

    /** `SETARG_A` on the instruction that computes a relocatable value. */
    method SetTarget(at: nat, reg: nat, ghost e: ExpDesc)
      requires Ready(e) && e.k == VReloc(at)
      modifies this`code, this`gen
      ensures gen == old(gen).(code := old(gen).code[at := SetA(old(gen).code[at], reg)])
      ensures Valid() && Unmoved(old(gen).code, old(Live()), Live(), old(gen).jpc)
    {
      ghost var g0, c0 := gen, Live();
      assert StandsAt(c0, g0.code, at);
      var i := SetA(code[at], reg);
      code := code[at := i];
      gen := gen.(code := g0.code[at := i]);
      assert Live() == c0[at := i];
      SetStands(c0, Live(), g0.code, at, i);
      ThreadsSet(g0.code, c0, Live(), g0.jpc, jpc, at);
      assert JumpList(gen.code, gen.jpc);
      UnmovedMore(g0.code, c0, Live(), [], g0.jpc);
    }

    /** `discharge2anyreg` */
    method Discharge2AnyReg(e: ExpDesc)
      requires Ready(e) && !e.k.VJmp?
      modifies this, e
      ensures Did(e, LuaCodegen.Discharge2AnyReg(old(gen), old(e.e)))
    {
      hide LuaCodegen.Discharge2Reg, Stands, Threads, Unmoved, JumpsWithin, NilRanges, NoDup;
      ghost var g0, c0, e0 := gen, Live(), e.e;
      if e.k.VNonReloc? {
        UnmovedSame(g0.code, c0, Lists(g0, e0));
        return;
      }
      ReserveRegOK(gen);
      ReserveReg1();
      if failed { return; }
      assert ExpOK(gen, e.e);
      Discharge2Reg(e, freereg - 1);
    }

    /** `freeexp` */
    method ReleaseExp(e: ExpDesc)
      requires Valid() && e.k == e.e.k
      requires e.k.VNonReloc? && e.k.reg < BITRK && e.k.reg >= nactvar ==> freereg == e.k.reg + 1
      modifies this`freereg, this`gen
      ensures Valid() && gen == FreeExp(old(gen), e.e) && code == old(code)
    {
      if e.k.VNonReloc? {
        ReleaseReg(e.k.reg);
      }
    }

    // ---------- and, or, not ----------

    /** The jump `j` starts the list of `r`, and the lists of `e` are as they were. */
    twostate predicate Branched(e: ExpDesc, j: int, r: (Gen, seq<nat>))
      reads this, e
    {
      && Is(r.0)
      && (!failed ==> Threads(Live(), j, r.1) && e.Exits(Live(), old(e.e).t, old(e.e).f)
                      && Unmoved(old(gen).code, old(Live()), Live(), Lists(old(gen), old(e.e))))
    }

    /** `invertjump` */
    method Invert(e: ExpDesc)
      requires Ready(e) && e.k.VJmp?
      modifies this`code, this`gen
      ensures Ready(e) && gen == InvertJump(old(gen), old(e.e).k.pc)
      ensures Unmoved(old(gen).code, old(Live()), Live(), [])
    {
      ghost var g0, c0, e0 := gen, Live(), e.e;
      var at := e.k.pc - 1;
      assert StandsAt(c0, g0.code, at);
      var i := code[at];
      code := code[at := i.(accept := !i.accept)];
      InvertJumpOK(g0, e0);
      gen := InvertJump(g0, e0.k.pc);
      assert Live() == c0[at := i.(accept := !i.accept)];
      SetStands(c0, Live(), g0.code, at, i.(accept := !i.accept));
      ThreadsSet(g0.code, c0, Live(), g0.jpc, jpc, at);
      e.HoldsStill(g0.code, c0, Live(), []);
    }

    /** `jumponcond` */
    method JumpOnCond(e: ExpDesc, cond: bool) returns (j: int)
      requires Ready(e) && !e.k.VJmp? && TopTemp(gen, e.e)
      modifies this, e
      ensures Branched(e, j, LuaCodegen.JumpOnCond(old(gen), old(e.e), cond))
    {
      if e.k.VReloc? {
        assert StandsAt(Live(), gen.code, e.k.pc);
        var ie := code[e.k.pc];
        if ie.NOT? {
          j := JumpOnNot(e, ie.b, cond);
          return;
        }
      }
      j := JumpOnReg(e, cond);
    }

    /** The operator is tested instead of its result: OP_NOT is removed. */
    method JumpOnNot(e: ExpDesc, b: nat, cond: bool) returns (j: int)
      requires Ready(e) && e.k.VReloc? && gen.code[e.k.pc].NOT? && gen.code[e.k.pc].b == b
      modifies this, e
      ensures Branched(e, j, LuaCodegen.CondJump(old(gen).(code := old(gen).code[..old(pc) - 1]), TEST(b, !cond)))
    {
      ghost var g0, c0, e0 := gen, Live(), e.e;
      CutOK(g0, e0);
      CutStands(c0, g0.code, jpc, g0.jpc);
      CutStands(c0, g0.code, e.t, e0.t);
      CutStands(c0, g0.code, e.f, e0.f);
      pc := pc - 1;
      gen := gen.(code := gen.code[..pc]);
      ghost var g1, c1 := gen, Live();
      assert c1 == c0[..|c0| - 1];
      j := CondJump(TEST(b, !cond));
      if failed { return; }
      e.ExitsStill(g1.code, c1, Live(), [], e0.t, e0.f);
      CutThenUnmoved(g0.code, c0, c1, Live(), Lists(g0, e0));
    }

    method JumpOnReg(e: ExpDesc, cond: bool) returns (j: int)
      requires Ready(e) && !e.k.VJmp? && TopTemp(gen, e.e)
      requires e.k.VReloc? ==> !gen.code[e.k.pc].NOT?
      modifies this, e
      ensures Branched(e, j, LuaCodegen.JumpOnCond(old(gen), old(e.e), cond))
    {
      hide LuaCodegen.Discharge2AnyReg, LuaCodegen.CondJump, Stands, Threads, Unmoved, JumpsWithin, NilRanges, NoDup;
      ghost var g0, c0, e0 := gen, Live(), e.e;
      j := NO_JUMP;
      Discharge2AnyRegOK(g0, e0);
      Discharge2AnyReg(e);
      if failed {
        FailedDischarge(g0, e0, cond);
        return;
      }
      ghost var g1, c1, e1 := gen, Live(), e.e;
      ReleaseExp(e);
      assert Live() == c1;
      FreedOK(g1, e1);
      j := CondJump(TESTSET(NO_REG, e.k.reg, cond));
      if failed { return; }
      e.ExitsStill(g1.code, c1, Live(), g1.jpc, e0.t, e0.f);
      UnmovedOn(g0.code, g1.code, c0, c1, Live(), Lists(g0, e0), g1.jpc);
    }

    /** The first half of `luaK_goiftrue`: the jump taken when `e` is false. */
    method BranchIfFalse(e: ExpDesc) returns (j: int)
      requires Ready(e) && TopTemp(gen, e.e)
      modifies this, e
      ensures Branched(e, j, JumpIfFalse(old(gen), old(e.e)))
    {
      hide JumpsWithin;
      ghost var g0, c0, e0 := gen, Live(), e.e;
      j := NO_JUMP;
      match e.k {
        case VK(_) =>
        case VKNum(_) =>
        case VTrue =>
        case VFalse =>
          j := Jump();
          if failed { return; }
          e.ExitsStill(g0.code, c0, Live(), [], e0.t, e0.f);
          UnmovedMore(g0.code, c0, Live(), [], Lists(g0, e0));
        case VJmp(at) =>
          Invert(e);
          UnmovedMore(g0.code, c0, Live(), [], Lists(g0, e0));
          j := at;
        case _ => j := JumpOnCond(e, false);
      }
    }

    /** The first half of `luaK_goiffalse`: the jump taken when `e` is true. */
    method BranchIfTrue(e: ExpDesc) returns (j: int)
      requires Ready(e) && TopTemp(gen, e.e)
      modifies this, e
      ensures Branched(e, j, JumpIfTrue(old(gen), old(e.e)))
    {
      ghost var g0, c0, e0 := gen, Live(), e.e;
      j := NO_JUMP;
      match e.k {
        case VNil =>
        case VFalse =>
        case VTrue =>
          j := Jump();
          if failed { return; }
          e.ExitsStill(g0.code, c0, Live(), [], e0.t, e0.f);
          UnmovedMore(g0.code, c0, Live(), [], Lists(g0, e0));
        case VJmp(at) => j := at;
        case _ => j := JumpOnCond(e, true);
      }
    }

    /** The second half of both: the new jump joins the exits `out`, and the exits `here`
        go on at the next instruction. */
    method Divide(out: int, j: int, here: int, ghost lo: seq<nat>, ghost lj: seq<nat>, ghost lh: seq<nat>) returns (out': int)
      requires Valid() && Threads(Live(), out, lo) && Threads(Live(), j, lj) && Threads(Live(), here, lh)
      requires JumpList(gen.code, lo) && JumpList(gen.code, lj) && JumpList(gen.code, lh)
      requires Apart(gen.jpc, lo) && Apart(gen.jpc, lj) && Apart(gen.jpc, lh)
      requires Apart(lh, lo) && Apart(lh, lj) && Apart(lo, lj)
      modifies this
      ensures Is(Part(old(gen), lo, lj, lh))
      ensures !failed ==> Threads(Live(), out', lo + lj) && Unmoved(old(gen).code, old(Live()), Live(), old(gen).jpc + lo)
    {
      ghost var g0, c0 := gen, Live();
      JoinedList(g0.code, lo, lj);
      out' := Link(out, j, lo, lj);
      if failed { return; }
      ghost var c1 := Live();
      ThreadsKept(g0.code, c0, c1, lo, jpc, g0.jpc);
      ThreadsKept(g0.code, c0, c1, lo, here, lh);
      Here(here, lh);
      if failed { return; }
      ThreadsKept(g0.code, c1, Live(), g0.jpc, out', lo + lj);
      forall i | 0 <= i < |g0.code| && g0.code[i] == OPEN && i !in g0.jpc + lo
        ensures UnmovedAt(c0, Live(), i)
      {
        assert UnmovedAt(c0, c1, i) && UnmovedAt(c1, Live(), i);
      }
    }

    /** `luaK_goiftrue` */
    method GoIfTrue(e: ExpDesc)
      requires Ready(e) && TopTemp(gen, e.e)
      modifies this, e
      ensures var r := LuaCodegen.GoIfTrue(old(gen), old(e.e));
              Is(r.0) && (!failed ==> e.Exits(Live(), [], r.1.f)
                                      && Unmoved(old(gen).code, old(Live()), Live(), Lists(old(gen), old(e.e))))
    {
      hide LuaCodegen.DischargeVars, JumpIfFalse, Part;
      ghost var g0, c0, e0 := gen, Live(), e.e;
      DischargeVarsOK(g0, e0);
      DischargeVars(e);
      if failed { return; }
      ghost var g1, c1, e1 := gen, Live(), e.e;
      TopTempStill(g0, e0);
      var j := BranchIfFalse(e);
      if failed { return; }
      ghost var g2, c2, lj := gen, Live(), JumpIfFalse(g1, e1).1;
      JumpIfFalseOK(g1, e1);
      var f := Divide(e.f, j, e.t, e1.f, lj, e1.t);
      if failed { return; }
      e.f := f;
      e.t := NO_JUMP;
      UnmovedOn(g0.code, g1.code, c0, c1, c2, Lists(g0, e0), Lists(g1, e1));
      KeepsOn(g0, Lists(g0, e0), g1, Lists(g1, e1), g2, g2.jpc + lj + e1.t + e1.f);
      UnmovedOn(g0.code, g2.code, c0, c2, Live(), Lists(g0, e0), g2.jpc + e1.f);
    }

    /** `luaK_goiffalse` */
    method GoIfFalse(e: ExpDesc)
      requires Ready(e) && TopTemp(gen, e.e)
      modifies this, e
      ensures var r := LuaCodegen.GoIfFalse(old(gen), old(e.e));
              Is(r.0) && (!failed ==> e.Exits(Live(), r.1.t, [])
                                      && Unmoved(old(gen).code, old(Live()), Live(), Lists(old(gen), old(e.e))))
    {
      hide LuaCodegen.DischargeVars, JumpIfTrue, Part;
      ghost var g0, c0, e0 := gen, Live(), e.e;
      DischargeVarsOK(g0, e0);
      DischargeVars(e);
      if failed { return; }
      ghost var g1, c1, e1 := gen, Live(), e.e;
      TopTempStill(g0, e0);
      var j := BranchIfTrue(e);
      if failed { return; }
      ghost var g2, c2, lj := gen, Live(), JumpIfTrue(g1, e1).1;
      JumpIfTrueOK(g1, e1);
      var t := Divide(e.t, j, e.f, e1.t, lj, e1.f);
      if failed { return; }
      e.t := t;
      e.f := NO_JUMP;
      UnmovedOn(g0.code, g1.code, c0, c1, c2, Lists(g0, e0), Lists(g1, e1));
      KeepsOn(g0, Lists(g0, e0), g1, Lists(g1, e1), g2, g2.jpc + lj + e1.t + e1.f);
      UnmovedOn(g0.code, g2.code, c0, c2, Live(), Lists(g0, e0), g2.jpc + e1.t);
    }

    /** The value of `codenot`, before its lists are interchanged. */
    method NegateValue(e: ExpDesc)
      requires Ready(e) && TopTemp(gen, e.e) && !e.k.VLocal? && !e.k.VGlobal?
      modifies this, e
      ensures var r := Negate(old(gen), old(e.e)); Did(e, (r.0, old(e.e).(k := r.1)))
    {
      ghost var g0, c0, e0 := gen, Live(), e.e;
      if e.k.VReloc? || e.k.VNonReloc? {
        NegateReg(e);
        return;
      }
      if e.k.VJmp? {
        Invert(e);
        UnmovedMore(g0.code, c0, Live(), [], Lists(g0, e0));
        return;
      }
      e.k := if e.k.VNil? || e.k.VFalse? then VTrue else VFalse;
      e.e := e0.(k := e.k);
    }

    method NegateReg(e: ExpDesc)
      requires Ready(e) && TopTemp(gen, e.e) && (e.k.VReloc? || e.k.VNonReloc?)
      modifies this, e
      ensures var r := Negate(old(gen), old(e.e)); Did(e, (r.0, old(e.e).(k := r.1)))
    {
      hide LuaCodegen.Discharge2AnyReg, Negate, Emit, Stands, Threads, Unmoved, JumpsWithin, NilRanges, NoDup, OpenAlike;
      ghost var g0, c0, e0 := gen, Live(), e.e;
      Discharge2AnyRegOK(g0, e0);
      NegateForm(g0, e0);
      Discharge2AnyReg(e);
      if failed { return; }
      ghost var g1, c1, e1 := gen, Live(), e.e;
      NotOf(e);
      if failed { return; }
      UnmovedOn(g0.code, g1.code, c0, c1, Live(), Lists(g0, e0), Lists(g1, e1));
    }

    /** OP_NOT on a register, which is released. */
    method NotOf(e: ExpDesc)
      requires Ready(e) && e.k.VNonReloc? && (e.k.reg >= nactvar ==> freereg == e.k.reg + 1)
      modifies this, e
      ensures Did(e, (Emit(FreeExp(old(gen), old(e.e)), NOT(0, old(e.k).reg)), old(e.e).(k := VReloc(|old(gen).code|))))
    {
      hide Emit, Threads, Unmoved, JumpsWithin, NilRanges, NoDup;
      ghost var g1, c1, e1 := gen, Live(), e.e;
      ReleaseExp(e);
      assert Live() == c1;
      FreedOK(g1, e1);
      var at := Code(NOT(0, e.k.reg));
      if failed { return; }
      e.HoldsStill(g1.code, c1, Live(), g1.jpc);
      UnmovedMore(g1.code, c1, Live(), g1.jpc, Lists(g1, e1));
      e.k := VReloc(at);
      e.e := e1.(k := VReloc(at));
    }

    /** `codenot` */
    method Not(e: ExpDesc)
      requires Ready(e) && TopTemp(gen, e.e)
      modifies this, e
      ensures Did(e, CodeNot(old(gen), old(e.e)))
    {
      hide LuaCodegen.DischargeVars, Negate;
      ghost var g0, c0, e0 := gen, Live(), e.e;
      DischargeVarsOK(g0, e0);
      DischargeVars(e);
      if failed { return; }
      ghost var g1, c1, e1 := gen, Live(), e.e;
      TopTempStill(g0, e0);
      NegateValue(e);
      if failed { return; }
      NegateOK(g1, e1);
      ghost var g2, c2, e2 := gen, Live(), e.e;
      UnmovedOn(g0.code, g1.code, c0, c1, c2, Lists(g0, e0), Lists(g1, e1));
      KeepsOn(g0, Lists(g0, e0), g1, Lists(g1, e1), g2, Lists(g2, e2));
      Interchange(e);
      UnmovedOn(g0.code, g2.code, c0, c2, Live(), Lists(g0, e0), Lists(g2, e2));
    }

    /** The end of `codenot`: the lists are interchanged and offer no values. */
    method Interchange(e: ExpDesc)
      requires Ready(e)
      modifies this, e
      ensures var a := RemoveValues(RemoveValues(old(gen).code, old(e.e).t), old(e.e).f);
              Did(e, (old(gen).(code := a), Exp(old(e.e).k, old(e.e).f, old(e.e).t)))
    {
      hide RemoveValues, Stands, Threads, Unmoved, JumpsWithin, NilRanges, NoDup, Untouched;
      ghost var g0, c0, e0 := gen, Live(), e.e;
      e.f, e.t := e.t, e.f;
      e.e := Exp(e0.k, e0.f, e0.t);
      DropValues(e.f, e0.t);
      ghost var g1, c1 := gen, Live();
      RemoveValuesOK(g0.code, e0.t, g0.lasttarget);
      ListKept(g0.code, g1.code, e0.t, e0.f);
      ListKept(g0.code, g1.code, e0.t, g0.jpc);
      e.HoldsStill(g0.code, c0, c1, []);
      ThreadsKept(g0.code, c0, c1, [], jpc, g0.jpc);
      DropValues(e.t, e0.f);
      RemoveListsOK(g0, e0);
      UnmovedRemoved(g0.code, e0.t, c0, c1, Live());
      UnmovedMore(g0.code, c0, Live(), [], Lists(g0, e0));
      e.HoldsStill(g0.code, c0, Live(), []);
      ThreadsKept(g0.code, c0, Live(), [], jpc, g0.jpc);
    }

    // ---------- into a register ----------

    /** `code_label` */
    method CodeLabel(reg: nat, b: bool, skip: bool) returns (at: nat)
      requires Valid() && gen.jpc == []
      modifies this
      ensures Is(Emit(GetLabel(old(gen)), LOADBOOL(reg, b, skip))) && at == old(pc)
      ensures !failed ==> Unmoved(old(gen).code, old(Live()), Live(), [])
      ensures !failed ==> gen.code == old(gen).code + [LOADBOOL(reg, b, skip)]
    {
      PatchNothing(gen.code, |gen.code|, NO_REG, |gen.code|);
      var here := Label();
      at := Code(LOADBOOL(reg, b, skip));
    }

    /** The LOADBOOLs of `exp2reg`, for jumps that offer no value. */
    method LoadBooleans(isJmp: bool, reg: nat) returns (pf: nat, pt: nat)
      requires Valid() && GenOK(gen) && (isJmp ==> gen.jpc == [])
      modifies this
      ensures var r := LoadBools(old(gen), isJmp, reg);
              Is(r.0) && (!failed ==> pf == r.1 && pt == r.2 && Unmoved(old(gen).code, old(Live()), Live(), []))
    {
      ghost var g0, c0 := gen, Live();
      var fj := NO_JUMP;
      ghost var l := [];
      pf, pt := 0, 0;
      if !isJmp {
        JumpOK(g0);
        fj := Jump();
        if failed { return; }
        l := LuaCodegen.Jump(g0).1;
      }
      ghost var g1, c1 := gen, Live();
      pf := CodeLabel(reg, false, true);
      if failed { return; }
      ghost var g2, c2 := gen, Live();
      pt := CodeLabel(reg, true, false);
      if failed { return; }
      ghost var g3, c3 := gen, Live();
      ThreadsKept(g1.code, c1, c2, [], fj, l);
      assert Opens(g2.code, l);
      ThreadsKept(g2.code, c2, c3, [], fj, l);
      assert JumpList(g3.code, l);
      Here(fj, l);
      if failed { return; }
      BoolsUnmoved(g0.code, g1.code, g2.code, g3.code, c0, c1, c2, c3, Live());
    }

    /** All exits of `e` are resolved at the end of the code. */
    method ResolveExits(e: ExpDesc, reg: nat, pf: nat, pt: nat)
      requires Valid() && GenOK(gen) && Resolvable(gen, e.e, pf, pt) && e.Exits(Live(), e.e.t, e.e.f)
      modifies this
      ensures Is(PatchExits(old(gen), e.e, reg, pf, pt))
      ensures !failed ==> Unmoved(old(gen).code, old(Live()), Live(), e.e.t + e.e.f)
    {
      ghost var g0, c0, e0 := gen, Live(), e.e;
      var last := Label();
      PatchListAux(e.f, e0.f, last, reg, pf);
      if failed { return; }
      ghost var g1, c1 := gen, Live();
      PatchOK(g0.code, e0.f, last, reg, pf, g0.lasttarget, last);
      ListKept(g0.code, g1.code, e0.f, e0.t);
      ThreadsKept(g0.code, c0, c1, e0.f, e.t, e0.t);
      ThreadsKept(g0.code, c0, c1, e0.f, jpc, g0.jpc);
      PatchListAux(e.t, e0.t, last, reg, pt);
      if failed { return; }
      PatchExitsOK(g0, e0, reg, pf, pt);
      ListKept(g0.code, g1.code, e0.f, g0.jpc);
      ThreadsKept(g1.code, c1, Live(), e0.t, jpc, g0.jpc);
      gen := PatchExits(g0, e0, reg, pf, pt);
      forall j | 0 <= j < |g0.code| && g0.code[j] == OPEN && j !in e0.t + e0.f
        ensures UnmovedAt(c0, Live(), j)
      {
        assert UnmovedAt(c0, c1, j) && OpenAlike(g0.code, g1.code, j);
        assert UnmovedAt(c1, Live(), j);
      }
    }

    /** The first steps of `exp2reg`. */
    method ToJumpList(e: ExpDesc, reg: nat)
      requires Ready(e) && reg < freereg
      modifies this, e
      ensures var r := ToList(old(gen), old(e.e), reg);
              Is(r.0) && (!failed ==> e.e == r.1 && e.Exits(Live(), e.e.t, e.e.f)
                                      && Unmoved(old(gen).code, old(Live()), Live(), Lists(old(gen), old(e.e))))
    {
      hide JumpsWithin, Opens;
      if !e.k.VJmp? {
        Discharge2Reg(e, reg);
        return;
      }
      ghost var g0, c0, e0 := gen, Live(), e.e;
      var at := e.k.pc;
      JoinedList(g0.code, e0.t, [at]);
      e.t := Link(e.t, at, e0.t, [at]);
      if failed { return; }
      ThreadsKept(g0.code, c0, Live(), e0.t, jpc, g0.jpc);
      ThreadsKept(g0.code, c0, Live(), e0.t, e.f, e0.f);
      e.e := e0.(t := e0.t + [at]);
      UnmovedMore(g0.code, c0, Live(), e0.t, Lists(g0, e0));
    }

    /** The last steps of `exp2reg`. */
    method ResolveAll(e: ExpDesc, isJmp: bool, reg: nat)
      requires Valid() && GenOK(gen) && Resolvable(gen, e.e, |gen.code|, |gen.code|) && e.Exits(Live(), e.e.t, e.e.f)
      requires isJmp ==> gen.jpc == []
      modifies this
      ensures Is(Resolve(old(gen), e.e, isJmp, reg))
      ensures !failed ==> Unmoved(old(gen).code, old(Live()), Live(), e.e.t + e.e.f)
    {
      hide LoadBools, PatchExits, Threads, Unmoved, JumpsWithin, NilRanges, NoDup, OpenAlike;
      if e.t == e.f {
        UnmovedSame(gen.code, Live(), e.e.t + e.e.f);
        NoExits(e);
        return;
      }
      SomeExits(e);
      var t := NeedsValue(e.t, e.e.t);
      var f := NeedsValue(e.f, e.e.f);
      if t || f {
        ghost var g0, c0 := gen, Live();
        LoadBoolsOK(g0, isJmp, reg);
        BoolsResolvable(g0, e.e, isJmp, reg);
        var pf, pt := LoadBooleans(isJmp, reg);
        if failed { return; }
        ghost var g1, c1 := gen, Live();
        e.ExitsStill(g0.code, c0, c1, [], e.e.t, e.e.f);
        ResolveExits(e, reg, pf, pt);
        if failed { return; }
        UnmovedOn(g0.code, g1.code, c0, c1, Live(), e.e.t + e.e.f, e.e.t + e.e.f);
      } else {
        ResolveExits(e, reg, pc, pc);
      }
    }

    /** `hasjumps`: disjoint lists are equal only when both are empty. */
    lemma NoExits(e: ExpDesc)
      requires Resolvable(gen, e.e, |gen.code|, |gen.code|) && e.Exits(Live(), e.e.t, e.e.f) && e.t == e.f
      ensures !HasJumps(e.e)
    {
      ThreadsUnique(Live(), e.t, e.e.t, e.e.f);
      ApartFromItself(e.e.t);
    }

    lemma SomeExits(e: ExpDesc)
      requires e.Exits(Live(), e.e.t, e.e.f) && e.t != e.f
      ensures HasJumps(e.e)
    {
    }

    /** `exp2reg` */
    method Exp2Reg(e: ExpDesc, reg: nat)
      requires Ready(e) && reg < freereg
      modifies this, e
      ensures Did(e, LuaCodegen.Exp2Reg(old(gen), old(e.e), reg))
    {
      hide ToList, Resolve, Stands, Threads, Unmoved, JumpsWithin, NilRanges, NoDup;
      ghost var g0, c0, e0 := gen, Live(), e.e;
      var isJmp := e.k.VJmp?;
      ToListOK(g0, e0, reg);
      ToJumpList(e, reg);
      if failed { return; }
      ghost var g1, c1, e1 := gen, Live(), e.e;
      ResolveOK(g1, e1, isJmp, reg);
      ResolveAll(e, isJmp, reg);
      if failed { return; }
      UnmovedOn(g0.code, g1.code, c0, c1, Live(), Lists(g0, e0), e1.t + e1.f);
      NoThread(Live());
      e.t := NO_JUMP;
      e.f := NO_JUMP;
      e.k := VNonReloc(reg);
      e.e := Exp(VNonReloc(reg), [], []);
    }

    /** `luaK_exp2nextreg` */
    method Exp2NextReg(e: ExpDesc)
      requires Ready(e) && TopTemp(gen, e.e)
      modifies this, e
      ensures Did(e, LuaCodegen.Exp2NextReg(old(gen), old(e.e)))
    {
      hide LuaCodegen.Exp2Reg, LuaCodegen.DischargeVars, Stands, Threads, Unmoved, JumpsWithin, NilRanges, NoDup;
      ghost var g0, c0, e0 := gen, Live(), e.e;
      DischargeVarsOK(g0, e0);
      DischargeVars(e);
      if failed { return; }
      ghost var g1, c1, e1 := gen, Live(), e.e;
      TopTempStill(g0, e0);
      FreshReg(g1, e1);
      ReleaseExp(e);
      assert Live() == c1;
      ReserveReg1();
      if failed { return; }
      Exp2Reg(e, freereg - 1);
      if failed { return; }
      UnmovedOn(g0.code, g1.code, c0, c1, Live(), Lists(g0, e0), Lists(g1, e1));
    }

    /** `luaK_exp2anyreg` */
    method Exp2AnyReg(e: ExpDesc)
      requires Ready(e)
      modifies this, e
      ensures Did(e, LuaCodegen.Exp2AnyReg(old(gen), old(e.e)))
      ensures !failed ==> e.k.VNonReloc?
    {
      hide LuaCodegen.Exp2NextReg, LuaCodegen.Exp2Reg, Stands, Threads, Unmoved, JumpsWithin, NilRanges, NoDup;
      NextRegKind(gen, e.e);
      ghost var g0, c0, e0 := gen, Live(), e.e;
      DischargeVarsOK(g0, e0);
      DischargeVars(e);
      if failed { return; }
      ghost var g1, c1, e1 := gen, Live(), e.e;
      if e.k.VNonReloc? {
        if e.t == e.f {
          SameLists(e);
          return;
        }
        DifferentLists(e);
        if e.k.reg >= nactvar {
          Exp2Reg(e, e.k.reg);
          if failed { return; }
          UnmovedOn(g0.code, g1.code, c0, c1, Live(), Lists(g0, e0), Lists(g1, e1));
          return;
        }
      }
      TopTempStill(g0, e0);
      Exp2NextReg(e);
      if failed { return; }
      UnmovedOn(g0.code, g1.code, c0, c1, Live(), Lists(g0, e0), Lists(g1, e1));
    }

    /** `hasjumps`, on a descriptor. */
    lemma SameLists(e: ExpDesc)
      requires Ready(e) && e.t == e.f
      ensures !HasJumps(e.e)
    {
      ThreadsUnique(Live(), e.t, e.e.t, e.e.f);
      ApartFromItself(e.e.t);
    }

    lemma DifferentLists(e: ExpDesc)
      requires Ready(e) && e.t != e.f
      ensures HasJumps(e.e)
    {
    }

    /** `luaK_exp2RK`: the operand, after the value was made a constant or put into a
        register. */
    method Exp2RK(e: ExpDesc) returns (rk: nat)
      requires Ready(e)
      modifies this, e
      ensures var r := LuaCodegen.Exp2RK(old(gen), old(e.e));
              Did(e, (r.0, r.1)) && (!failed ==> rk == r.2)
    {
      Exp2RKCases(gen, e.e);
      hide LuaCodegen.Exp2AnyReg, LuaCodegen.Exp2RK;
      rk := 0;
      if e.t == e.f {
        SameLists(e);
        if e.k.VNil? || e.k.VTrue? || e.k.VFalse? || e.k.VKNum? {
          if |k| <= MAXINDEXRK {
            rk := InlineConstant(e);
            return;
          }
        } else if e.k.VK? && e.k.info <= MAXINDEXRK {
          rk := e.k.info + BITRK;
          return;
        }
      } else {
        DifferentLists(e);
      }
      Exp2AnyReg(e);
      if failed { return; }
      rk := e.k.reg;
    }

    method InlineConstant(e: ExpDesc) returns (rk: nat)
      requires Ready(e) && (e.k.VNil? || e.k.VTrue? || e.k.VFalse? || e.k.VKNum?)
      modifies this, e
      ensures var r := AddK(old(gen), InlineValue(old(e.e)));
              Did(e, (r.0, old(e.e).(k := VK(r.1)))) && (!failed ==> rk == r.1 + BITRK)
    {
      hide AddK, Stands, Threads, Unmoved, JumpsWithin, NilRanges, NoDup;
      ghost var g0, c0, e0 := gen, Live(), e.e;
      rk := 0;
      var v := match e.k
        case VNil => Nil
        case VKNum(n) => Num(n)
        case VTrue => Bool(true)
        case VFalse => Bool(false);
      UnmovedSame(g0.code, c0, Lists(g0, e0));
      var i := Constant(v);
      if failed { return; }
      e.k := VK(i);
      e.e := e0.(k := VK(i));
      rk := i + BITRK;
    }

    // ---------- comparisons ----------

    /** `codecomp`, for a first operand that was already made an operand. */
    method Compare(op: CmpOp, cond: bool, e1: ExpDesc, e2: ExpDesc, ghost rk1: nat, ghost base: nat)
      requires Ready(e1) && Ready(e2) && TopTemp(gen, e2.e) && e1 != e2
      requires Held(gen.(freereg := Level(gen, e2.e)), e1.e, rk1, base)
      modifies this, e1, e2
      ensures var r := CodeComp(old(gen), op, cond, old(e1.e), old(e2.e));
              Is(r.0) && (!failed ==> e1.e == r.1 && e1.Holds(Live())
                                      && Unmoved(old(gen).code, old(Live()), Live(), Lists(old(gen), old(e2.e))))
    {
      hide LuaCodegen.Exp2RK, LuaCodegen.CondJump, CodeComp, CompareInstr, GenOK, Stands, Threads, Unmoved, JumpsWithin, NoDup, From;
      ghost var g0, c0, d1, d2 := gen, Live(), e1.e, e2.e;
      CompareForm(g0, op, cond, d1, rk1, base, d2);
      Exp2RKOK(g0, d2);
      var o1 := Exp2RK(e1);
      ghost var c1 := Live();
      e2.HoldsStill(g0.code, c0, c1, Lists(g0, d1));
      var o2 := Exp2RK(e2);
      if failed { return; }
      ghost var g2, c2 := gen, Live();
      e1.NoLists(c1);
      CompareOperands(op, cond, e1, e2, o1, o2, base, Level(g0, d2));
      if failed { return; }
      UnmovedMore(g0.code, c0, c1, Lists(g0, d1), Lists(g0, d2));
      UnmovedOn(g0.code, g0.code, c0, c1, c2, Lists(g0, d2), Lists(g0, d2));
      UnmovedOn(g0.code, g2.code, c0, c2, Live(), Lists(g0, d2), g2.jpc);
    }

    /** The end of `codecomp`: both operands are released, then compared. */
    method CompareOperands(op: CmpOp, cond: bool, e1: ExpDesc, e2: ExpDesc, o1: nat, o2: nat, ghost base: nat, ghost mid: nat)
      requires Valid() && GenOK(gen) && e1 != e2 && e1.k == e1.e.k && e2.k == e2.e.k
      requires Held(gen.(freereg := mid), e1.e, o1, base) && Held(gen, e2.e, o2, mid)
      requires e1.t == NO_JUMP && e1.f == NO_JUMP
      modifies this, e1
      ensures var r := LuaCodegen.CondJump(old(gen).(freereg := base), CompareInstr(op, cond, o1, o2));
              Is(r.0) && (!failed ==> e1.e == Exp(VJmp(|r.0.code| - 1), [], []) && e1.Holds(Live())
                                      && Unmoved(old(gen).code, old(Live()), Live(), old(gen).jpc))
    {
      hide LuaCodegen.CondJump, Stands, Threads, Unmoved, Untouched, JumpList, JumpsWithin, NilRanges;
      ghost var g0, c0 := gen, Live();
      FreeOperands(g0, e1.e, o1, e2.e, o2, base, mid);
      ReleaseExp(e2);
      ReleaseExp(e1);
      assert gen == g0.(freereg := base) && Live() == c0;
      CompareJump(if !cond && op != CmpEq then CMP(op, true, o2, o1) else CMP(op, cond, o1, o2), e1);
    }

    /** The test and its open jump are what is left of the comparison. */
    method CompareJump(i: Instr, e1: ExpDesc)
      requires Valid() && GenOK(gen) && i.CMP? && e1.t == NO_JUMP && e1.f == NO_JUMP
      modifies this, e1
      ensures var r := LuaCodegen.CondJump(old(gen), i);
              Is(r.0) && (!failed ==> e1.e == Exp(VJmp(|r.0.code| - 1), [], []) && e1.Holds(Live())
                                      && Unmoved(old(gen).code, old(Live()), Live(), old(gen).jpc))
    {
      hide LuaCodegen.CondJump, Stands, Threads, Unmoved, Untouched, JumpList, JumpsWithin, NilRanges;
      CondJumpOK(gen, i);
      ghost var out := LuaCodegen.CondJump(gen, i).1;
      var j := CondJump(i);
      if failed { return; }
      HeadOf(Live(), j, out);
      NoThread(Live());
      e1.k := VJmp(j);
      e1.e := Exp(VJmp(j), [], []);
    }

    // ---------- posfix ----------

    /** `luaK_posfix` for `and`: the exits-when-false of both operands, and the descriptor
        of the second. */
    method PosfixAnd(e1: ExpDesc, e2: ExpDesc, ghost ea: Exp)
      requires Ready(e2) && e1 != e2
      requires Threads(Live(), e1.f, ea.f) && JumpList(gen.code, ea.f) && Apart(Lists(gen, e2.e), ea.f)
      modifies this, e1, e2
      ensures var r := JoinAnd(old(gen), ea, old(e2.e));
              Is(r.0) && (!failed ==> e1.e == r.1 && e1.Holds(Live())
                                      && Unmoved(old(gen).code, old(Live()), Live(), Lists(old(gen), old(e2.e))))
    {
      hide LuaCodegen.DischargeVars, Stands, Threads, Unmoved, GenOK;
      ghost var g0, c0, d0 := gen, Live(), e2.e;
      DischargeVarsOK(g0, d0);
      DischargeVars(e2);
      if failed { return; }
      ghost var g1, c1, d1 := gen, Live(), e2.e;
      ListKept(g0.code, g1.code, Lists(g0, d0), ea.f);
      ThreadsKept(g0.code, c0, c1, Lists(g0, d0), e1.f, ea.f);
      OutsideAll(g0, d0, ea.f, g1, Lists(g1, d1));
      AddToFalse(e2, e1.f, ea.f);
      if failed { return; }
      UnmovedOn(g0.code, g1.code, c0, c1, Live(), Lists(g0, d0), Lists(g1, d1));
      e1.k, e1.t, e1.f := e2.k, e2.t, e2.f;
      e1.e := e2.e;
    }

    /** The list `l` joins the exits-when-false of `e`. */
    method AddToFalse(e: ExpDesc, list: int, ghost l: seq<nat>)
      requires Ready(e) && Threads(Live(), list, l) && JumpList(gen.code, l) && Apart(Lists(gen, e.e), l)
      modifies this, e
      ensures var r := old(gen).(err := old(gen).err || LinkTooFar(old(e.e).f, l));
              Did(e, (r, old(e.e).(f := old(e.e).f + l)))
    {
      hide Stands, Threads, Unmoved, JumpsWithin, NilRanges, NoDup;
      ghost var g0, c0, e0 := gen, Live(), e.e;
      JoinedList(g0.code, e0.f, l);
      e.f := Link(e.f, list, e0.f, l);
      if failed { return; }
      ThreadsKept(g0.code, c0, Live(), e0.f, jpc, g0.jpc);
      ThreadsKept(g0.code, c0, Live(), e0.f, e.t, e0.t);
      if e.k.VJmp? { ThreadsKept(g0.code, c0, Live(), e0.f, e.k.pc, [e.k.pc]); }
      UnmovedMore(g0.code, c0, Live(), e0.f, Lists(g0, e0));
      e.e := e0.(f := e0.f + l);
    }

    /** `luaK_posfix` for `or`: the exits-when-true of both operands, and the descriptor
        of the second. */
    method PosfixOr(e1: ExpDesc, e2: ExpDesc, ghost ea: Exp)
      requires Ready(e2) && e1 != e2
      requires Threads(Live(), e1.t, ea.t) && JumpList(gen.code, ea.t) && Apart(Lists(gen, e2.e), ea.t)
      modifies this, e1, e2
      ensures var r := JoinOr(old(gen), ea, old(e2.e));
              Is(r.0) && (!failed ==> e1.e == r.1 && e1.Holds(Live())
                                      && Unmoved(old(gen).code, old(Live()), Live(), Lists(old(gen), old(e2.e))))
    {
      hide LuaCodegen.DischargeVars, Stands, Threads, Unmoved, GenOK;
      ghost var g0, c0, d0 := gen, Live(), e2.e;
      DischargeVarsOK(g0, d0);
      DischargeVars(e2);
      if failed { return; }
      ghost var g1, c1, d1 := gen, Live(), e2.e;
      ListKept(g0.code, g1.code, Lists(g0, d0), ea.t);
      ThreadsKept(g0.code, c0, c1, Lists(g0, d0), e1.t, ea.t);
      OutsideAll(g0, d0, ea.t, g1, Lists(g1, d1));
      AddToTrue(e2, e1.t, ea.t);
      if failed { return; }
      UnmovedOn(g0.code, g1.code, c0, c1, Live(), Lists(g0, d0), Lists(g1, d1));
      e1.k, e1.t, e1.f := e2.k, e2.t, e2.f;
      e1.e := e2.e;
    }

    /** The list `l` joins the exits-when-true of `e`. */
    method AddToTrue(e: ExpDesc, list: int, ghost l: seq<nat>)
      requires Ready(e) && Threads(Live(), list, l) && JumpList(gen.code, l) && Apart(Lists(gen, e.e), l)
      modifies this, e
      ensures var r := old(gen).(err := old(gen).err || LinkTooFar(old(e.e).t, l));
              Did(e, (r, old(e.e).(t := old(e.e).t + l)))
    {
      hide Stands, Threads, Unmoved, JumpsWithin, NilRanges, NoDup;
      ghost var g0, c0, e0 := gen, Live(), e.e;
      JoinedList(g0.code, e0.t, l);
      e.t := Link(e.t, list, e0.t, l);
      if failed { return; }
      ThreadsKept(g0.code, c0, Live(), e0.t, jpc, g0.jpc);
      ThreadsKept(g0.code, c0, Live(), e0.t, e.f, e0.f);
      if e.k.VJmp? { ThreadsKept(g0.code, c0, Live(), e0.t, e.k.pc, [e.k.pc]); }
      UnmovedMore(g0.code, c0, Live(), e0.t, Lists(g0, e0));
      e.e := e0.(t := e0.t + l);
    }
  }

  lemma DischargedKind(g: Gen, e: Exp, reg: nat)
    requires ExpOK(g, e) && !e.k.VLocal? && !e.k.VGlobal?
    ensures var (g', e') := LuaCodegen.Discharge2Reg(g, e, reg);
            if e.k.VJmp? then (g', e') == (g, e) else e' == e.(k := VNonReloc(reg))
  {
    hide GenOK, JumpList;
  }

  lemma NegateForm(g: Gen, e: Exp)
    requires ExpOK(g, e) && (e.k.VReloc? || e.k.VNonReloc?)
    ensures var (g1, e1) := LuaCodegen.Discharge2AnyReg(g, e);
            && Negate(g, e) == (Emit(FreeExp(g1, e1), NOT(0, e1.k.reg)), VReloc(|g1.code|))
            && (g1.err ==> Negate(g, e).0.err)
  {
    hide LuaCodegen.Discharge2AnyReg, Emit, JumpsWithin, NilRanges, NoDup;
    Discharge2AnyRegOK(g, e);
  }

  lemma CompareForm(g: Gen, op: CmpOp, cond: bool, e1: Exp, rk1: nat, base: nat, e2: Exp)
    requires Held(g.(freereg := Level(g, e2)), e1, rk1, base) && ExpOK(g, e2) && TopTemp(g, e2)
    ensures LuaCodegen.Exp2RK(g, e1) == (g, e1, rk1)
    ensures var (g2, e2', o2) := LuaCodegen.Exp2RK(g, e2);
            var r := CodeComp(g, op, cond, e1, e2);
            if g2.err then r.0.err
            else
              && Held(g2, e2', o2, Level(g, e2)) && Held(g2.(freereg := Level(g, e2)), e1, rk1, base)
              && r.0 == LuaCodegen.CondJump(g2.(freereg := base), CompareInstr(op, cond, rk1, o2)).0
              && r.1 == Exp(VJmp(|r.0.code| - 1), [], [])
  {
    hide LuaCodegen.CondJump, CodeComp, CompareInstr, LuaCodegen.Exp2RK, Level, JumpsWithin, NilRanges, JumpList, Apart, Untouched, From, KindOK;
    HeldAgain(g, e1, rk1, base, Level(g, e2));
    Exp2RKOK(g, e2);
    CompareUnfolded(g, op, cond, e1, rk1, e2);
    var (g2, e2', o2) := LuaCodegen.Exp2RK(g, e2);
    if !g2.err {
      FreeOperands(g2, e1, rk1, e2', o2, base, Level(g, e2));
    }
  }

  /** Jumps outside the lists of an expression stay outside. */
  lemma OutsideAll(g: Gen, e: Exp, out: seq<nat>, g': Gen, l': seq<nat>)
    requires JumpList(g.code, out) && Apart(Lists(g, e), out) && Keeps(g, Lists(g, e), g', l')
    ensures Apart(out, Lists(g, e)) && Apart(l', out)
  {
  }

  lemma NextRegKind(g: Gen, e: Exp)
    ensures var (g1, e1) := LuaCodegen.DischargeVars(g, e);
            && LuaCodegen.Exp2NextReg(g1, e1).1.k.VNonReloc?
            && (forall r :: LuaCodegen.Exp2Reg(g1, e1, r).1.k.VNonReloc?)
  {
  }

  lemma TopTempStill(g: Gen, e: Exp)
    requires TopTemp(g, e) && ExpOK(g, e)
    ensures var (g', e') := LuaCodegen.DischargeVars(g, e);
            TopTemp(g', e') && !e'.k.VLocal? && !e'.k.VGlobal?
  {
  }

  lemma FailedDischarge(g: Gen, e: Exp, cond: bool)
    requires LuaCodegen.Discharge2AnyReg(g, e).0.err && (e.k.VReloc? ==> e.k.pc < |g.code| && !g.code[e.k.pc].NOT?)
    ensures LuaCodegen.JumpOnCond(g, e, cond).0.err
  {
  }

  lemma FreedOK(g: Gen, e: Exp)
    requires GenOK(g) && (e.k.VNonReloc? && e.k.reg >= g.nactvar ==> g.freereg == e.k.reg + 1)
    ensures GenOK(FreeExp(g, e)) && FreeExp(g, e) == g.(freereg := FreeExp(g, e).freereg)
  {
  }
}
