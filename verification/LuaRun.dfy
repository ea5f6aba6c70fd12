/** How runs change when code is extended and open jumps are resolved. */
module LuaRun {
  import opened LuaSource
  import opened LuaMachine

  /** `c'` continues `c`: instructions stay, except that open jumps may get a target and
      the TESTSETs guarding them may change their target register or become TESTs. */
  ghost predicate Extends(c: Code, c': Code) {
    && |c| <= |c'|
    && forall i :: 0 <= i < |c| ==> ExtendsAt(c, c', i)
  }

  ghost predicate ExtendsAt(c: Code, c': Code, i: nat)
    requires i < |c| <= |c'|
  {
    || c'[i] == c[i]
    || (c[i] == OPEN && c'[i].JMP?)
    || (c[i].TESTSET? && i + 1 < |c| && c[i + 1] == OPEN && SameTest(c[i], c'[i]))
  }

  ghost predicate SameTest(i: Instr, i': Instr)
    requires i.TESTSET?
  {
    i' == TEST(i.b, i.cond) || (i'.TESTSET? && i'.b == i.b && i'.cond == i.cond)
  }

  /** A run that got as far as `x` in `c`, carried on in a continuation of `c`. */
  ghost function Resume(c: Code, c': Code, ks: seq<Value>, w: World, x: Result): Result {
    match x
    case Halt(m) => Exec(c', ks, w, |c|, m)
    case Out(j, carry, m) => TakeJump(c', ks, w, j, carry, m)
    case _ => x
  }

  /** Running a continuation is running the original and resuming from where it stopped. */
  lemma {:induction false} RunExtended(c: Code, c': Code, ks: seq<Value>, w: World, pc: nat, m: Machine)
    requires Extends(c, c')
    requires !Exec(c, ks, w, pc, m).Stuck?
    ensures Exec(c', ks, w, pc, m) == Resume(c, c', ks, w, Exec(c, ks, w, pc, m))
    decreases if pc <= |c| then |c| - pc else 0, 1
  {
    if pc < |c| {
      assert ExtendsAt(c, c', pc);
      if c[pc].JMP? {
        JumpExtended(c, c', ks, w, pc, None, m);
      } else if IsTest(c[pc]) {
        var (yes, log) := Accepts(c[pc], ks, w, m);
        assert Accepts(c'[pc], ks, w, m) == (yes, log);
        if yes {
          JumpExtended(c, c', ks, w, pc + 1, Carried(c[pc], m.regs), m.(log := log));
        } else {
          RunExtended(c, c', ks, w, pc + 2, m.(log := log));
        }
      } else if Computes(c[pc], ks, w, m).Some? {
        RunExtended(c, c', ks, w, After(c[pc], pc), Computes(c[pc], ks, w, m).value);
      }
    }
  }

  lemma {:induction false} JumpExtended(c: Code, c': Code, ks: seq<Value>, w: World, j: nat, carry: Option<Value>, m: Machine)
    requires Extends(c, c')
    requires !TakeJump(c, ks, w, j, carry, m).Stuck?
    ensures TakeJump(c', ks, w, j, carry, m) == Resume(c, c', ks, w, TakeJump(c, ks, w, j, carry, m))
    decreases if j <= |c| then |c| - j else 0, 0
  {
    assert ExtendsAt(c, c', j);
    if j > 0 { assert ExtendsAt(c, c', j - 1); }
    if c[j] != OPEN {
      var cc := if Guarded(c, j) then carry else None;
      var m' := if cc.Some? then m.(regs := m.regs[c[j - 1].a := cc.value]) else m;
      RunExtended(c, c', ks, w, j + 1 + c[j].sbx, m');
    }
  }

  /** What is known where a run leaves: at an open jump, offering a value only when a
      TESTSET guards that jump, and then the one in the register it tested. */
  ghost predicate LeavesOpen(c: Code, x: Result) {
    x.Out? ==>
      && x.j < |c| && c[x.j] == OPEN
      && (x.carry.Some? ==> Guarded(c, x.j) && x.carry.value == Get(x.m.regs, c[x.j - 1].b))
  }

  lemma {:induction false} RunLeavesOpen(c: Code, ks: seq<Value>, w: World, pc: nat, m: Machine)
    ensures LeavesOpen(c, Exec(c, ks, w, pc, m))
    decreases if pc <= |c| then |c| - pc else 0, 1
  {
    if pc >= |c| {
    } else if c[pc].JMP? {
      JumpLeavesOpen(c, ks, w, pc, None, m);
    } else if IsTest(c[pc]) {
      var (yes, log) := Accepts(c[pc], ks, w, m);
      if pc + 1 >= |c| {
      } else if yes {
        JumpLeavesOpen(c, ks, w, pc + 1, Carried(c[pc], m.regs), m.(log := log));
      } else {
        RunLeavesOpen(c, ks, w, pc + 2, m.(log := log));
      }
    } else if Computes(c[pc], ks, w, m).Some? {
      RunLeavesOpen(c, ks, w, After(c[pc], pc), Computes(c[pc], ks, w, m).value);
    }
  }

  lemma {:induction false} JumpLeavesOpen(c: Code, ks: seq<Value>, w: World, j: nat, carry: Option<Value>, m: Machine)
    requires j < |c| && Guarded(c, j) && carry.Some? ==> carry.value == Get(m.regs, c[j - 1].b)
    ensures LeavesOpen(c, TakeJump(c, ks, w, j, carry, m))
    decreases if j <= |c| then |c| - j else 0, 0
  {
    if j < |c| && c[j].JMP? && c[j] != OPEN && c[j].sbx >= 0 {
      var cc := if Guarded(c, j) then carry else None;
      var m' := if cc.Some? then m.(regs := m.regs[c[j - 1].a := cc.value]) else m;
      RunLeavesOpen(c, ks, w, j + 1 + c[j].sbx, m');
    }
  }

  // ---------- no jump lands at the end ----------

  /** Resolved jumps and skips land at most at `limit`, and tests have their jump. */
  ghost predicate JumpsWithin(c: Code, limit: int) {
    forall i :: 0 <= i < |c| ==> JumpWithin(c, limit, i)
  }

  ghost predicate JumpWithin(c: Code, limit: int, i: nat)
    requires i < |c|
  {
    match c[i]
    case JMP(s) => s == NO_JUMP || (0 <= s && i + 1 + s <= limit)
    case LOADBOOL(_, _, skip) => skip ==> i + 2 <= limit
    case _ => IsTest(c[i]) ==> i + 1 < |c| && c[i + 1].JMP?
  }

  ghost function AlsoNil(x: Result, r: nat): Result {
    match x
    case Halt(m) => Halt(m.(regs := m.regs - {r}))
    case _ => x
  }

  /** When nothing jumps behind the last instruction, a LOADNIL there may be stretched by
      one register: every run that reaches the end has executed it. */
  lemma {:induction false} RunStretchedNil(c: Code, limit: int, ks: seq<Value>, w: World, pc: nat, m: Machine)
    requires JumpsWithin(c, limit) && limit < |c| && pc < |c|
    requires c[|c| - 1].LOADNIL? && c[|c| - 1].a <= c[|c| - 1].b
    ensures var last := c[|c| - 1];
            Exec(c[|c| - 1 := LOADNIL(last.a, last.b + 1)], ks, w, pc, m)
            == AlsoNil(Exec(c, ks, w, pc, m), last.b + 1)
    decreases |c| - pc, 1
  {
    var last := c[|c| - 1];
    var c' := c[|c| - 1 := LOADNIL(last.a, last.b + 1)];
    assert JumpWithin(c, limit, pc);
    if pc == |c| - 1 {
      assert SetNil(m.regs, last.a, last.b + 1) == SetNil(m.regs, last.a, last.b) - {last.b + 1};
    } else if c[pc].JMP? {
      JumpStretchedNil(c, limit, ks, w, pc, None, m);
    } else if IsTest(c[pc]) {
      var (yes, log) := Accepts(c[pc], ks, w, m);
      if yes {
        JumpStretchedNil(c, limit, ks, w, pc + 1, Carried(c[pc], m.regs), m.(log := log));
      } else {
        assert c[pc + 1].JMP?;
        RunStretchedNil(c, limit, ks, w, pc + 2, m.(log := log));
      }
    } else if Computes(c[pc], ks, w, m).Some? {
      RunStretchedNil(c, limit, ks, w, After(c[pc], pc), Computes(c[pc], ks, w, m).value);
    }
  }

  lemma {:induction false} JumpStretchedNil(c: Code, limit: int, ks: seq<Value>, w: World, j: nat, carry: Option<Value>, m: Machine)
    requires JumpsWithin(c, limit) && limit < |c| && j < |c|
    requires c[|c| - 1].LOADNIL? && c[|c| - 1].a <= c[|c| - 1].b
    ensures var last := c[|c| - 1];
            TakeJump(c[|c| - 1 := LOADNIL(last.a, last.b + 1)], ks, w, j, carry, m)
            == AlsoNil(TakeJump(c, ks, w, j, carry, m), last.b + 1)
    decreases |c| - j, 0
  {
    assert JumpWithin(c, limit, j);
    if c[j].JMP? && c[j] != OPEN {
      var cc := if Guarded(c, j) then carry else None;
      if cc.Some? && c[j - 1].a == NO_REG {
      } else {
        var m' := if cc.Some? then m.(regs := m.regs[c[j - 1].a := cc.value]) else m;
        RunStretchedNil(c, limit, ks, w, j + 1 + c[j].sbx, m');
      }
    }
  }

  ghost predicate NilFrom(regs: Regs, a: nat, b: nat) {
    forall r: nat :: a <= r <= b ==> Get(regs, r) == Nil
  }

  lemma SetNilClears(regs: Regs, a: nat, b: nat)
    ensures NilFrom(SetNil(regs, a, b), a, b)
  {
  }

  /** Such a LOADNIL has been executed: its registers are nil wherever a run halts. */
  lemma {:induction false} HaltsAfterNil(c: Code, limit: int, ks: seq<Value>, w: World, pc: nat, m: Machine)
    requires JumpsWithin(c, limit) && limit < |c| && pc < |c|
    requires c[|c| - 1].LOADNIL?
    ensures var x := Exec(c, ks, w, pc, m);
            x.Halt? ==> NilFrom(x.m.regs, c[|c| - 1].a, c[|c| - 1].b)
    decreases |c| - pc, 1
  {
    hide NilFrom;
    assert JumpWithin(c, limit, pc);
    if pc == |c| - 1 {
      SetNilClears(m.regs, c[pc].a, c[pc].b);
      var m' := m.(regs := SetNil(m.regs, c[pc].a, c[pc].b));
      assert Exec(c, ks, w, pc + 1, m') == Halt(m');
      assert Exec(c, ks, w, pc, m) == Halt(m');
    } else if c[pc].JMP? {
      JumpHaltsAfterNil(c, limit, ks, w, pc, None, m);
    } else if IsTest(c[pc]) {
      var (yes, log) := Accepts(c[pc], ks, w, m);
      if yes {
        JumpHaltsAfterNil(c, limit, ks, w, pc + 1, Carried(c[pc], m.regs), m.(log := log));
        assert Exec(c, ks, w, pc, m) == TakeJump(c, ks, w, pc + 1, Carried(c[pc], m.regs), m.(log := log));
      } else {
        assert c[pc + 1].JMP?;
        HaltsAfterNil(c, limit, ks, w, pc + 2, m.(log := log));
        assert Exec(c, ks, w, pc, m) == Exec(c, ks, w, pc + 2, m.(log := log));
      }
    } else if Computes(c[pc], ks, w, m).Some? {
      HaltsAfterNil(c, limit, ks, w, After(c[pc], pc), Computes(c[pc], ks, w, m).value);
    }
  }

  lemma {:induction false} JumpHaltsAfterNil(c: Code, limit: int, ks: seq<Value>, w: World, j: nat, carry: Option<Value>, m: Machine)
    requires JumpsWithin(c, limit) && limit < |c| && j < |c|
    requires c[|c| - 1].LOADNIL?
    ensures var x := TakeJump(c, ks, w, j, carry, m);
            x.Halt? ==> NilFrom(x.m.regs, c[|c| - 1].a, c[|c| - 1].b)
    decreases |c| - j, 0
  {
    hide NilFrom;
    assert JumpWithin(c, limit, j);
    if c[j].JMP? && c[j] != OPEN {
      var cc := if Guarded(c, j) then carry else None;
      if !(cc.Some? && c[j - 1].a == NO_REG) {
        var m' := if cc.Some? then m.(regs := m.regs[c[j - 1].a := cc.value]) else m;
        HaltsAfterNil(c, limit, ks, w, j + 1 + c[j].sbx, m');
        assert TakeJump(c, ks, w, j, carry, m) == Exec(c, ks, w, j + 1 + c[j].sbx, m');
      }
    }
  }
}
