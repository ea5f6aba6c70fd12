/** The virtual machine's code checker, and what a run of accepted code cannot do. */
module LuaCheckCode {
  import opened LuaSource
  import opened LuaMachine
  import opened LuaWord

  predicate CheckRK(x: nat, k: seq<Value>, maxstack: nat) {
    if x < BITRK then x < maxstack else x - BITRK < |k|
  }

  /** The operands of an instruction. */
  predicate CheckArgs(i: Instr, k: seq<Value>, maxstack: nat) {
    match i
    case MOVE(a, b) => a < maxstack && b < maxstack
    case LOADK(a, bx) => a < maxstack && bx < |k|
    case LOADBOOL(a, _, _) => a < maxstack
    case LOADNIL(a, b) => a < maxstack && b < maxstack
    case GETGLOBAL(a, bx) => a < maxstack && bx < |k| && k[bx].Str?
    case NOT(a, b) => a < maxstack && b < maxstack
    case JMP(_) => 0 < maxstack
    case CMP(_, accept, b, c) => (if accept then 1 else 0) < maxstack && CheckRK(b, k, maxstack) && CheckRK(c, k, maxstack)
    case TEST(a, _) => a < maxstack && 0 < maxstack
    case TESTSET(a, b, _) => a < maxstack && b < maxstack
    case RETURN(a, n) => a < maxstack && (n > 1 ==> a + n - 2 < maxstack)
  }

  /** Jumps stay inside the code, every test is followed by a jump, and nothing skips past
      the end. */
  predicate CheckFlow(code: Code, pc: nat)
    requires pc < |code|
  {
    match code[pc]
    case JMP(sbx) => 0 <= pc + 1 + sbx < |code|
    case LOADBOOL(_, _, skip) => skip ==> pc + 2 < |code|
    case _ => IsTest(code[pc]) ==> pc + 2 < |code| && code[pc + 1].JMP?
  }

  /** `luaG_checkcode`, for a function whose parameters fill `nparams` registers. */
  predicate CheckCode(code: Code, k: seq<Value>, maxstack: nat, nparams: nat) {
    && maxstack <= MAXSTACK && nparams <= maxstack
    && |code| > 0 && code[|code| - 1].RETURN?
    && forall pc :: 0 <= pc < |code| ==> CheckArgs(code[pc], k, maxstack) && CheckFlow(code, pc)
  }

  /** `symbexec` over the whole code, without tracing a register. */
  method CheckAll(code: Code, k: seq<Value>, maxstack: nat, nparams: nat) returns (ok: bool)
    ensures ok == CheckCode(code, k, maxstack, nparams)
  {
    if !(maxstack <= MAXSTACK && nparams <= maxstack && |code| > 0 && code[|code| - 1].RETURN?) {
      return false;
    }
    var pc := 0;
    while pc < |code|
      invariant 0 <= pc <= |code|
      invariant forall i :: 0 <= i < pc ==> CheckArgs(code[i], k, maxstack) && CheckFlow(code, i)
    {
      if !CheckArgs(code[pc], k, maxstack) || !CheckFlow(code, pc) {
        return false;
      }
      pc := pc + 1;
    }
    return true;
  }

  // ---------- the operand modes ----------

  /** `OpArgMask`: unused, any value, a register (or a jump offset), a register or constant. */
  datatype Mode = OpArgN | OpArgU | OpArgR | OpArgK

  /** The modes of B and C in `luaP_opmodes`. */
  function ModesOf(i: Instr): (Mode, Mode) {
    match i
    case MOVE(_, _) => (OpArgR, OpArgN)
    case LOADK(_, _) => (OpArgK, OpArgN)
    case LOADBOOL(_, _, _) => (OpArgU, OpArgU)
    case LOADNIL(_, _) => (OpArgR, OpArgN)
    case GETGLOBAL(_, _) => (OpArgK, OpArgN)
    case NOT(_, _) => (OpArgR, OpArgN)
    case JMP(_) => (OpArgR, OpArgN)
    case CMP(_, _, _, _) => (OpArgK, OpArgK)
    case TEST(_, _) => (OpArgR, OpArgU)
    case TESTSET(_, _, _) => (OpArgR, OpArgU)
    case RETURN(_, _) => (OpArgU, OpArgN)
  }

  /** `checkArgMode` */
  predicate CheckArgMode(r: int, mode: Mode, sizek: nat, maxstack: nat) {
    match mode
    case OpArgN => r == 0
    case OpArgU => true
    case OpArgR => r < maxstack
    case OpArgK => if r >= 256 then r - 256 < sizek else r < maxstack
  }

  /** `symbexec` on the operand fields of one instruction, by its modes. */
  predicate CheckFields(i: Instr, k: seq<Value>, maxstack: nat) {
    match FieldsOf(i)
    case ABC(a, b, c) =>
      && a < maxstack
      && CheckArgMode(b, ModesOf(i).0, |k|, maxstack) && CheckArgMode(c, ModesOf(i).1, |k|, maxstack)
      && (i.RETURN? && b - 1 > 0 ==> a + b - 2 < maxstack)
    case ABx(a, bx) =>
      && a < maxstack
      && (ModesOf(i).0 == OpArgK ==> bx < |k|)
      && (i.GETGLOBAL? ==> k[bx].Str?)
  }

  /** Checking each kind of instruction is checking its fields by their modes. */
  lemma ChecksFields(i: Instr, k: seq<Value>, maxstack: nat)
    ensures CheckArgs(i, k, maxstack) <==> CheckFields(i, k, maxstack)
  {
  }

  // ---------- what acceptance means ----------

  /** Machines that cannot be told apart by their first `n` registers and their log. */
  ghost predicate Agree(m: Machine, m': Machine, n: nat) {
    m.log == m'.log && forall r: nat :: r < n ==> Get(m.regs, r) == Get(m'.regs, r)
  }

  /** Registers from `n` on are as they were. */
  ghost predicate SameFrom(regs: Regs, regs': Regs, n: nat) {
    forall r: nat :: r >= n ==> Get(regs', r) == Get(regs, r)
  }

  /** Results that cannot be told apart by the first `n` registers. */
  ghost predicate Alike(r: Result, r': Result, n: nat) {
    match r
    case Halt(m) => r'.Halt? && Agree(m, r'.m, n)
    case Out(j, c, m) => r'.Out? && r'.j == j && r'.carry == c && Agree(m, r'.m, n)
    case _ => r' == r
  }

  /** Where a run from `pc` comes to its end, and the machine then. */
  function Last(code: Code, k: seq<Value>, w: World, pc: nat, m: Machine): (nat, Machine)
    decreases if pc <= |code| then |code| - pc else 0, 1
  {
    if pc >= |code| || code[pc].RETURN? then (pc, m)
    else if code[pc].JMP? then LastJump(code, k, w, pc, None, m)
    else if IsTest(code[pc]) then
      var (yes, log) := Accepts(code[pc], k, w, m);
      if yes then LastJump(code, k, w, pc + 1, Carried(code[pc], m.regs), m.(log := log))
      else Last(code, k, w, pc + 2, m.(log := log))
    else
      match Computes(code[pc], k, w, m)
      case Some(m') => Last(code, k, w, After(code[pc], pc), m')
      case None => (pc, m)
  }

  function LastJump(code: Code, k: seq<Value>, w: World, j: nat, carry: Option<Value>, m: Machine): (nat, Machine)
    decreases if j <= |code| then |code| - j else 0, 0
  {
    if j >= |code| || !code[j].JMP? || code[j].sbx < 0 then (j, m)
    else if carry.None? || j == 0 || !code[j - 1].TESTSET? then Last(code, k, w, j + 1 + code[j].sbx, m)
    else Last(code, k, w, j + 1 + code[j].sbx, m.(regs := m.regs[code[j - 1].a := carry.value]))
  }

  /** The run ended at `q`: it returned what the RETURN there hands out, all of it from the
      first `n` registers, or it stopped at something no modelled run goes on from, a backward
      jump or a RETURN of an open list of values. */
  ghost predicate EndedAt(code: Code, r: Result, q: nat, m: Machine, n: nat) {
    && q < |code|
    && match code[q]
       case RETURN(a, count) =>
         if count == 0 then r == Stuck
         else r == Returned(Results(m.regs, a, count - 1), m.log) && (count > 1 ==> a + count - 1 <= n)
       case JMP(sbx) => -(q as int) - 1 <= sbx < 0 && (r == Stuck || (r.Out? && r.j == q && r.m == m))
       case _ => false
  }

  /** An accepted instruction that computes does so, and leaves other registers alone. */
  lemma ComputesInside(i: Instr, k: seq<Value>, n: nat, w: World, m: Machine)
    requires CheckArgs(i, k, n) && !IsTest(i) && !i.JMP? && !i.RETURN?
    ensures Computes(i, k, w, m).Some? && SameFrom(m.regs, Computes(i, k, w, m).value.regs, n)
  {
  }

  /** It depends on the first registers and its own constants only. */
  lemma ComputesAlike(i: Instr, k: seq<Value>, k': seq<Value>, n: nat, w: World, m: Machine, m': Machine)
    requires CheckArgs(i, k, n) && k <= k' && Agree(m, m', n) && Computes(i, k, w, m).Some?
    ensures Computes(i, k', w, m').Some? && Agree(Computes(i, k, w, m).value, Computes(i, k', w, m').value, n)
  {
    match i
    case LOADNIL(a, b) => NilAlike(a, b, n, m, m');
    case GETGLOBAL(a, bx) => StoreAlike(a, w.global(m.log, k[bx].s), m.log + [Read(k[bx].s)], n, m, m');
    case _ => StoreAlike(i.a, Get(Computes(i, k, w, m).value.regs, i.a), m.log, n, m, m');
  }

  lemma StoreAlike(a: nat, v: Value, log: Log, n: nat, m: Machine, m': Machine)
    requires Agree(m, m', n)
    ensures Agree(Machine(m.regs[a := v], log), Machine(m'.regs[a := v], log), n)
  {
    var s, s' := m.regs[a := v], m'.regs[a := v];
    forall r: nat | r < n
      ensures Get(s, r) == Get(s', r)
    {
      assert Get(m.regs, r) == Get(m'.regs, r);
    }
  }

  lemma NilAlike(a: nat, b: nat, n: nat, m: Machine, m': Machine)
    requires Agree(m, m', n)
    ensures Agree(m.(regs := SetNil(m.regs, a, b)), m'.(regs := SetNil(m'.regs, a, b)), n)
  {
    forall r: nat | r < n
      ensures Get(SetNil(m.regs, a, b), r) == Get(SetNil(m'.regs, a, b), r)
    {
      assert Get(m.regs, r) == Get(m'.regs, r);
    }
  }

  lemma AcceptsAlike(i: Instr, k: seq<Value>, k': seq<Value>, n: nat, w: World, m: Machine, m': Machine)
    requires CheckArgs(i, k, n) && IsTest(i) && k <= k' && Agree(m, m', n)
    ensures Accepts(i, k', w, m') == Accepts(i, k, w, m) && Carried(i, m'.regs) == Carried(i, m.regs)
  {
  }

  /** Accepted code never falls off its end, goes wrong only at a backward jump or an open
      RETURN, and never changes a register from `maxstack` on; the parameters are below. */
  lemma {:induction false} CheckedRun(code: Code, k: seq<Value>, maxstack: nat, nparams: nat, w: World, pc: nat, m: Machine)
    requires CheckCode(code, k, maxstack, nparams) && pc < |code|
    ensures var (q, e) := Last(code, k, w, pc, m);
            EndedAt(code, Exec(code, k, w, pc, m), q, e, maxstack) && SameFrom(m.regs, e.regs, maxstack)
    ensures nparams <= maxstack <= 250
    decreases |code| - pc, 1
  {
    hide Computes, Accepts, Carried;
    assert CheckArgs(code[pc], k, maxstack) && CheckFlow(code, pc);
    if code[pc].JMP? {
      CheckedJump(code, k, maxstack, nparams, w, pc, None, m);
    } else if code[pc].RETURN? {
    } else if IsTest(code[pc]) {
      var (yes, log) := Accepts(code[pc], k, w, m);
      if yes {
        CheckedJump(code, k, maxstack, nparams, w, pc + 1, Carried(code[pc], m.regs), m.(log := log));
      } else {
        CheckedRun(code, k, maxstack, nparams, w, pc + 2, m.(log := log));
      }
    } else {
      ComputesInside(code[pc], k, maxstack, w, m);
      NotLast(code, k, maxstack, nparams, pc);
      CheckedRun(code, k, maxstack, nparams, w, After(code[pc], pc), Computes(code[pc], k, w, m).value);
    }
  }

  lemma NotLast(code: Code, k: seq<Value>, maxstack: nat, nparams: nat, pc: nat)
    requires CheckCode(code, k, maxstack, nparams) && pc < |code| && !code[pc].RETURN?
    ensures After(code[pc], pc) < |code|
  {
    assert CheckFlow(code, pc);
  }

  lemma {:induction false} CheckedJump(code: Code, k: seq<Value>, maxstack: nat, nparams: nat, w: World, j: nat, carry: Option<Value>, m: Machine)
    requires CheckCode(code, k, maxstack, nparams) && j < |code| && code[j].JMP?
    ensures var (q, e) := LastJump(code, k, w, j, carry, m);
            EndedAt(code, TakeJump(code, k, w, j, carry, m), q, e, maxstack) && SameFrom(m.regs, e.regs, maxstack)
    decreases |code| - j, 0
  {
    hide Computes, Accepts;
    assert CheckArgs(code[j], k, maxstack) && CheckFlow(code, j);
    if code[j].sbx >= 0 {
      if carry.None? || !Guarded(code, j) {
        CheckedRun(code, k, maxstack, nparams, w, j + 1 + code[j].sbx, m);
      } else {
        assert CheckArgs(code[j - 1], k, maxstack);
        CheckedRun(code, k, maxstack, nparams, w, j + 1 + code[j].sbx, m.(regs := m.regs[code[j - 1].a := carry.value]));
      }
    }
  }

  /** A run of accepted code depends only on the first `maxstack` registers and on the
      constants that were checked: more constants, or other registers, change nothing. */
  lemma {:induction false} CheckedRunsAlike(code: Code, k: seq<Value>, k': seq<Value>, maxstack: nat, nparams: nat, w: World, pc: nat, m: Machine, m': Machine)
    requires CheckCode(code, k, maxstack, nparams) && k <= k' && Agree(m, m', maxstack)
    ensures Alike(Exec(code, k, w, pc, m), Exec(code, k', w, pc, m'), maxstack)
    decreases if pc <= |code| then |code| - pc else 0, 1
  {
    hide Computes, Accepts, Carried;
    if pc < |code| {
      assert CheckArgs(code[pc], k, maxstack) && CheckFlow(code, pc);
      if code[pc].JMP? {
        CheckedJumpsAlike(code, k, k', maxstack, nparams, w, pc, None, m, m');
      } else if code[pc].RETURN? {
        if code[pc].n > 0 { ResultsAlike(code[pc], k, maxstack, m, m'); }
      } else if IsTest(code[pc]) {
        AcceptsAlike(code[pc], k, k', maxstack, w, m, m');
        var (yes, log) := Accepts(code[pc], k, w, m);
        if yes {
          CheckedJumpsAlike(code, k, k', maxstack, nparams, w, pc + 1, Carried(code[pc], m.regs), m.(log := log), m'.(log := log));
        } else {
          CheckedRunsAlike(code, k, k', maxstack, nparams, w, pc + 2, m.(log := log), m'.(log := log));
        }
      } else {
        ComputesInside(code[pc], k, maxstack, w, m);
        ComputesAlike(code[pc], k, k', maxstack, w, m, m');
        CheckedRunsAlike(code, k, k', maxstack, nparams, w, After(code[pc], pc),
                         Computes(code[pc], k, w, m).value, Computes(code[pc], k', w, m').value);
      }
    }
  }

  lemma ResultsAlike(i: Instr, k: seq<Value>, n: nat, m: Machine, m': Machine)
    requires i.RETURN? && i.n > 0 && CheckArgs(i, k, n) && Agree(m, m', n)
    ensures Results(m'.regs, i.a, i.n - 1) == Results(m.regs, i.a, i.n - 1)
  {
  }

  lemma {:induction false} CheckedJumpsAlike(code: Code, k: seq<Value>, k': seq<Value>, maxstack: nat, nparams: nat, w: World, j: nat, carry: Option<Value>, m: Machine, m': Machine)
    requires CheckCode(code, k, maxstack, nparams) && k <= k' && Agree(m, m', maxstack)
    ensures Alike(TakeJump(code, k, w, j, carry, m), TakeJump(code, k', w, j, carry, m'), maxstack)
    decreases if j <= |code| then |code| - j else 0, 0
  {
    hide Computes, Accepts;
    if j < |code| && code[j].JMP? && code[j].sbx >= 0 {
      if carry.None? || !Guarded(code, j) {
        CheckedRunsAlike(code, k, k', maxstack, nparams, w, j + 1 + code[j].sbx, m, m');
      } else {
        StoreAlike(code[j - 1].a, carry.value, m.log, maxstack, m, m');
        CheckedRunsAlike(code, k, k', maxstack, nparams, w, j + 1 + code[j].sbx,
                         m.(regs := m.regs[code[j - 1].a := carry.value]), m'.(regs := m'.regs[code[j - 1].a := carry.value]));
      }
    }
  }
}
