/** The instructions the code generator emits for expressions, and their execution. */
module LuaMachine {
  import opened LuaSource

  /** End of a jump list; as an offset it would link a jump to itself. */
  const NO_JUMP: int := -1
  const NO_REG: nat := 255
  /** Added to a constant index to turn it into an RK operand. */
  const BITRK: nat := 256
  const MAXINDEXRK: nat := 255
  const MAXARG_BX: nat := 262143
  const MAXARG_SBX: nat := 131071
  const MAXSTACK: nat := 250
  const MAX_INT: nat := 2147483645
  /** Local variables a function may have at a time, parameters included. */
  const MAXVARS: nat := 50

  datatype Option<+T> = None | Some(value: T)

  datatype Instr =
    | MOVE(a: nat, b: nat)
    | LOADK(a: nat, bx: nat)
    | LOADBOOL(a: nat, value: bool, skip: bool)
    | LOADNIL(a: nat, b: nat)
    | GETGLOBAL(a: nat, bx: nat)
    | NOT(a: nat, b: nat)
    | JMP(sbx: int)
    | CMP(op: CmpOp, accept: bool, b: nat, c: nat)
    | TEST(a: nat, cond: bool)
    | TESTSET(a: nat, b: nat, cond: bool)
    | RETURN(a: nat, n: nat)

  type Code = seq<Instr>

  const OPEN := JMP(NO_JUMP)

  predicate IsTest(i: Instr) {
    i.CMP? || i.TEST? || i.TESTSET?
  }

  datatype Machine = Machine(regs: Regs, log: Log)

  function RK(x: nat, k: seq<Value>, regs: Regs): Value {
    if x < BITRK then Get(regs, x)
    else if x - BITRK < |k| then k[x - BITRK]
    else Nil
  }

  function Kst(x: nat, k: seq<Value>): Value {
    if x < |k| then k[x] else Nil
  }

  /** OP_LOADNIL writes from R(B) down to R(A), and R(B) in any case. */
  function SetNil(regs: Regs, a: nat, b: nat): Regs {
    (map r | r in regs && !(a <= r <= b || r == b) :: regs[r])
  }

  /** Does the test accept, that is, does it take the jump behind it?  A comparison is
      an event. */
  function Accepts(i: Instr, k: seq<Value>, w: World, m: Machine): (bool, Log)
    requires IsTest(i)
  {
    match i
    case CMP(op, accept, b, c) =>
      var x, y := RK(b, k, m.regs), RK(c, k, m.regs);
      (w.compare(m.log, op, x, y) == accept, m.log + [Compared(op, x, y)])
    case TEST(a, cond) => (Truthy(Get(m.regs, a)) == cond, m.log)
    case TESTSET(_, b, cond) => (Truthy(Get(m.regs, b)) == cond, m.log)
  }

  /** The value a test offers to the place its jump goes to. */
  function Carried(i: Instr, regs: Regs): Option<Value> {
    if i.TESTSET? then Some(Get(regs, i.b)) else None
  }

  /** What a RETURN hands out: `n` registers from `a` on. */
  function Results(regs: Regs, a: nat, n: nat): seq<Value> {
    seq(n, i requires 0 <= i < n => Get(regs, a + i))
  }

  lemma OneResult(regs: Regs, a: nat)
    ensures Results(regs, a, 1) == [Get(regs, a)]
  {
  }

  /** How a run ends: it falls off the end of the code emitted so far, returns, is about
      to take the still open jump at `j` (offering `carry` when a TESTSET guards that
      jump), or goes wrong. */
  datatype Result =
    | Halt(m: Machine)
    | Returned(vs: seq<Value>, log: Log)
    | Out(j: nat, carry: Option<Value>, m: Machine)
    | Stuck

  /** The effect of an instruction that only computes. */
  function Computes(i: Instr, k: seq<Value>, w: World, m: Machine): Option<Machine> {
    match i
    case MOVE(a, b) => Some(m.(regs := m.regs[a := Get(m.regs, b)]))
    case LOADK(a, bx) => Some(m.(regs := m.regs[a := Kst(bx, k)]))
    case LOADBOOL(a, v, _) => Some(m.(regs := m.regs[a := Bool(v)]))
    case LOADNIL(a, b) => Some(m.(regs := SetNil(m.regs, a, b)))
    case GETGLOBAL(a, bx) =>
      (match Kst(bx, k)
       case Str(g) => Some(Machine(m.regs[a := w.global(m.log, g)], m.log + [Read(g)]))
       case _ => None)
    case NOT(a, b) => Some(m.(regs := m.regs[a := Bool(!Truthy(Get(m.regs, b)))]))
    case _ => None
  }

  /** Where control goes after such an instruction at `pc`. */
  function After(i: Instr, pc: nat): nat {
    if i.LOADBOOL? && i.skip then pc + 2 else pc + 1
  }

  /** Runs from `pc`.  The modelled code only jumps forward and returns a fixed number of
      values; anything else is Stuck. */
  function Exec(code: Code, k: seq<Value>, w: World, pc: nat, m: Machine): Result
    decreases if pc <= |code| then |code| - pc else 0, 1
  {
    if pc == |code| then Halt(m)
    else if pc > |code| then Stuck
    else if code[pc].JMP? then TakeJump(code, k, w, pc, None, m)
    else if code[pc].RETURN? then
      if code[pc].n == 0 then Stuck else Returned(Results(m.regs, code[pc].a, code[pc].n - 1), m.log)
    else if IsTest(code[pc]) then
      var (yes, log) := Accepts(code[pc], k, w, m);
      var m' := m.(log := log);
      if pc + 1 >= |code| then Stuck
      else if yes then TakeJump(code, k, w, pc + 1, Carried(code[pc], m.regs), m')
      else Exec(code, k, w, pc + 2, m')
    else
      match Computes(code[pc], k, w, m)
      case Some(m') => Exec(code, k, w, After(code[pc], pc), m')
      case None => Stuck
  }

  /** Takes the jump at `j`; `carry` is the value offered by the TESTSET just before it,
      which stores it only when the jump is taken. */
  function TakeJump(code: Code, k: seq<Value>, w: World, j: nat, carry: Option<Value>, m: Machine): Result
    decreases if j <= |code| then |code| - j else 0, 0
  {
    if j >= |code| || !code[j].JMP? then Stuck
    else
      var c := if Guarded(code, j) then carry else None;
      if code[j] == OPEN then Out(j, c, m)
      else if code[j].sbx < 0 then Stuck
      else
        match c
        case None => Exec(code, k, w, j + 1 + code[j].sbx, m)
        case Some(v) =>
          if code[j - 1].a == NO_REG then Stuck
          else Exec(code, k, w, j + 1 + code[j].sbx, m.(regs := m.regs[code[j - 1].a := v]))
  }

  /** The jump at `j` belongs to a TESTSET. */
  predicate Guarded(code: Code, j: nat) {
    1 <= j <= |code| && code[j - 1].TESTSET?
  }

  // ---------- constant tables ----------

  function IndexOf(ks: seq<Value>, v: Value): (i: nat)
    requires v in ks
    ensures i < |ks| && ks[i] == v && v !in ks[..i]
  {
    if ks[0] == v then 0 else 1 + IndexOf(ks[1..], v)
  }

  /** The constant table after looking `v` up, adding it when it is new. */
  function Pooled(ks: seq<Value>, v: Value): (r: seq<Value>)
    ensures v in r
  {
    if v in ks then ks else ks + [v]
  }
}
