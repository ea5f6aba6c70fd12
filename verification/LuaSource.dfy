/** Lua values, the outside world an expression can observe, and the short-circuit
    meaning of source expressions (section 2.5.3 of the Lua 5.1 Reference Manual). */
module LuaSource {

  datatype Value = Nil | Bool(b: bool) | Num(n: real) | Str(s: string) | Ref(id: nat)

  /** Negation of the `l_isfalse` test: only nil and false are false. */
  predicate Truthy(v: Value) {
    v != Nil && v != Bool(false)
  }

  /** The three comparison opcodes; `>`, `>=` and `~=` are expressed through them. */
  datatype CmpOp = CmpEq | CmpLt | CmpLe

  /** What an evaluation does to the outside: read a global, or compare two values
      (either can run a metamethod, so order and number of events are observable). */
  datatype Event = Read(name: string) | Compared(op: CmpOp, left: Value, right: Value)

  type Log = seq<Event>

  /** The answers of the outside world; they may depend on everything done so far. */
  datatype World = World(global: (Log, string) -> Value, compare: (Log, CmpOp, Value, Value) -> bool)

  /** Comparisons that are answered without asking a metamethod: equality, except of two
      different objects, and the order of numbers. */
  predicate Decided(op: CmpOp, a: Value, b: Value) {
    match op
    case CmpEq => !(a.Ref? && b.Ref? && a != b)
    case _ => a.Num? && b.Num?
  }

  predicate Decision(op: CmpOp, a: Value, b: Value)
    requires Decided(op, a, b)
  {
    match op
    case CmpEq => a == b
    case CmpLt => a.n < b.n
    case CmpLe => a.n <= b.n
  }

  /** A world that answers such comparisons as the language does, and orders strings the
      same way at all times. */
  ghost predicate Lawful(w: World) {
    && (forall log, op, a, b ::
          && (Decided(op, a, b) ==> w.compare(log, op, a, b) == Decision(op, a, b))
          && (a.Str? && b.Str? ==> w.compare(log, op, a, b) == w.compare([], op, a, b)))
    && (forall a: Value, b: Value :: a.Str? && b.Str? ==> w.compare([], CmpLe, a, b) == !w.compare([], CmpLt, b, a))
  }

  /** Such a world orders numbers as numbers, and `<=` is neither more nor less than not being
      greater. */
  lemma LawfulOrder(w: World, log: Log, a: Value, b: Value)
    requires Lawful(w) && ((a.Num? && b.Num?) || (a.Str? && b.Str?))
    ensures w.compare(log, CmpEq, a, b) <==> a == b
    ensures w.compare(log, CmpLe, a, b) <==> !w.compare(log, CmpLt, b, a)
    ensures a.Num? ==> (w.compare(log, CmpLt, a, b) <==> a.n < b.n)
    ensures a.Num? ==> (w.compare(log, CmpLe, a, b) <==> w.compare(log, CmpLt, a, b) || w.compare(log, CmpEq, a, b))
    ensures w.compare(log, CmpLt, Num(1.0), Num(2.0)) && w.compare(log, CmpLe, Num(1.0), Num(2.0))
  {
    assert Decided(CmpEq, a, b);
    if a.Num? {
      assert Decided(CmpLt, a, b) && Decided(CmpLe, a, b) && Decided(CmpLt, b, a);
    }
    assert Decided(CmpLt, Num(1.0), Num(2.0)) && Decided(CmpLe, Num(1.0), Num(2.0));
  }

  /** A register file; a register never written holds nil. */
  type Regs = map<nat, Value>

  function Get(regs: Regs, r: nat): Value {
    if r in regs then regs[r] else Nil
  }

  datatype RelOp = OpNe | OpEq | OpLt | OpLe | OpGt | OpGe

  datatype Expr =
    | ENil
    | ETrue
    | EFalse
    | ENum(n: real)
    | EStr(s: string)
    | ELocal(reg: nat)
    | EGlobal(name: string)
    | EParen(e: Expr)
    | ENot(e: Expr)
    | EAnd(a: Expr, b: Expr)
    | EOr(a: Expr, b: Expr)
    | ERel(op: RelOp, a: Expr, b: Expr)

  /** Every local the expression mentions is an active one. */
  predicate Scoped(s: Expr, nactvar: nat) {
    match s
    case ELocal(r) => r < nactvar
    case EParen(e) => Scoped(e, nactvar)
    case ENot(e) => Scoped(e, nactvar)
    case EAnd(a, b) => Scoped(a, nactvar) && Scoped(b, nactvar)
    case EOr(a, b) => Scoped(a, nactvar) && Scoped(b, nactvar)
    case ERel(_, a, b) => Scoped(a, nactvar) && Scoped(b, nactvar)
    case _ => true
  }

  /** The value of a relation, and the comparison event it performs.  `a > b` is
      `b < a` and `a ~= b` is `not (a == b)`. */
  function Relate(op: RelOp, a: Value, b: Value, w: World, log: Log): (bool, Log) {
    match op
    case OpEq => (w.compare(log, CmpEq, a, b), log + [Compared(CmpEq, a, b)])
    case OpNe => (!w.compare(log, CmpEq, a, b), log + [Compared(CmpEq, a, b)])
    case OpLt => (w.compare(log, CmpLt, a, b), log + [Compared(CmpLt, a, b)])
    case OpLe => (w.compare(log, CmpLe, a, b), log + [Compared(CmpLe, a, b)])
    case OpGt => (w.compare(log, CmpLt, b, a), log + [Compared(CmpLt, b, a)])
    case OpGe => (w.compare(log, CmpLe, b, a), log + [Compared(CmpLe, b, a)])
  }

  /** Among numbers, in such a world, every relation is what its sign says. */
  lemma LawfulRelations(w: World, log: Log, x: real, y: real)
    requires Lawful(w)
    ensures Relate(OpEq, Num(x), Num(y), w, log).0 <==> x == y
    ensures Relate(OpNe, Num(x), Num(y), w, log).0 <==> x != y
    ensures Relate(OpLt, Num(x), Num(y), w, log).0 <==> x < y
    ensures Relate(OpLe, Num(x), Num(y), w, log).0 <==> x <= y
    ensures Relate(OpGt, Num(x), Num(y), w, log).0 <==> x > y
    ensures Relate(OpGe, Num(x), Num(y), w, log).0 <==> x >= y
  {
    LawfulOrder(w, log, Num(x), Num(y));
    LawfulOrder(w, log, Num(y), Num(x));
  }

  /** The reference meaning: operands left to right, the second operand of `and`/`or`
      only when the first does not decide. */
  function Eval(s: Expr, w: World, env: Regs, log: Log): (Value, Log) {
    match s
    case ENil => (Nil, log)
    case ETrue => (Bool(true), log)
    case EFalse => (Bool(false), log)
    case ENum(n) => (Num(n), log)
    case EStr(str) => (Str(str), log)
    case ELocal(r) => (Get(env, r), log)
    case EGlobal(g) => (w.global(log, g), log + [Read(g)])
    case EParen(e) => Eval(e, w, env, log)
    case ENot(e) => var (v, l) := Eval(e, w, env, log); (Bool(!Truthy(v)), l)
    case EAnd(a, b) =>
      var (v, l) := Eval(a, w, env, log);
      if Truthy(v) then Eval(b, w, env, l) else (v, l)
    case EOr(a, b) =>
      var (v, l) := Eval(a, w, env, log);
      if Truthy(v) then (v, l) else Eval(b, w, env, l)
    case ERel(op, a, b) =>
      var (va, la) := Eval(a, w, env, log);
      var (vb, lb) := Eval(b, w, env, la);
      var (r, l) := Relate(op, va, vb, w, lb);
      (Bool(r), l)
  }
}
