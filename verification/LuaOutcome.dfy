/** A source-level account of what the generated code delivers, for every expression.
    It differs from `Eval` in one respect: when a constant turns a pending jump into an
    exit, a value offered by the TESTSET of that pending jump leaves with it. */
module LuaOutcome {
  import opened LuaSource
  import opened LuaMachine

  /** What the expression descriptor of `s` will be. */
  datatype Shape = SNil | STrue | SFalse | SNum(n: real) | SStr(s: string) | SJump | SNot | SLocal | SReg

  function ShapeOf(s: Expr): Shape {
    match s
    case ENil => SNil
    case ETrue => STrue
    case EFalse => SFalse
    case ENum(n) => SNum(n)
    case EStr(str) => SStr(str)
    case ELocal(_) => SLocal
    case EGlobal(_) => SReg
    case EParen(e) => ShapeOf(e)
    case ENot(e) => NotShape(ShapeOf(e))
    case EAnd(_, b) => ShapeOf(b)
    case EOr(_, b) => ShapeOf(b)
    case ERel(_, _, _) => SJump
  }

  function NotShape(sh: Shape): Shape {
    match sh
    case SNil => STrue
    case SFalse => STrue
    case SJump => SJump
    case SNot => SNot
    case SLocal => SNot
    case SReg => SNot
    case _ => SFalse
  }

  predicate AlwaysTrue(sh: Shape) {
    sh.STrue? || sh.SNum? || sh.SStr?
  }

  /** Is the list of exits-when-true (when-false) of `s` non-empty? */
  predicate HasT(s: Expr) {
    match s
    case EParen(e) => HasT(e)
    case ENot(e) => HasF(e)
    case EAnd(_, b) => HasT(b)
    case EOr(a, b) => HasT(b) || HasT(a) || !(ShapeOf(a).SNil? || ShapeOf(a).SFalse?)
    case _ => false
  }

  predicate HasF(s: Expr) {
    match s
    case EParen(e) => HasF(e)
    case ENot(e) => HasT(e)
    case EAnd(a, b) => HasF(b) || HasF(a) || !AlwaysTrue(ShapeOf(a))
    case EOr(_, b) => HasF(b)
    case _ => false
  }

  /** The constant table after compiling `s`, starting from `ks`. */
  function Pool(s: Expr, ks: seq<Value>): seq<Value> {
    match s
    case EStr(str) => Pooled(ks, Str(str))
    case EGlobal(g) => Pooled(ks, Str(g))
    case EParen(e) => Pool(e, ks)
    case ENot(e) => Pool(e, ks)
    case EAnd(a, b) => Pool(b, Pool(a, ks))
    case EOr(a, b) => Pool(b, LoadPool(a, Pool(a, ks)))
    case ERel(_, a, b) => OperandPool(b, Pool(b, OperandPool(a, Pool(a, ks))))
    case _ => ks
  }

  /** ... after also loading it into a register ... */
  function LoadPool(s: Expr, ks: seq<Value>): seq<Value> {
    match ShapeOf(s)
    case SNum(n) => Pooled(ks, Num(n))
    case _ => ks
  }

  /** ... after making it the operand of a comparison. */
  function OperandPool(s: Expr, ks: seq<Value>): seq<Value> {
    if HasT(s) || HasF(s) then LoadPool(s, ks)
    else
      match ShapeOf(s)
      case SNil => if |ks| <= MAXINDEXRK then Pooled(ks, Nil) else ks
      case STrue => if |ks| <= MAXINDEXRK then Pooled(ks, Bool(true)) else ks
      case SFalse => if |ks| <= MAXINDEXRK then Pooled(ks, Bool(false)) else ks
      case _ => LoadPool(s, ks)
  }

  /** An operand that needs no instruction (a small constant or a local), so that jumps
      pending before it stay pending after it. */
  predicate Immediate(s: Expr, ks: seq<Value>) {
    !HasT(s) && !HasF(s) &&
    match ShapeOf(s)
    case SNil => |ks| <= MAXINDEXRK
    case STrue => |ks| <= MAXINDEXRK
    case SFalse => |ks| <= MAXINDEXRK
    case SNum(_) => |ks| <= MAXINDEXRK
    case SStr(str) => Str(str) in ks && IndexOf(ks, Str(str)) <= MAXINDEXRK
    case SLocal => true
    case _ => false
  }

  /** How evaluation leaves the code of an expression: at its end with value `v` (for a
      constant or local, possibly over a pending jump offering `c`), or through its list of
      exits-when-true or -when-false, offering `c`. */
  datatype Exit =
    | Fall(v: Value, c: Option<Value>)
    | ToT(c: Option<Value>)
    | ToF(c: Option<Value>)

  /** The value an exit amounts to once the expression is put into a register. */
  function Final(o: Exit): Value {
    match o
    case Fall(v, _) => v
    case ToT(c) => if c.Some? then c.value else Bool(true)
    case ToF(c) => if c.Some? then c.value else Bool(false)
  }

  /** After `luaK_goiftrue`/`luaK_goiffalse`: on to the second operand, entered with an
      offered value, or out. */
  datatype Next = Go(c: Option<Value>) | Leave(c: Option<Value>)

  function Offered(sh: Shape, v: Value): Option<Value> {
    if sh.SJump? || sh.SNot? then None else Some(v)
  }

  function AndNext(sh: Shape, o: Exit): Next {
    match o
    case ToT(c) => Go(c)
    case ToF(c) => Leave(c)
    case Fall(v, c) =>
      if AlwaysTrue(sh) then Go(c)
      else if sh.SFalse? then Leave(c)
      else if Truthy(v) then Go(None)
      else Leave(Offered(sh, v))
  }

  function OrNext(sh: Shape, o: Exit): Next {
    match o
    case ToF(c) => Go(c)
    case ToT(c) => Leave(c)
    case Fall(v, c) =>
      if sh.SNil? || sh.SFalse? then Go(c)
      else if sh.STrue? then Leave(c)
      else if Truthy(v) then Leave(Offered(sh, v))
      else Go(None)
  }

  function NotExit(o: Exit): Exit {
    match o
    case Fall(v, c) => Fall(Bool(!Truthy(v)), c)
    case ToT(_) => ToF(None)
    case ToF(_) => ToT(None)
  }

  /** What pending jumps offer after the left operand of a comparison. */
  function OperandCarry(s: Expr, ks: seq<Value>, o: Exit): Option<Value> {
    if Immediate(s, ks) && o.Fall? then o.c else None
  }

  /** How the code of `s` is left when entered with `c` offered by the pending jump it was
      entered through (None when entered directly). */
  function Outcome(s: Expr, ks: seq<Value>, w: World, env: Regs, log: Log, c: Option<Value>): (Exit, Log) {
    match s
    case ENil => (Fall(Nil, c), log)
    case ETrue => (Fall(Bool(true), c), log)
    case EFalse => (Fall(Bool(false), c), log)
    case ENum(n) => (Fall(Num(n), c), log)
    case EStr(str) => (Fall(Str(str), c), log)
    case ELocal(r) => (Fall(Get(env, r), c), log)
    case EGlobal(g) => (Fall(w.global(log, g), None), log + [Read(g)])
    case EParen(e) => Outcome(e, ks, w, env, log, c)
    case ENot(e) => var (o, l) := Outcome(e, ks, w, env, log, c); (NotExit(o), l)
    case EAnd(a, b) =>
      var (o, l) := Outcome(a, ks, w, env, log, c);
      (match AndNext(ShapeOf(a), o)
       case Go(c') => Outcome(b, Pool(a, ks), w, env, l, c')
       case Leave(c') => (ToF(c'), l))
    case EOr(a, b) =>
      var (o, l) := Outcome(a, ks, w, env, log, c);
      (match OrNext(ShapeOf(a), o)
       case Go(c') => Outcome(b, LoadPool(a, Pool(a, ks)), w, env, l, c')
       case Leave(c') => (ToT(c'), l))
    case ERel(op, a, b) =>
      var (oa, la) := Outcome(a, ks, w, env, log, c);
      var ka := Pool(a, ks);
      var (ob, lb) := Outcome(b, OperandPool(a, ka), w, env, la, OperandCarry(a, ka, oa));
      var (r, l) := Relate(op, Final(oa), Final(ob), w, lb);
      (Fall(Bool(r), None), l)
  }
}
