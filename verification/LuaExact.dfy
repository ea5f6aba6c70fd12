/** When does the generated code deliver the short-circuit value?  A static condition on
    the expression and the constant table, and the proof that it is exact. */
module LuaExact {
  import opened LuaSource
  import opened LuaMachine
  import opened LuaOutcome

  /** What is offered: nothing, a true value, or a false one. */
  datatype Class = NoValue | TrueValue | FalseValue

  function ClassOf(c: Option<Value>): Class {
    match c
    case None => NoValue
    case Some(v) => if Truthy(v) then TrueValue else FalseValue
  }

  /** A way an expression may be left, seen statically: at its end, with a true or false
      value; through an exit, possibly with a value that is not its own; or after a
      comparison of wrong operands. */
  datatype May =
    | MFall(c: Class, truth: bool)
    | MExit(truth: bool, c: Class, foreign: bool)
    | MWrong

  datatype MayNext = MGo(c: Class) | MLeave(m: May)

  predicate Spoils(m: May) {
    m.MWrong? || (m.MExit? && m.foreign)
  }

  function MayOffer(sh: Shape, truth: bool): Class {
    if sh.SJump? || sh.SNot? then NoValue else if truth then TrueValue else FalseValue
  }

  /** A constant `false` before `and` turns the jumps pending over it into exits: a value
      they offer is foreign. */
  function AndMay(sh: Shape, m: May): MayNext {
    match m
    case MWrong => MLeave(MWrong)
    case MExit(truth, c, foreign) => if truth then MGo(c) else MLeave(m)
    case MFall(c, truth) =>
      if AlwaysTrue(sh) then MGo(c)
      else if sh.SFalse? then MLeave(MExit(false, c, c != NoValue))
      else if truth then MGo(NoValue)
      else MLeave(MExit(false, MayOffer(sh, false), false))
  }

  /** The same for a constant `true` before `or`. */
  function OrMay(sh: Shape, m: May): MayNext {
    match m
    case MWrong => MLeave(MWrong)
    case MExit(truth, c, foreign) => if truth then MLeave(m) else MGo(c)
    case MFall(c, truth) =>
      if sh.SNil? || sh.SFalse? then MGo(c)
      else if sh.STrue? then MLeave(MExit(true, c, c != NoValue))
      else if truth then MLeave(MExit(true, MayOffer(sh, true), false))
      else MGo(NoValue)
  }

  function NotMay(m: May): May {
    match m
    case MFall(c, truth) => MFall(c, !truth)
    case MExit(truth, _, _) => MExit(!truth, NoValue, false)
    case MWrong => MWrong
  }

  function OperandClass(s: Expr, ks: seq<Value>, m: May): Class {
    if Immediate(s, ks) && m.MFall? then m.c else NoValue
  }

  function Locals(s: Expr): set<nat> {
    match s
    case ELocal(r) => {r}
    case EParen(e) => Locals(e)
    case ENot(e) => Locals(e)
    case EAnd(a, b) => Locals(a) + Locals(b)
    case EOr(a, b) => Locals(a) + Locals(b)
    case ERel(_, a, b) => Locals(a) + Locals(b)
    case _ => {}
  }

  function ComparedWays(ma: May, mb: May): set<May> {
    if Spoils(ma) || Spoils(mb) then {MWrong} else {MFall(NoValue, true), MFall(NoValue, false)}
  }

  /** The ways `s` may be left, entered over pending jumps of class `c`, when the locals in
      `on` are true and all others are not.  A global or a comparison may answer anything,
      each time. */
  function Ways(s: Expr, ks: seq<Value>, on: set<nat>, c: Class): set<May> {
    match s
    case ENil => {MFall(c, false)}
    case ETrue => {MFall(c, true)}
    case EFalse => {MFall(c, false)}
    case ENum(_) => {MFall(c, true)}
    case EStr(_) => {MFall(c, true)}
    case ELocal(r) => {MFall(c, r in on)}
    case EGlobal(_) => {MFall(NoValue, true), MFall(NoValue, false)}
    case EParen(e) => Ways(e, ks, on, c)
    case ENot(e) => set m | m in Ways(e, ks, on, c) :: NotMay(m)
    case EAnd(a, b) =>
      set ma, m | ma in Ways(a, ks, on, c) && m in NextWays(b, Pool(a, ks), on, AndMay(ShapeOf(a), ma)) :: m
    case EOr(a, b) =>
      set ma, m | ma in Ways(a, ks, on, c) && m in NextWays(b, LoadPool(a, Pool(a, ks)), on, OrMay(ShapeOf(a), ma)) :: m
    case ERel(_, a, b) =>
      set ma, mb, m |
        && ma in Ways(a, ks, on, c)
        && mb in Ways(b, OperandPool(a, Pool(a, ks)), on, OperandClass(a, Pool(a, ks), ma))
        && m in ComparedWays(ma, mb) :: m
  }

  function NextWays(b: Expr, ks: seq<Value>, on: set<nat>, n: MayNext): set<May> {
    match n
    case MGo(c) => Ways(b, ks, on, c)
    case MLeave(m) => {m}
  }

  /** The condition, which can be computed before anything is compiled: whichever locals are
      true, no way out of the expression is spoiled.  `c` is the class of what the jumps
      pending before the expression offer; at the start of a function nothing is pending. */
  predicate Clean(s: Expr, ks: seq<Value>, c: Class) {
    forall on | on <= Locals(s) :: forall m | m in Ways(s, ks, on, c) :: !Spoils(m)
  }

  /** No comparison in `s` can get a foreign operand. */
  predicate ComparesClean(s: Expr, ks: seq<Value>, c: Class) {
    forall on | on <= Locals(s) :: forall m | m in Ways(s, ks, on, c) :: !m.MWrong?
  }

  /** `on` are the true ones among these locals. */
  ghost predicate TrueOnes(on: set<nat>, env: Regs, locals: set<nat>) {
    forall r :: r in locals ==> (r in on <==> Truthy(Get(env, r)))
  }

  // ---------- sufficient ----------

  /** What falls through has the kind of value its shape says. */
  ghost predicate Fits(sh: Shape, v: Value) {
    match sh
    case SNil => v == Nil
    case STrue => v == Bool(true)
    case SFalse => v == Bool(false)
    case SNum(n) => v == Num(n)
    case SStr(s) => v == Str(s)
    case SJump => v.Bool?
    case SNot => v.Bool?
    case _ => true
  }

  /** `m` describes this outcome, whose correct value and log are `v` and `l'`. */
  ghost predicate Describes(m: May, sh: Shape, o: Exit, l: Log, v: Value, l': Log) {
    match m
    case MWrong => true
    case MFall(c, truth) => l == l' && o.Fall? && o.v == v && Fits(sh, v) && truth == Truthy(v) && ClassOf(o.c) == c
    case MExit(truth, c, foreign) =>
      && l == l' && truth == Truthy(v)
      && (if truth then o.ToT? else o.ToF?)
      && ClassOf(o.c) == c
      && (!foreign ==> Final(o) == v)
  }

  lemma AndTracks(sh: Shape, m: May, o: Exit, l: Log, v: Value, l': Log, shb: Shape)
    requires Describes(m, sh, o, l, v, l')
    ensures match AndMay(sh, m)
            case MGo(cl) => AndNext(sh, o).Go? && ClassOf(AndNext(sh, o).c) == cl && Truthy(v) && l == l'
            case MLeave(m') =>
              m' == MWrong ||
              (AndNext(sh, o).Leave? && !Truthy(v) && Describes(m', shb, ToF(AndNext(sh, o).c), l, v, l'))
  {
  }

  lemma OrTracks(sh: Shape, m: May, o: Exit, l: Log, v: Value, l': Log, shb: Shape)
    requires Describes(m, sh, o, l, v, l')
    ensures match OrMay(sh, m)
            case MGo(cl) => OrNext(sh, o).Go? && ClassOf(OrNext(sh, o).c) == cl && !Truthy(v) && l == l'
            case MLeave(m') =>
              m' == MWrong ||
              (OrNext(sh, o).Leave? && Truthy(v) && Describes(m', shb, ToT(OrNext(sh, o).c), l, v, l'))
  {
  }

  lemma NotTracks(sh: Shape, m: May, o: Exit, l: Log, v: Value, l': Log)
    requires Describes(m, sh, o, l, v, l')
    ensures Describes(NotMay(m), NotShape(sh), NotExit(o), l, Bool(!Truthy(v)), l')
  {
  }

  /** An unspoiled operand has its own value, and its log is the right one. */
  lemma OperandTracks(s: Expr, ks: seq<Value>, m: May, o: Exit, l: Log, v: Value, l': Log)
    requires Describes(m, ShapeOf(s), o, l, v, l') && !m.MWrong?
    ensures l == l' && ClassOf(OperandCarry(s, ks, o)) == OperandClass(s, ks, m)
    ensures !Spoils(m) ==> Final(o) == v
  {
  }

  lemma AndUnfolds(a: Expr, b: Expr, ks: seq<Value>, log: Log, c: Option<Value>, w: World, env: Regs)
    ensures var (o, l) := Outcome(a, ks, w, env, log, c);
            var n := AndNext(ShapeOf(a), o);
            Outcome(EAnd(a, b), ks, w, env, log, c) == if n.Go? then Outcome(b, Pool(a, ks), w, env, l, n.c) else (ToF(n.c), l)
    ensures Eval(EAnd(a, b), w, env, log)
         == if Truthy(Eval(a, w, env, log).0) then Eval(b, w, env, Eval(a, w, env, log).1) else Eval(a, w, env, log)
    ensures ShapeOf(EAnd(a, b)) == ShapeOf(b)
  {
    hide AndNext, Pool, LoadPool, Truthy;
  }

  lemma OrUnfolds(a: Expr, b: Expr, ks: seq<Value>, log: Log, c: Option<Value>, w: World, env: Regs)
    ensures var (o, l) := Outcome(a, ks, w, env, log, c);
            var n := OrNext(ShapeOf(a), o);
            Outcome(EOr(a, b), ks, w, env, log, c) == if n.Go? then Outcome(b, LoadPool(a, Pool(a, ks)), w, env, l, n.c) else (ToT(n.c), l)
    ensures Eval(EOr(a, b), w, env, log)
         == if !Truthy(Eval(a, w, env, log).0) then Eval(b, w, env, Eval(a, w, env, log).1) else Eval(a, w, env, log)
    ensures ShapeOf(EOr(a, b)) == ShapeOf(b)
  {
    hide OrNext, Pool, LoadPool, Truthy;
  }

  lemma AndWay(a: Expr, b: Expr, ks: seq<Value>, on: set<nat>, c: Class, ma: May, m: May)
    requires ma in Ways(a, ks, on, c) && m in NextWays(b, Pool(a, ks), on, AndMay(ShapeOf(a), ma))
    ensures m in Ways(EAnd(a, b), ks, on, c)
  {
  }

  lemma OrWay(a: Expr, b: Expr, ks: seq<Value>, on: set<nat>, c: Class, ma: May, m: May)
    requires ma in Ways(a, ks, on, c) && m in NextWays(b, LoadPool(a, Pool(a, ks)), on, OrMay(ShapeOf(a), ma))
    ensures m in Ways(EOr(a, b), ks, on, c)
  {
  }

  /** Every way out of a whole comes from a way out of its first operand. */
  lemma AndWayOf(a: Expr, b: Expr, ks: seq<Value>, on: set<nat>, c: Class, m: May) returns (ma: May)
    requires m in Ways(EAnd(a, b), ks, on, c)
    ensures ma in Ways(a, ks, on, c)
    ensures var n := AndMay(ShapeOf(a), ma); if n.MGo? then m in Ways(b, Pool(a, ks), on, n.c) else m == n.m
  {
    hide AndMay, Pool, LoadPool;
    ma :| ma in Ways(a, ks, on, c) && m in NextWays(b, Pool(a, ks), on, AndMay(ShapeOf(a), ma));
  }

  lemma OrWayOf(a: Expr, b: Expr, ks: seq<Value>, on: set<nat>, c: Class, m: May) returns (ma: May)
    requires m in Ways(EOr(a, b), ks, on, c)
    ensures ma in Ways(a, ks, on, c)
    ensures var n := OrMay(ShapeOf(a), ma); if n.MGo? then m in Ways(b, LoadPool(a, Pool(a, ks)), on, n.c) else m == n.m
  {
    hide OrMay, Pool, LoadPool;
    ma :| ma in Ways(a, ks, on, c) && m in NextWays(b, LoadPool(a, Pool(a, ks)), on, OrMay(ShapeOf(a), ma));
  }

  /** Every run is one of the ways the static account allows. */
  lemma {:induction false} Track(s: Expr, ks: seq<Value>, on: set<nat>, w: World, env: Regs, log: Log, c: Option<Value>) returns (m: May)
    requires TrueOnes(on, env, Locals(s))
    ensures m in Ways(s, ks, on, ClassOf(c))
    ensures var (o, l) := Outcome(s, ks, w, env, log, c);
            var (v, l') := Eval(s, w, env, log);
            Describes(m, ShapeOf(s), o, l, v, l')
    decreases s
  {
    match s
    case ENil => m := MFall(ClassOf(c), false);
    case ETrue => m := MFall(ClassOf(c), true);
    case EFalse => m := MFall(ClassOf(c), false);
    case ENum(_) => m := MFall(ClassOf(c), true);
    case EStr(_) => m := MFall(ClassOf(c), true);
    case ELocal(r) => m := MFall(ClassOf(c), Truthy(Get(env, r)));
    case EGlobal(g) => m := MFall(NoValue, Truthy(w.global(log, g)));
    case EParen(e) => m := Track(e, ks, on, w, env, log, c);
    case ENot(e) =>
      hide Describes;
      var me := Track(e, ks, on, w, env, log, c);
      var (o, l) := Outcome(e, ks, w, env, log, c);
      var (v, l') := Eval(e, w, env, log);
      NotTracks(ShapeOf(e), me, o, l, v, l');
      m := NotMay(me);
    case EAnd(a, b) => m := TrackAnd(a, b, ks, on, w, env, log, c);
    case EOr(a, b) => m := TrackOr(a, b, ks, on, w, env, log, c);
    case ERel(op, a, b) => m := TrackRel(op, a, b, ks, on, w, env, log, c);
  }

  lemma {:induction false} TrackAnd(a: Expr, b: Expr, ks: seq<Value>, on: set<nat>, w: World, env: Regs, log: Log, c: Option<Value>) returns (m: May)
    requires TrueOnes(on, env, Locals(EAnd(a, b)))
    ensures m in Ways(EAnd(a, b), ks, on, ClassOf(c))
    ensures var (o, l) := Outcome(EAnd(a, b), ks, w, env, log, c);
            var (v, l') := Eval(EAnd(a, b), w, env, log);
            Describes(m, ShapeOf(b), o, l, v, l')
    decreases EAnd(a, b), 0
  {
    hide Ways, Outcome, Eval, AndMay, AndNext, Fits, Pool, LoadPool;
    var ma := Track(a, ks, on, w, env, log, c);
    var (o, l) := Outcome(a, ks, w, env, log, c);
    var (v, l') := Eval(a, w, env, log);
    AndUnfolds(a, b, ks, log, c, w, env);
    AndTracks(ShapeOf(a), ma, o, l, v, l', ShapeOf(b));
    var n := AndMay(ShapeOf(a), ma);
    if n.MLeave? {
      m := n.m;
    } else {
      m := Track(b, Pool(a, ks), on, w, env, l, AndNext(ShapeOf(a), o).c);
    }
    AndWay(a, b, ks, on, ClassOf(c), ma, m);
  }

  lemma {:induction false} TrackOr(a: Expr, b: Expr, ks: seq<Value>, on: set<nat>, w: World, env: Regs, log: Log, c: Option<Value>) returns (m: May)
    requires TrueOnes(on, env, Locals(EOr(a, b)))
    ensures m in Ways(EOr(a, b), ks, on, ClassOf(c))
    ensures var (o, l) := Outcome(EOr(a, b), ks, w, env, log, c);
            var (v, l') := Eval(EOr(a, b), w, env, log);
            Describes(m, ShapeOf(b), o, l, v, l')
    decreases EOr(a, b), 0
  {
    hide Ways, Outcome, Eval, OrMay, OrNext, Fits, Pool, LoadPool;
    var ma := Track(a, ks, on, w, env, log, c);
    var (o, l) := Outcome(a, ks, w, env, log, c);
    var (v, l') := Eval(a, w, env, log);
    OrUnfolds(a, b, ks, log, c, w, env);
    OrTracks(ShapeOf(a), ma, o, l, v, l', ShapeOf(b));
    var n := OrMay(ShapeOf(a), ma);
    if n.MLeave? {
      m := n.m;
    } else {
      m := Track(b, LoadPool(a, Pool(a, ks)), on, w, env, l, OrNext(ShapeOf(a), o).c);
    }
    OrWay(a, b, ks, on, ClassOf(c), ma, m);
  }

  lemma {:induction false} TrackRel(op: RelOp, a: Expr, b: Expr, ks: seq<Value>, on: set<nat>, w: World, env: Regs, log: Log, c: Option<Value>) returns (m: May)
    requires TrueOnes(on, env, Locals(ERel(op, a, b)))
    ensures m in Ways(ERel(op, a, b), ks, on, ClassOf(c))
    ensures var (o, l) := Outcome(ERel(op, a, b), ks, w, env, log, c);
            var (v, l') := Eval(ERel(op, a, b), w, env, log);
            Describes(m, SJump, o, l, v, l')
    decreases ERel(op, a, b), 0
  {
    hide Ways, Immediate, Pool, OperandPool, Outcome, Eval, Relate;
    var ma := Track(a, ks, on, w, env, log, c);
    var (oa, la) := Outcome(a, ks, w, env, log, c);
    var (va, la') := Eval(a, w, env, log);
    var ka := Pool(a, ks);
    if ma.MWrong? {
      var mb := SomeWay(b, OperandPool(a, ka), on, OperandClass(a, ka, ma));
      RelWay(op, a, b, ks, on, ClassOf(c), ma, mb, MWrong);
      return MWrong;
    }
    OperandTracks(a, ka, ma, oa, la, va, la');
    var cb := OperandCarry(a, ka, oa);
    var mb := Track(b, OperandPool(a, ka), on, w, env, la, cb);
    if Spoils(ma) || Spoils(mb) {
      RelWay(op, a, b, ks, on, ClassOf(c), ma, mb, MWrong);
      return MWrong;
    }
    var (ob, lb) := Outcome(b, OperandPool(a, ka), w, env, la, cb);
    var (vb, lb') := Eval(b, w, env, la);
    OperandTracks(b, ka, mb, ob, lb, vb, lb');
    m := MFall(NoValue, Relate(op, va, vb, w, lb).0);
    RelDescribes(op, a, b, ks, w, env, log, c);
    RelWay(op, a, b, ks, on, ClassOf(c), ma, mb, m);
  }

  /** Right operands in the right order give the right comparison. */
  lemma RelDescribes(op: RelOp, a: Expr, b: Expr, ks: seq<Value>, w: World, env: Regs, log: Log, c: Option<Value>)
    requires var (oa, la) := Outcome(a, ks, w, env, log, c);
             var (va, la') := Eval(a, w, env, log);
             var (ob, lb) := Outcome(b, OperandPool(a, Pool(a, ks)), w, env, la, OperandCarry(a, Pool(a, ks), oa));
             var (vb, lb') := Eval(b, w, env, la);
             la == la' && lb == lb' && Final(oa) == va && Final(ob) == vb
    ensures var (va, la) := Eval(a, w, env, log);
            var (vb, lb) := Eval(b, w, env, la);
            var (o, l) := Outcome(ERel(op, a, b), ks, w, env, log, c);
            var (v, l') := Eval(ERel(op, a, b), w, env, log);
            Describes(MFall(NoValue, Relate(op, va, vb, w, lb).0), SJump, o, l, v, l')
  {
  }

  lemma RelWay(op: RelOp, a: Expr, b: Expr, ks: seq<Value>, on: set<nat>, c: Class, ma: May, mb: May, m: May)
    requires ma in Ways(a, ks, on, c)
    requires mb in Ways(b, OperandPool(a, Pool(a, ks)), on, OperandClass(a, Pool(a, ks), ma))
    requires m in ComparedWays(ma, mb)
    ensures m in Ways(ERel(op, a, b), ks, on, c)
  {
  }

  /** Whenever the condition holds the code delivers the short-circuit value, after the
      same events, in every world. */
  lemma CleanIsRight(s: Expr, ks: seq<Value>, w: World, env: Regs, log: Log, c: Option<Value>)
    requires Clean(s, ks, ClassOf(c))
    ensures var (o, l) := Outcome(s, ks, w, env, log, c);
            (Final(o), l) == Eval(s, w, env, log)
  {
    hide Ways, Outcome, Eval;
    var on := set r | r in Locals(s) && Truthy(Get(env, r));
    var m := Track(s, ks, on, w, env, log, c);
  }

  /** Whenever no comparison can get a foreign operand the events are the right ones. */
  lemma ComparesCleanIsRight(s: Expr, ks: seq<Value>, w: World, env: Regs, log: Log, c: Option<Value>)
    requires ComparesClean(s, ks, ClassOf(c))
    ensures Outcome(s, ks, w, env, log, c).1 == Eval(s, w, env, log).1
  {
    hide Ways, Outcome, Eval;
    var on := set r | r in Locals(s) && Truthy(Get(env, r));
    var m := Track(s, ks, on, w, env, log, c);
  }

  /** Every expression can be left in some way. */
  lemma {:induction false} SomeWay(s: Expr, ks: seq<Value>, on: set<nat>, c: Class) returns (m: May)
    ensures m in Ways(s, ks, on, c)
    decreases s
  {
    match s
    case ENil => m := MFall(c, false);
    case EFalse => m := MFall(c, false);
    case ELocal(r) => m := MFall(c, r in on);
    case EGlobal(_) => m := MFall(NoValue, true);
    case EParen(e) => m := SomeWay(e, ks, on, c);
    case ENot(e) =>
      var me := SomeWay(e, ks, on, c);
      m := NotMay(me);
    case EAnd(a, b) =>
      var ma := SomeWay(a, ks, on, c);
      match AndMay(ShapeOf(a), ma) {
        case MLeave(m') => m := m';
        case MGo(c') => m := SomeWay(b, Pool(a, ks), on, c');
      }
      assert m in NextWays(b, Pool(a, ks), on, AndMay(ShapeOf(a), ma));
    case EOr(a, b) =>
      var ma := SomeWay(a, ks, on, c);
      match OrMay(ShapeOf(a), ma) {
        case MLeave(m') => m := m';
        case MGo(c') => m := SomeWay(b, LoadPool(a, Pool(a, ks)), on, c');
      }
      assert m in NextWays(b, LoadPool(a, Pool(a, ks)), on, OrMay(ShapeOf(a), ma));
    case ERel(_, a, b) =>
      var ma := SomeWay(a, ks, on, c);
      var mb := SomeWay(b, OperandPool(a, Pool(a, ks)), on, OperandClass(a, Pool(a, ks), ma));
      m := if Spoils(ma) || Spoils(mb) then MWrong else MFall(NoValue, true);
      RelWay(s.op, a, b, ks, on, c, ma, mb, m);
    case _ => m := MFall(c, true);
  }
}
