/** The condition is necessary: an expression that is not clean goes wrong in some world. */
module LuaNecessary {
  import opened LuaSource
  import opened LuaMachine
  import opened LuaOutcome
  import opened LuaExact

  predicate Yes(t: seq<bool>, n: nat) {
    n < |t| && t[n]
  }

  /** A world that answers the n-th question by the n-th entry of a tape: a global is then a
      new object or nil.  With `law` it is only asked what the language does not decide. */
  function Tape(law: bool, t: seq<bool>): World {
    World((log, g) => if Yes(t, |log|) then Ref(|log|) else Nil,
          (log, op, a, b) =>
            if law && Decided(op, a, b) then Decision(op, a, b)
            else if law && a.Str? then op == CmpLe
            else Yes(t, |log|))
  }

  lemma TapeIsLawful(t: seq<bool>)
    ensures Lawful(Tape(true, t))
  {
  }

  /** A read of a global, possibly in parentheses. */
  predicate Bare(s: Expr) {
    match s
    case EGlobal(_) => true
    case EParen(e) => Bare(e)
    case _ => false
  }

  /** Every comparison, if there is any, compares two globals. */
  predicate ComparesGlobals(s: Expr) {
    match s
    case EParen(e) => ComparesGlobals(e)
    case ENot(e) => ComparesGlobals(e)
    case EAnd(a, b) => ComparesGlobals(a) && ComparesGlobals(b)
    case EOr(a, b) => ComparesGlobals(a) && ComparesGlobals(b)
    case ERel(_, a, b) => Bare(a) && Bare(b)
    case _ => true
  }

  /** Locals that are true exactly when they are in `on`. */
  function LocalsOf(on: set<nat>): Regs {
    map r | r in on :: Num(1.0)
  }

  /** Two logs that differ at a position both have. */
  ghost predicate Diverge(l: Log, l': Log) {
    exists i :: 0 <= i < |l| && i < |l'| && l[i] != l'[i]
  }

  lemma DivergeOn(l: Log, l': Log, m: Log, m': Log)
    requires Diverge(l, l') && l <= m && l' <= m'
    ensures Diverge(m, m')
  {
    var i :| 0 <= i < |l| && i < |l'| && l[i] != l'[i];
    assert m[i] == l[i] && m'[i] == l'[i];
  }

  lemma {:induction false} EvalGrows(s: Expr, w: World, env: Regs, log: Log)
    ensures log <= Eval(s, w, env, log).1
    decreases s
  {
    match s
    case EParen(e) => EvalGrows(e, w, env, log);
    case ENot(e) => EvalGrows(e, w, env, log);
    case EAnd(a, b) => EvalGrows(a, w, env, log); EvalGrows(b, w, env, Eval(a, w, env, log).1);
    case EOr(a, b) => EvalGrows(a, w, env, log); EvalGrows(b, w, env, Eval(a, w, env, log).1);
    case ERel(_, a, b) => EvalGrows(a, w, env, log); EvalGrows(b, w, env, Eval(a, w, env, log).1);
    case _ =>
  }

  lemma {:induction false} OutcomeGrows(s: Expr, ks: seq<Value>, w: World, env: Regs, log: Log, c: Option<Value>)
    ensures log <= Outcome(s, ks, w, env, log, c).1
    decreases s
  {
    match s
    case EParen(e) => OutcomeGrows(e, ks, w, env, log, c);
    case ENot(e) => OutcomeGrows(e, ks, w, env, log, c);
    case EAnd(a, b) =>
      OutcomeGrows(a, ks, w, env, log, c);
      var (o, l) := Outcome(a, ks, w, env, log, c);
      OutcomeGrows(b, Pool(a, ks), w, env, l, AndNext(ShapeOf(a), o).c);
    case EOr(a, b) =>
      OutcomeGrows(a, ks, w, env, log, c);
      var (o, l) := Outcome(a, ks, w, env, log, c);
      OutcomeGrows(b, LoadPool(a, Pool(a, ks)), w, env, l, OrNext(ShapeOf(a), o).c);
    case ERel(_, a, b) =>
      OutcomeGrows(a, ks, w, env, log, c);
      var (o, l) := Outcome(a, ks, w, env, log, c);
      OutcomeGrows(b, OperandPool(a, Pool(a, ks)), w, env, l, OperandCarry(a, Pool(a, ks), o));
    case _ =>
  }

  /** Answers that lead to one particular way out, and what comes out there. */
  datatype Case = Case(t: seq<bool>, o: Exit, l: Log, v: Value)

  predicate NotBool(c: Option<Value>) {
    c.Some? ==> !c.value.Bool?
  }

  /** In world `w` the expression is left as `m`, with wrong values that really differ. */
  ghost predicate Shows(s: Expr, ks: seq<Value>, log: Log, c: Option<Value>, m: May, f: Case, w: World, env: Regs) {
    var (o, l) := Outcome(s, ks, w, env, log, c);
    var (v, l') := Eval(s, w, env, log);
    if m.MWrong? then Diverge(l, l')
    else
      && (o, l) == (f.o, f.l) && (v, l') == (f.v, f.l)
      && Describes(m, ShapeOf(s), o, l, v, l')
      && NotBool(o.c)
      && (m.MFall? && (ShapeOf(s).SLocal? || ShapeOf(s).SReg?) ==> !v.Bool?)
      && (m.MExit? && m.foreign ==> Final(o) != v)
  }

  /** Whatever is answered after the tape of `f`. */
  ghost predicate Realizes(law: bool, s: Expr, ks: seq<Value>, env: Regs, log: Log, c: Option<Value>, m: May, f: Case) {
    && (!m.MWrong? ==> |f.t| == |f.l|)
    && forall t :: f.t <= t ==> Shows(s, ks, log, c, m, f, Tape(law, t), env)
  }

  // ---------- and, or ----------

  lemma AndLeaves(a: Expr, b: Expr, ks: seq<Value>, log: Log, c: Option<Value>, ma: May, m: May, fa: Case, f: Case, w: World, env: Regs)
    requires Shows(a, ks, log, c, ma, fa, w, env) && AndMay(ShapeOf(a), ma) == MLeave(m)
    requires !m.MWrong? ==> AndNext(ShapeOf(a), fa.o).Leave? && f == fa.(o := ToF(AndNext(ShapeOf(a), fa.o).c))
    ensures Shows(EAnd(a, b), ks, log, c, m, f, w, env)
  {
    hide Outcome, Eval, Diverge, Pool, LoadPool;
    if m.MWrong? {
      Continue(EAnd(a, b), ks, log, c, w, env);
    } else {
      AndUnfolds(a, b, ks, log, c, w, env);
    }
  }

  lemma OrLeaves(a: Expr, b: Expr, ks: seq<Value>, log: Log, c: Option<Value>, ma: May, m: May, fa: Case, f: Case, w: World, env: Regs)
    requires Shows(a, ks, log, c, ma, fa, w, env) && OrMay(ShapeOf(a), ma) == MLeave(m)
    requires !m.MWrong? ==> OrNext(ShapeOf(a), fa.o).Leave? && f == fa.(o := ToT(OrNext(ShapeOf(a), fa.o).c))
    ensures Shows(EOr(a, b), ks, log, c, m, f, w, env)
  {
    hide Outcome, Eval, Diverge, Pool, LoadPool;
    if m.MWrong? {
      Continue(EOr(a, b), ks, log, c, w, env);
    } else {
      OrUnfolds(a, b, ks, log, c, w, env);
    }
  }

  /** Logs that diverged in the first operand still do after the whole expression. */
  lemma Continue(s: Expr, ks: seq<Value>, log: Log, c: Option<Value>, w: World, env: Regs)
    requires s.EAnd? || s.EOr? || s.ERel?
    requires Diverge(Outcome(s.a, ks, w, env, log, c).1, Eval(s.a, w, env, log).1)
    ensures Diverge(Outcome(s, ks, w, env, log, c).1, Eval(s, w, env, log).1)
  {
    var (o, l) := Outcome(s.a, ks, w, env, log, c);
    var (v, l') := Eval(s.a, w, env, log);
    var ka := Pool(s.a, ks);
    OutcomeGrows(s.b, ka, w, env, l, AndNext(ShapeOf(s.a), o).c);
    OutcomeGrows(s.b, LoadPool(s.a, ka), w, env, l, OrNext(ShapeOf(s.a), o).c);
    OutcomeGrows(s.b, OperandPool(s.a, ka), w, env, l, OperandCarry(s.a, ka, o));
    EvalGrows(s.b, w, env, l');
    DivergeOn(l, l', Outcome(s, ks, w, env, log, c).1, Eval(s, w, env, log).1);
  }

  /** What the first operand hands on is fixed by its case. */
  lemma AndHands(a: Expr, ks: seq<Value>, log: Log, c: Option<Value>, ma: May, fa: Case, w: World, env: Regs)
    requires Shows(a, ks, log, c, ma, fa, w, env) && !ma.MWrong?
    ensures var n := AndNext(ShapeOf(a), fa.o);
            match AndMay(ShapeOf(a), ma)
            case MGo(cl) => n.Go? && ClassOf(n.c) == cl && NotBool(n.c) && Truthy(fa.v)
            case MLeave(m) => n.Leave? && NotBool(n.c) && !Truthy(fa.v)
  {
  }

  lemma OrHands(a: Expr, ks: seq<Value>, log: Log, c: Option<Value>, ma: May, fa: Case, w: World, env: Regs)
    requires Shows(a, ks, log, c, ma, fa, w, env) && !ma.MWrong?
    ensures var n := OrNext(ShapeOf(a), fa.o);
            match OrMay(ShapeOf(a), ma)
            case MGo(cl) => n.Go? && ClassOf(n.c) == cl && NotBool(n.c) && !Truthy(fa.v)
            case MLeave(m) => n.Leave? && NotBool(n.c) && Truthy(fa.v)
  {
  }

  lemma AndGoes(a: Expr, b: Expr, ks: seq<Value>, log: Log, c: Option<Value>, ma: May, m: May, fa: Case, f: Case, w: World, env: Regs)
    requires Shows(a, ks, log, c, ma, fa, w, env) && AndMay(ShapeOf(a), ma).MGo?
    requires Shows(b, Pool(a, ks), fa.l, AndNext(ShapeOf(a), fa.o).c, m, f, w, env)
    ensures Shows(EAnd(a, b), ks, log, c, m, f, w, env)
  {
    hide Outcome, Eval, Diverge, Pool, Describes, AndNext;
    AndUnfolds(a, b, ks, log, c, w, env);
    AndHands(a, ks, log, c, ma, fa, w, env);
  }

  lemma OrGoes(a: Expr, b: Expr, ks: seq<Value>, log: Log, c: Option<Value>, ma: May, m: May, fa: Case, f: Case, w: World, env: Regs)
    requires Shows(a, ks, log, c, ma, fa, w, env) && OrMay(ShapeOf(a), ma).MGo?
    requires Shows(b, LoadPool(a, Pool(a, ks)), fa.l, OrNext(ShapeOf(a), fa.o).c, m, f, w, env)
    ensures Shows(EOr(a, b), ks, log, c, m, f, w, env)
  {
    hide Outcome, Eval, Diverge, Pool, LoadPool, Describes, OrNext;
    OrUnfolds(a, b, ks, log, c, w, env);
    OrHands(a, ks, log, c, ma, fa, w, env);
  }

  // ---------- comparisons ----------

  lemma RelSpoiled(op: RelOp, a: Expr, b: Expr, ks: seq<Value>, log: Log, c: Option<Value>, ma: May, mb: May, fa: Case, fb: Case, f: Case, w: World, env: Regs)
    requires Shows(a, ks, log, c, ma, fa, w, env) && !ma.MWrong?
    requires Shows(b, OperandPool(a, Pool(a, ks)), fa.l, OperandCarry(a, Pool(a, ks), fa.o), mb, fb, w, env)
    requires Spoils(ma) || Spoils(mb)
    ensures Shows(ERel(op, a, b), ks, log, c, MWrong, f, w, env)
  {
    var ka := Pool(a, ks);
    var (ob, lb) := Outcome(b, OperandPool(a, ka), w, env, fa.l, OperandCarry(a, ka, fa.o));
    var (vb, lb') := Eval(b, w, env, fa.l);
    var (o, l) := Outcome(ERel(op, a, b), ks, w, env, log, c);
    var (v, l') := Eval(ERel(op, a, b), w, env, log);
    assert l == Relate(op, Final(fa.o), Final(ob), w, lb).1 && l' == Relate(op, fa.v, vb, w, lb').1;
    if mb.MWrong? {
      DivergeOn(lb, lb', l, l');
    } else {
      OperandTracks(a, ka, ma, fa.o, fa.l, fa.v, fa.l);
      OperandTracks(b, ka, mb, ob, lb, vb, lb');
      assert l[|lb|] != l'[|lb|];
    }
  }

  /** The answer that makes the relation come out as wanted. */
  function AnswerFor(op: RelOp, truth: bool): bool {
    if op == OpNe then !truth else truth
  }

  /** An unspoiled operand yields its own value. */
  lemma OwnValue(s: Expr, ks: seq<Value>, log: Log, c: Option<Value>, m: May, f: Case, w: World, env: Regs)
    requires Shows(s, ks, log, c, m, f, w, env) && !Spoils(m)
    ensures Outcome(s, ks, w, env, log, c) == (f.o, f.l) && Eval(s, w, env, log) == (f.v, f.l) && Final(f.o) == f.v
  {
    OperandTracks(s, ks, m, f.o, f.l, f.v, f.l);
  }

  lemma RelShows(law: bool, op: RelOp, a: Expr, b: Expr, ks: seq<Value>, log: Log, c: Option<Value>, ma: May, mb: May, truth: bool, fa: Case, fb: Case, f: Case, t: seq<bool>, env: Regs)
    requires Shows(a, ks, log, c, ma, fa, Tape(law, t), env)
    requires Shows(b, OperandPool(a, Pool(a, ks)), fa.l, OperandCarry(a, Pool(a, ks), fa.o), mb, fb, Tape(law, t), env)
    requires !Spoils(ma) && !Spoils(mb)
    requires |fb.l| < |t| && t[|fb.l|] == AnswerFor(op, truth)
    requires law ==> fa.v.Ref? && fb.v.Ref? && fa.v != fb.v
    requires f.o == Fall(Bool(truth), None) && f.v == Bool(truth) && f.l == Relate(op, fa.v, fb.v, Tape(law, t), fb.l).1
    ensures Shows(ERel(op, a, b), ks, log, c, MFall(NoValue, truth), f, Tape(law, t), env)
  {
    hide Shows, Outcome, Eval;
    OwnValue(a, ks, log, c, ma, fa, Tape(law, t), env);
    OwnValue(b, OperandPool(a, Pool(a, ks)), fa.l, OperandCarry(a, Pool(a, ks), fa.o), mb, fb, Tape(law, t), env);
    TapeRelates(law, op, fa.v, fb.v, t, fb.l, truth);
    RelComputes(law, op, a, b, ks, log, c, fa, fb, f, t, env, truth);
  }

  lemma TapeRelates(law: bool, op: RelOp, a: Value, b: Value, t: seq<bool>, log: Log, truth: bool)
    requires |log| < |t| && t[|log|] == AnswerFor(op, truth)
    requires law ==> a.Ref? && b.Ref? && a != b
    ensures Relate(op, a, b, Tape(law, t), log).0 == truth
  {
  }

  lemma RelComputes(law: bool, op: RelOp, a: Expr, b: Expr, ks: seq<Value>, log: Log, c: Option<Value>, fa: Case, fb: Case, f: Case, t: seq<bool>, env: Regs, truth: bool)
    requires Outcome(a, ks, Tape(law, t), env, log, c) == (fa.o, fa.l) && Eval(a, Tape(law, t), env, log) == (fa.v, fa.l)
    requires Outcome(b, OperandPool(a, Pool(a, ks)), Tape(law, t), env, fa.l, OperandCarry(a, Pool(a, ks), fa.o)) == (fb.o, fb.l)
    requires Eval(b, Tape(law, t), env, fa.l) == (fb.v, fb.l) && Final(fa.o) == fa.v && Final(fb.o) == fb.v
    requires Relate(op, fa.v, fb.v, Tape(law, t), fb.l) == (truth, f.l)
    requires f.o == Fall(Bool(truth), None) && f.v == Bool(truth)
    ensures Shows(ERel(op, a, b), ks, log, c, MFall(NoValue, truth), f, Tape(law, t), env)
  {
    hide Relate, Pool, OperandPool, OperandCarry, Immediate, Tape, Diverge;
  }

  // ---------- every way out is realized ----------

  /** The locals of `s` are true exactly when they are in `on`, and none is a boolean, so that
      it differs from a constant it may be delivered for. */
  ghost predicate Sees(env: Regs, on: set<nat>, s: Expr) {
    forall r :: r in Locals(s) ==> (r in on <==> Truthy(Get(env, r))) && !Get(env, r).Bool?
  }

  lemma RealizeLeaf(law: bool, s: Expr, ks: seq<Value>, on: set<nat>, env: Regs, m: May, t0: seq<bool>, log: Log, c: Option<Value>) returns (f: Case)
    requires !s.EParen? && !s.ENot? && !s.EAnd? && !s.EOr? && !s.ERel?
    requires m in Ways(s, ks, on, ClassOf(c)) && NotBool(c) && |t0| == |log| && Sees(env, on, s)
    requires law ==> ComparesGlobals(s)
    ensures t0 <= f.t && Realizes(law, s, ks, env, log, c, m, f)
  {
    hide Shows, Ways, Outcome, Eval, Tape;
    if s.EGlobal? {
      f := RealizeGlobal(law, s, ks, on, env, m, t0, log, c);
    } else {
      var w := Tape(law, t0);
      var (o, l) := Outcome(s, ks, w, env, log, c);
      f := Case(t0, o, l, Eval(s, w, env, log).0);
      forall t | f.t <= t
        ensures Shows(s, ks, log, c, m, f, Tape(law, t), env)
      {
        LeafShows(s, ks, on, env, m, log, c, f, w, Tape(law, t));
      }
      LeafShows(s, ks, on, env, m, log, c, f, w, w);
      LeafLog(s, ks, w, env, log, c);
    }
  }

  predicate Simple(s: Expr) {
    !s.EGlobal? && !s.EParen? && !s.ENot? && !s.EAnd? && !s.EOr? && !s.ERel?
  }

  /** Constants and locals are the same in every world. */
  lemma LeafShows(s: Expr, ks: seq<Value>, on: set<nat>, env: Regs, m: May, log: Log, c: Option<Value>, f: Case, w: World, w': World)
    requires Simple(s) && m in Ways(s, ks, on, ClassOf(c)) && NotBool(c) && Sees(env, on, s)
    requires (f.o, f.l) == Outcome(s, ks, w, env, log, c) && f.v == Eval(s, w, env, log).0
    ensures Shows(s, ks, log, c, m, f, w', env)
  {
  }

  lemma LeafLog(s: Expr, ks: seq<Value>, w: World, env: Regs, log: Log, c: Option<Value>)
    requires Simple(s)
    ensures Outcome(s, ks, w, env, log, c).1 == log
  {
  }

  lemma RealizeGlobal(law: bool, s: Expr, ks: seq<Value>, on: set<nat>, env: Regs, m: May, t0: seq<bool>, log: Log, c: Option<Value>) returns (f: Case)
    requires s.EGlobal? && m in Ways(s, ks, on, ClassOf(c)) && |t0| == |log|
    ensures t0 <= f.t && Realizes(law, s, ks, env, log, c, m, f)
  {
    var w := Tape(law, t0 + [m.truth]);
    var (o, l) := Outcome(s, ks, w, env, log, c);
    f := Case(t0 + [m.truth], o, l, Eval(s, w, env, log).0);
    forall t | f.t <= t
      ensures Shows(s, ks, log, c, m, f, Tape(law, t), env)
    {
      assert t[|t0|] == f.t[|t0|];
    }
  }

  lemma {:induction false} Realize(law: bool, s: Expr, ks: seq<Value>, on: set<nat>, env: Regs, m: May, t0: seq<bool>, log: Log, c: Option<Value>) returns (f: Case)
    requires m in Ways(s, ks, on, ClassOf(c)) && NotBool(c) && |t0| == |log| && Sees(env, on, s)
    requires law ==> ComparesGlobals(s)
    ensures t0 <= f.t && Realizes(law, s, ks, env, log, c, m, f)
    decreases s
  {
    hide Shows, Outcome, Eval;
    match s
    case EParen(e) =>
      f := Realize(law, e, ks, on, env, m, t0, log, c);
      ParenRealized(law, e, ks, env, log, c, m, f);
    case ENot(e) =>
      var me :| me in Ways(e, ks, on, ClassOf(c)) && m == NotMay(me);
      var fe := Realize(law, e, ks, on, env, me, t0, log, c);
      f := fe.(o := NotExit(fe.o), v := Bool(!Truthy(fe.v)));
      NotRealized(law, e, ks, env, log, c, me, fe);
    case EAnd(a, b) => f := RealizeAnd(law, a, b, ks, on, env, m, t0, log, c);
    case EOr(a, b) => f := RealizeOr(law, a, b, ks, on, env, m, t0, log, c);
    case ERel(op, a, b) => f := RealizeRel(law, op, a, b, ks, on, env, m, t0, log, c);
    case _ => f := RealizeLeaf(law, s, ks, on, env, m, t0, log, c);
  }

  lemma ParenRealized(law: bool, e: Expr, ks: seq<Value>, env: Regs, log: Log, c: Option<Value>, m: May, f: Case)
    requires Realizes(law, e, ks, env, log, c, m, f)
    ensures Realizes(law, EParen(e), ks, env, log, c, m, f)
  {
    forall t | f.t <= t
      ensures Shows(EParen(e), ks, log, c, m, f, Tape(law, t), env)
    {
      assert Shows(e, ks, log, c, m, f, Tape(law, t), env);
    }
  }

  lemma NotRealized(law: bool, e: Expr, ks: seq<Value>, env: Regs, log: Log, c: Option<Value>, m: May, f: Case)
    requires Realizes(law, e, ks, env, log, c, m, f)
    ensures Realizes(law, ENot(e), ks, env, log, c, NotMay(m), f.(o := NotExit(f.o), v := Bool(!Truthy(f.v))))
  {
    hide Shows, Tape;
    var f' := f.(o := NotExit(f.o), v := Bool(!Truthy(f.v)));
    forall t | f'.t <= t
      ensures Shows(ENot(e), ks, log, c, NotMay(m), f', Tape(law, t), env)
    {
      NotShows(e, ks, log, c, m, f, Tape(law, t), env);
    }
  }

  lemma NotShows(e: Expr, ks: seq<Value>, log: Log, c: Option<Value>, m: May, f: Case, w: World, env: Regs)
    requires Shows(e, ks, log, c, m, f, w, env)
    ensures Shows(ENot(e), ks, log, c, NotMay(m), f.(o := NotExit(f.o), v := Bool(!Truthy(f.v))), w, env)
  {
    if !m.MWrong? { NotTracks(ShapeOf(e), m, f.o, f.l, f.v, f.l); }
  }

  lemma SeesParts(env: Regs, on: set<nat>, s: Expr, a: Expr, b: Expr)
    requires Sees(env, on, s) && (s == EAnd(a, b) || s == EOr(a, b))
    ensures Sees(env, on, a) && Sees(env, on, b)
  {
  }

  lemma {:induction false} RealizeAnd(law: bool, a: Expr, b: Expr, ks: seq<Value>, on: set<nat>, env: Regs, m: May, t0: seq<bool>, log: Log, c: Option<Value>) returns (f: Case)
    requires m in Ways(EAnd(a, b), ks, on, ClassOf(c)) && NotBool(c) && |t0| == |log| && Sees(env, on, EAnd(a, b))
    requires law ==> ComparesGlobals(EAnd(a, b))
    ensures t0 <= f.t && Realizes(law, EAnd(a, b), ks, env, log, c, m, f)
    decreases EAnd(a, b), 0
  {
    hide Shows, Sees, Ways, Outcome, Eval, Tape, Pool, LoadPool, AndNext;
    SeesParts(env, on, EAnd(a, b), a, b);
    var kb := Pool(a, ks);
    var ma := AndWayOf(a, b, ks, on, ClassOf(c), m);
    var fa := Realize(law, a, ks, on, env, ma, t0, log, c);
    var n := AndNext(ShapeOf(a), fa.o);
    if !ma.MWrong? { AndHands(a, ks, log, c, ma, fa, Tape(law, fa.t), env); }
    if AndMay(ShapeOf(a), ma).MLeave? {
      f := if m.MWrong? then fa else fa.(o := ToF(n.c));
      forall t | f.t <= t
        ensures Shows(EAnd(a, b), ks, log, c, m, f, Tape(law, t), env)
      {
        AndLeaves(a, b, ks, log, c, ma, m, fa, f, Tape(law, t), env);
      }
    } else {
      f := Realize(law, b, kb, on, env, m, fa.t, fa.l, n.c);
      forall t | f.t <= t
        ensures Shows(EAnd(a, b), ks, log, c, m, f, Tape(law, t), env)
      {
        assert fa.t <= t;
        AndGoes(a, b, ks, log, c, ma, m, fa, f, Tape(law, t), env);
      }
    }
  }

  lemma {:induction false} RealizeOr(law: bool, a: Expr, b: Expr, ks: seq<Value>, on: set<nat>, env: Regs, m: May, t0: seq<bool>, log: Log, c: Option<Value>) returns (f: Case)
    requires m in Ways(EOr(a, b), ks, on, ClassOf(c)) && NotBool(c) && |t0| == |log| && Sees(env, on, EOr(a, b))
    requires law ==> ComparesGlobals(EOr(a, b))
    ensures t0 <= f.t && Realizes(law, EOr(a, b), ks, env, log, c, m, f)
    decreases EOr(a, b), 0
  {
    hide Shows, Sees, Ways, Outcome, Eval, Tape, Pool, LoadPool, OrNext;
    SeesParts(env, on, EOr(a, b), a, b);
    var kb := LoadPool(a, Pool(a, ks));
    var ma := OrWayOf(a, b, ks, on, ClassOf(c), m);
    var fa := Realize(law, a, ks, on, env, ma, t0, log, c);
    var n := OrNext(ShapeOf(a), fa.o);
    if !ma.MWrong? { OrHands(a, ks, log, c, ma, fa, Tape(law, fa.t), env); }
    if OrMay(ShapeOf(a), ma).MLeave? {
      f := if m.MWrong? then fa else fa.(o := ToT(n.c));
      forall t | f.t <= t
        ensures Shows(EOr(a, b), ks, log, c, m, f, Tape(law, t), env)
      {
        OrLeaves(a, b, ks, log, c, ma, m, fa, f, Tape(law, t), env);
      }
    } else {
      f := Realize(law, b, kb, on, env, m, fa.t, fa.l, n.c);
      forall t | f.t <= t
        ensures Shows(EOr(a, b), ks, log, c, m, f, Tape(law, t), env)
      {
        assert fa.t <= t;
        OrGoes(a, b, ks, log, c, ma, m, fa, f, Tape(law, t), env);
      }
    }
  }

  lemma CarryHands(a: Expr, ks: seq<Value>, log: Log, c: Option<Value>, ma: May, fa: Case, w: World, env: Regs)
    requires Shows(a, ks, log, c, ma, fa, w, env) && !ma.MWrong?
    ensures var k := OperandCarry(a, Pool(a, ks), fa.o); ClassOf(k) == OperandClass(a, Pool(a, ks), ma) && NotBool(k)
  {
    OperandTracks(a, Pool(a, ks), ma, fa.o, fa.l, fa.v, fa.l);
  }

  lemma {:induction false} RealizeRel(law: bool, op: RelOp, a: Expr, b: Expr, ks: seq<Value>, on: set<nat>, env: Regs, m: May, t0: seq<bool>, log: Log, c: Option<Value>) returns (f: Case)
    requires m in Ways(ERel(op, a, b), ks, on, ClassOf(c)) && NotBool(c) && |t0| == |log| && Sees(env, on, ERel(op, a, b))
    requires law ==> ComparesGlobals(ERel(op, a, b))
    ensures t0 <= f.t && Realizes(law, ERel(op, a, b), ks, env, log, c, m, f)
    decreases ERel(op, a, b), 0
  {
    var ma, mb := RelWays(law, op, a, b, ks, on, ClassOf(c), m);
    hide Realizes, Shows, Ways, ComparedWays, ComparisonCase, OperandCarry, OperandClass;
    var ka := Pool(a, ks);
    var fa := Realize(law, a, ks, on, env, ma, t0, log, c);
    if ma.MWrong? {
      f := fa;
      RelWrong(law, op, a, b, ks, env, log, c, ma, mb, m, fa);
    } else {
      CarryRealized(law, a, ks, env, log, c, ma, fa);
      var fb := Realize(law, b, OperandPool(a, ka), on, env, mb, fa.t, fa.l, OperandCarry(a, ka, fa.o));
      f := ComparisonCase(law, op, m, fa, fb);
      RelRealized(law, op, a, b, ks, env, log, c, ma, mb, m, fa, fb);
    }
  }

  /** Ways of the operands that lead to `m`; globals are taken to be objects. */
  lemma RelWays(law: bool, op: RelOp, a: Expr, b: Expr, ks: seq<Value>, on: set<nat>, c: Class, m: May) returns (ma: May, mb: May)
    requires m in Ways(ERel(op, a, b), ks, on, c) && (law ==> Bare(a) && Bare(b))
    ensures ma in Ways(a, ks, on, c) && mb in Ways(b, OperandPool(a, Pool(a, ks)), on, OperandClass(a, Pool(a, ks), ma))
    ensures m in ComparedWays(ma, mb)
    ensures law ==> ma == mb == MFall(NoValue, true) && ComparesGlobals(a) && ComparesGlobals(b)
  {
    ma, mb :|
      && ma in Ways(a, ks, on, c) && mb in Ways(b, OperandPool(a, Pool(a, ks)), on, OperandClass(a, Pool(a, ks), ma))
      && m in ComparedWays(ma, mb);
    if law {
      BareWays(a, ks, on, c);
      BareWays(b, OperandPool(a, Pool(a, ks)), on, OperandClass(a, Pool(a, ks), ma));
      BareWays(b, OperandPool(a, Pool(a, ks)), on, OperandClass(a, Pool(a, ks), MFall(NoValue, true)));
      ma, mb := MFall(NoValue, true), MFall(NoValue, true);
    }
  }

  lemma {:induction false} BareWays(s: Expr, ks: seq<Value>, on: set<nat>, c: Class)
    requires Bare(s)
    ensures Ways(s, ks, on, c) == {MFall(NoValue, true), MFall(NoValue, false)} && ComparesGlobals(s)
    decreases s
  {
    if s.EParen? { BareWays(s.e, ks, on, c); }
  }

  /** On the tape a true global is an object named after the moment it is read. */
  lemma {:induction false} BareRef(law: bool, s: Expr, t: seq<bool>, env: Regs, log: Log)
    requires Bare(s) && Truthy(Eval(s, Tape(law, t), env, log).0)
    ensures var (v, l) := Eval(s, Tape(law, t), env, log); v == Ref(|log|) && |l| == |log| + 1
    decreases s
  {
    if s.EParen? { BareRef(law, s.e, t, env, log); }
  }

  lemma BareObjects(a: Expr, b: Expr, ks: seq<Value>, log: Log, c: Option<Value>, fa: Case, fb: Case, t: seq<bool>, env: Regs)
    requires Bare(a) && Shows(a, ks, log, c, MFall(NoValue, true), fa, Tape(true, t), env)
    requires Bare(b) && Shows(b, OperandPool(a, Pool(a, ks)), fa.l, OperandCarry(a, Pool(a, ks), fa.o), MFall(NoValue, true), fb, Tape(true, t), env)
    ensures fa.v.Ref? && fb.v.Ref? && fa.v != fb.v
  {
    BareRef(true, a, t, env, log);
    BareRef(true, b, t, env, fa.l);
  }

  lemma CarryRealized(law: bool, a: Expr, ks: seq<Value>, env: Regs, log: Log, c: Option<Value>, ma: May, fa: Case)
    requires Realizes(law, a, ks, env, log, c, ma, fa) && !ma.MWrong?
    ensures var k := OperandCarry(a, Pool(a, ks), fa.o); ClassOf(k) == OperandClass(a, Pool(a, ks), ma) && NotBool(k)
    ensures |fa.t| == |fa.l|
  {
    hide Shows;
    CarryHands(a, ks, log, c, ma, fa, Tape(law, fa.t), env);
  }

  lemma RelWrong(law: bool, op: RelOp, a: Expr, b: Expr, ks: seq<Value>, env: Regs, log: Log, c: Option<Value>, ma: May, mb: May, m: May, f: Case)
    requires Realizes(law, a, ks, env, log, c, ma, f) && ma.MWrong? && m in ComparedWays(ma, mb)
    ensures Realizes(law, ERel(op, a, b), ks, env, log, c, m, f)
  {
    hide Shows;
    forall t | f.t <= t
      ensures Shows(ERel(op, a, b), ks, log, c, m, f, Tape(law, t), env)
    {
      RelContinues(op, a, b, ks, log, c, f, Tape(law, t), env);
    }
  }

  lemma RelRealized(law: bool, op: RelOp, a: Expr, b: Expr, ks: seq<Value>, env: Regs, log: Log, c: Option<Value>, ma: May, mb: May, m: May, fa: Case, fb: Case)
    requires Realizes(law, a, ks, env, log, c, ma, fa) && !ma.MWrong? && fa.t <= fb.t
    requires Realizes(law, b, OperandPool(a, Pool(a, ks)), env, fa.l, OperandCarry(a, Pool(a, ks), fa.o), mb, fb)
    requires m in ComparedWays(ma, mb)
    requires law ==> Bare(a) && Bare(b) && ma == mb == MFall(NoValue, true)
    ensures var f := ComparisonCase(law, op, m, fa, fb); fa.t <= f.t && Realizes(law, ERel(op, a, b), ks, env, log, c, m, f)
  {
    hide Shows, Relate;
    var f := ComparisonCase(law, op, m, fa, fb);
    RelLog(law, op, fa.v, fb.v, fb.t, fb.t, fb.l);
    forall t | f.t <= t
      ensures Shows(ERel(op, a, b), ks, log, c, m, f, Tape(law, t), env)
    {
      assert fa.t <= t && fb.t <= t;
      if Spoils(ma) || Spoils(mb) {
        RelSpoiled(op, a, b, ks, log, c, ma, mb, fa, fb, f, Tape(law, t), env);
      } else {
        RelLog(law, op, fa.v, fb.v, fb.t, t, fb.l);
        if law { BareObjects(a, b, ks, log, c, fa, fb, t, env); }
        RelShows(law, op, a, b, ks, log, c, ma, mb, m.truth, fa, fb, f, t, env);
      }
    }
  }

  lemma RelContinues(op: RelOp, a: Expr, b: Expr, ks: seq<Value>, log: Log, c: Option<Value>, f: Case, w: World, env: Regs)
    requires Shows(a, ks, log, c, MWrong, f, w, env)
    ensures Shows(ERel(op, a, b), ks, log, c, MWrong, f, w, env)
  {
    Continue(ERel(op, a, b), ks, log, c, w, env);
  }

  /** The event of a comparison does not depend on the answer. */
  lemma RelLog(law: bool, op: RelOp, a: Value, b: Value, t: seq<bool>, t': seq<bool>, log: Log)
    ensures Relate(op, a, b, Tape(law, t), log).1 == Relate(op, a, b, Tape(law, t'), log).1
    ensures |Relate(op, a, b, Tape(law, t), log).1| == |log| + 1
  {
  }

  function ComparisonCase(law: bool, op: RelOp, m: May, fa: Case, fb: Case): Case {
    if !m.MFall? then fb
    else Case(fb.t + [AnswerFor(op, m.truth)], Fall(Bool(m.truth), None),
              Relate(op, fa.v, fb.v, Tape(law, fb.t), fb.l).1, Bool(m.truth))
  }

  /** In world `w`, entered over pending jumps that offer `c`, the value and the events are
      those of the short-circuit meaning. */
  ghost predicate IsRight(s: Expr, ks: seq<Value>, w: World, env: Regs, log: Log, c: Option<Value>) {
    var (o, l) := Outcome(s, ks, w, env, log, c);
    (Final(o), l) == Eval(s, w, env, log)
  }

  function OfferOf(c: Class): Option<Value> {
    match c
    case NoValue => None
    case TrueValue => Some(Num(1.0))
    case FalseValue => Some(Nil)
  }

  /** An expression that is not clean goes wrong in some world: it yields another value, or
      compares other operands.  When its comparisons are between globals the world is one
      that answers as the language does. */
  lemma NotCleanIsWrong(law: bool, s: Expr, ks: seq<Value>, cl: Class, log: Log) returns (w: World, env: Regs, c: Option<Value>)
    requires !Clean(s, ks, cl) && (law ==> ComparesGlobals(s))
    ensures ClassOf(c) == cl && env.Keys <= Locals(s) && (law ==> Lawful(w))
    ensures !IsRight(s, ks, w, env, log, c)
  {
    hide Outcome, Eval, Ways, Lawful;
    c := OfferOf(cl);
    var on :| on <= Locals(s) && exists m :: m in Ways(s, ks, on, cl) && Spoils(m);
    var m :| m in Ways(s, ks, on, cl) && Spoils(m);
    var f := Realize(law, s, ks, on, LocalsOf(on), m, seq(|log|, i => false), log, c);
    w, env := Tape(law, f.t), LocalsOf(on);
    assert Shows(s, ks, log, c, m, f, w, env);
    if law { TapeIsLawful(f.t); }
  }

  /** The condition is exact for every class of offered values: over all worlds, locals and
      offers of the class, the code delivers the short-circuit value after the right events
      if and only if the expression is clean for it. */
  lemma CleanIsExact(s: Expr, ks: seq<Value>, cl: Class, log: Log)
    ensures Clean(s, ks, cl) <==> forall w, env, c | ClassOf(c) == cl :: IsRight(s, ks, w, env, log, c)
  {
    hide Clean, Lawful, Outcome, Eval;
    if Clean(s, ks, cl) {
      forall w, env, c | ClassOf(c) == cl
        ensures IsRight(s, ks, w, env, log, c)
      {
        CleanIsRight(s, ks, w, env, log, c);
      }
    } else {
      var w, env, c := NotCleanIsWrong(false, s, ks, cl, log);
      assert !IsRight(s, ks, w, env, log, c);
    }
  }

  /** It is still exact when only worlds that compare as the language does are considered,
      for an expression without comparisons or with comparisons of globals only. */
  lemma CleanIsExactLawfully(s: Expr, ks: seq<Value>, cl: Class, log: Log)
    requires ComparesGlobals(s)
    ensures Clean(s, ks, cl) <==> forall w, env, c | Lawful(w) && ClassOf(c) == cl :: IsRight(s, ks, w, env, log, c)
  {
    hide Clean, Lawful, Outcome, Eval;
    if Clean(s, ks, cl) {
      forall w, env, c | Lawful(w) && ClassOf(c) == cl
        ensures IsRight(s, ks, w, env, log, c)
      {
        CleanIsRight(s, ks, w, env, log, c);
      }
    } else {
      var w, env, c := NotCleanIsWrong(true, s, ks, cl, log);
      assert !IsRight(s, ks, w, env, log, c);
    }
  }

  lemma ComparesUncleanIsWrong(s: Expr, ks: seq<Value>, cl: Class, log: Log) returns (w: World, env: Regs, c: Option<Value>)
    requires !ComparesClean(s, ks, cl)
    ensures ClassOf(c) == cl
    ensures Outcome(s, ks, w, env, log, c).1 != Eval(s, w, env, log).1
  {
    hide Outcome, Eval, Ways, Lawful;
    c := OfferOf(cl);
    var on :| on <= Locals(s) && MWrong in Ways(s, ks, on, cl);
    var f := Realize(false, s, ks, on, LocalsOf(on), MWrong, seq(|log|, i => false), log, c);
    w, env := Tape(false, f.t), LocalsOf(on);
    assert Shows(s, ks, log, c, MWrong, f, w, env);
  }

  /** The same for the events alone: globals are read and values compared as the
      short-circuit meaning says, in every world, if and only if no comparison can get a
      foreign operand. */
  lemma EventsAreExact(s: Expr, ks: seq<Value>, cl: Class, log: Log)
    ensures ComparesClean(s, ks, cl) <==>
            forall w, env, c | ClassOf(c) == cl :: Outcome(s, ks, w, env, log, c).1 == Eval(s, w, env, log).1
  {
    hide ComparesClean, Lawful, Outcome, Eval;
    if ComparesClean(s, ks, cl) {
      forall w, env, c | ClassOf(c) == cl
        ensures Outcome(s, ks, w, env, log, c).1 == Eval(s, w, env, log).1
      {
        ComparesCleanIsRight(s, ks, w, env, log, c);
      }
    } else {
      var w, env, c := ComparesUncleanIsWrong(s, ks, cl, log);
    }
  }
}
