/** The law of the code generator for whole functions: when do they return the short-circuit
    value?  A computable condition on the body, and the proof that it is exact. */
module LuaLaw {
  import opened LuaSource
  import opened LuaMachine
  import opened LuaOutcome
  import opened LuaExact
  import opened LuaNecessary
  import opened LuaProgram
  import opened LuaBlock

  function CondMay(s: Expr, m: May): MayNext {
    AndMay(NilAsFalse(ShapeOf(s)), m)
  }

  predicate TrueWay(m: May) {
    !m.MWrong? && m.truth
  }

  /** With the locals in `on` true, entered over pending jumps of class `c`: no returned or
      declared value can be spoiled, and no comparison in a condition gets a foreign operand.
      A spoiled value in a condition does no harm, but what it leaves pending is tracked. */
  predicate GoodBlock(b: Block, nactvar: nat, ks: seq<Value>, on: set<nat>, c: Class) {
    match b
    case Return(e) => forall m | m in Ways(e, ks, on, c) :: !Spoils(m)
    case Local(e, rest) =>
      forall m | m in Ways(e, ks, on, c) ::
        && !Spoils(m)
        && GoodBlock(rest, nactvar + 1, ValuePool(e, ks), if TrueWay(m) then on + {nactvar} else on - {nactvar}, NoValue)
    case If(s, body, rest) =>
      forall m | m in Ways(s, ks, on, c) ::
        (match CondMay(s, m)
         case MGo(c') => GoodBlock(body, nactvar, Pool(s, ks), on, c')
         case MLeave(m') => !m'.MWrong? && GoodBlock(rest, nactvar, BlockPool(body, Pool(s, ks)), on, m'.c))
    case IfEmpty(s, rest) =>
      forall m | m in Ways(s, ks, on, c) ::
        (match CondMay(s, m)
         case MGo(c') => GoodBlock(rest, nactvar, Pool(s, ks), on, c')
         case MLeave(m') => !m'.MWrong? && GoodBlock(rest, nactvar, Pool(s, ks), on, m'.c))
  }

  function Params(nactvar: nat): (p: set<nat>)
    ensures forall r: nat :: r in p <==> r < nactvar
  {
    if nactvar == 0 then {} else Params(nactvar - 1) + {nactvar - 1}
  }

  /** The condition for a function with `nactvar` parameters. */
  predicate CleanFunction(b: Block, nactvar: nat) {
    forall on | on <= Params(nactvar) :: GoodBlock(b, nactvar, [], on, NoValue)
  }

  // ---------- sufficient ----------

  ghost predicate TrueBelow(on: set<nat>, env: Regs, nactvar: nat) {
    forall r: nat | r < nactvar :: r in on <==> Truthy(Get(env, r))
  }

  lemma TrueOfScoped(s: Expr, on: set<nat>, env: Regs, nactvar: nat)
    requires Scoped(s, nactvar) && TrueBelow(on, env, nactvar)
    ensures TrueOnes(on, env, Locals(s))
  {
    ScopedLocals(s, nactvar);
  }

  lemma ScopedLocals(s: Expr, nactvar: nat)
    requires Scoped(s, nactvar)
    ensures forall r :: r in Locals(s) ==> r < nactvar
  {
  }

  /** What a condition makes of a way, and of what it describes. */
  lemma CondTracks(s: Expr, m: May, o: Exit, l: Log, v: Value, l': Log)
    requires Describes(m, ShapeOf(s), o, l, v, l')
    ensures match CondMay(s, m)
            case MGo(cl) => CondNext(s, o).Go? && ClassOf(CondNext(s, o).c) == cl && Truthy(v) && l == l'
            case MLeave(m') =>
              m'.MWrong? || (m'.MExit? && CondNext(s, o).Leave? && ClassOf(CondNext(s, o).c) == m'.c && !Truthy(v) && l == l')
  {
  }

  lemma {:induction false} GoodBlockIsRight(b: Block, nactvar: nat, ks: seq<Value>, on: set<nat>, w: World, env: Regs, log: Log, c: Option<Value>)
    requires ScopedBlock(b, nactvar) && TrueBelow(on, env, nactvar) && GoodBlock(b, nactvar, ks, on, ClassOf(c))
    ensures BlockOutcome(b, nactvar, ks, w, env, log, c) == EvalBlock(b, nactvar, w, env, log)
    decreases b
  {
    hide Outcome, Eval, Ways, Describes, CondMay, CondNext, Pool, LoadPool, BlockPool;
    var s := FirstOf(b);
    TrueOfScoped(s, on, env, nactvar);
    var m := Track(s, ks, on, w, env, log, c);
    var (o, l) := Outcome(s, ks, w, env, log, c);
    var (v, l') := Eval(s, w, env, log);
    match b
    case Return(_) => WayIsRight(s, m, o, l, v, l');
    case Local(_, rest) =>
      WayIsRight(s, m, o, l, v, l');
      GoodBlockIsRight(rest, nactvar + 1, ValuePool(s, ks), if TrueWay(m) then on + {nactvar} else on - {nactvar}, w, env[nactvar := v], l, None);
    case If(_, body, rest) =>
      CondTracks(s, m, o, l, v, l');
      if CondMay(s, m).MGo? {
        GoodBlockIsRight(body, nactvar, Pool(s, ks), on, w, env, l, CondNext(s, o).c);
      } else {
        GoodBlockIsRight(rest, nactvar, BlockPool(body, Pool(s, ks)), on, w, env, l, CondNext(s, o).c);
      }
    case IfEmpty(_, rest) =>
      CondTracks(s, m, o, l, v, l');
      GoodBlockIsRight(rest, nactvar, Pool(s, ks), on, w, env, l, CondNext(s, o).c);
  }

  function FirstOf(b: Block): Expr {
    match b
    case Return(e) => e
    case Local(e, _) => e
    case If(s, _, _) => s
    case IfEmpty(s, _) => s
  }

  lemma WayIsRight(s: Expr, m: May, o: Exit, l: Log, v: Value, l': Log)
    requires Describes(m, ShapeOf(s), o, l, v, l') && !Spoils(m)
    ensures Final(o) == v && l == l' && (TrueWay(m) <==> Truthy(v))
  {
  }

  /** Registers behind the parameters are nil when a function starts. */
  ghost predicate Arguments(args: Regs, nactvar: nat) {
    forall r :: r >= nactvar ==> Get(args, r) == Nil
  }

  /** Called with `args` in world `w`, the compiled function returns what its body means,
      after the same reads and comparisons in the same order. */
  ghost predicate FunctionRight(b: Block, nactvar: nat, w: World, args: Regs, log: Log) {
    var g := CompileFunction(b, nactvar);
    var (v, log') := EvalBlock(b, nactvar, w, args, log);
    Exec(g.code, g.k, w, 0, Machine(args, log)) == Returned([v], log')
  }

  /** Every clean function is compiled correctly. */
  lemma CleanFunctionIsRight(b: Block, nactvar: nat, w: World, args: Regs, log: Log)
    requires ScopedBlock(b, nactvar) && Arguments(args, nactvar)
    requires !CompileFunction(b, nactvar).err && CleanFunction(b, nactvar)
    ensures FunctionRight(b, nactvar, w, args, log)
  {
    hide CompileFunction, BlockOutcome, EvalBlock, GoodBlock, Exec;
    var on := set r | r in Params(nactvar) && Truthy(Get(args, r));
    GoodBlockIsRight(b, nactvar, [], on, w, args, log, None);
    FunctionDelivers(b, nactvar, w, args, log);
  }

  // ---------- which functions are clean ----------

  /** No first operand of `and` is the constant false, and no first operand of `or` the constant
      true. */
  predicate Undecided(s: Expr) {
    match s
    case EParen(e) => Undecided(e)
    case ENot(e) => Undecided(e)
    case EAnd(a, b) => Undecided(a) && Undecided(b) && !ShapeOf(a).SFalse?
    case EOr(a, b) => Undecided(a) && Undecided(b) && !ShapeOf(a).STrue?
    case ERel(_, a, b) => Undecided(a) && Undecided(b)
    case _ => true
  }

  predicate UndecidedBlock(b: Block) {
    match b
    case Return(e) => Undecided(e)
    case Local(e, rest) => Undecided(e) && UndecidedBlock(rest)
    case If(s, body, rest) => Undecided(s) && UndecidedBlock(body) && UndecidedBlock(rest)
    case IfEmpty(s, rest) => Undecided(s) && UndecidedBlock(rest)
  }

  /** Such an expression is never spoiled, whatever is pending before it. */
  lemma {:induction false} UndecidedWays(s: Expr, ks: seq<Value>, on: set<nat>, c: Class, m: May)
    requires Undecided(s) && m in Ways(s, ks, on, c)
    ensures !Spoils(m)
    decreases s
  {
    match s
    case EParen(e) => UndecidedWays(e, ks, on, c, m);
    case ENot(e) =>
      var me :| me in Ways(e, ks, on, c) && m == NotMay(me);
      UndecidedWays(e, ks, on, c, me);
    case EAnd(a, b) =>
      var ma := AndWayOf(a, b, ks, on, c, m);
      UndecidedWays(a, ks, on, c, ma);
      if AndMay(ShapeOf(a), ma).MGo? { UndecidedWays(b, Pool(a, ks), on, AndMay(ShapeOf(a), ma).c, m); }
    case EOr(a, b) =>
      var ma := OrWayOf(a, b, ks, on, c, m);
      UndecidedWays(a, ks, on, c, ma);
      if OrMay(ShapeOf(a), ma).MGo? { UndecidedWays(b, LoadPool(a, Pool(a, ks)), on, OrMay(ShapeOf(a), ma).c, m); }
    case ERel(_, a, b) => UndecidedRel(s, a, b, ks, on, c, m);
    case _ =>
  }

  lemma {:induction false} UndecidedRel(s: Expr, a: Expr, b: Expr, ks: seq<Value>, on: set<nat>, c: Class, m: May)
    requires s.ERel? && s.a == a && s.b == b && Undecided(s) && m in Ways(s, ks, on, c)
    ensures !Spoils(m)
    decreases s, 0
  {
    hide OperandPool, Pool, OperandClass;
    var ma, mb :|
      && ma in Ways(a, ks, on, c) && mb in Ways(b, OperandPool(a, Pool(a, ks)), on, OperandClass(a, Pool(a, ks), ma))
      && m in ComparedWays(ma, mb);
    UndecidedWays(a, ks, on, c, ma);
    UndecidedWays(b, OperandPool(a, Pool(a, ks)), on, OperandClass(a, Pool(a, ks), ma), mb);
  }

  lemma {:induction false} UndecidedIsGood(b: Block, nactvar: nat, ks: seq<Value>, on: set<nat>, c: Class)
    requires UndecidedBlock(b)
    ensures GoodBlock(b, nactvar, ks, on, c)
    decreases b
  {
    hide Ways, CondMay, Undecided, Pool, LoadPool, BlockPool;
    forall m | m in Ways(FirstOf(b), ks, on, c)
      ensures !Spoils(m)
    {
      UndecidedWays(FirstOf(b), ks, on, c, m);
    }
    match b
    case Return(_) =>
    case Local(e, rest) =>
      forall m | m in Ways(e, ks, on, c)
        ensures GoodBlock(rest, nactvar + 1, ValuePool(e, ks), if TrueWay(m) then on + {nactvar} else on - {nactvar}, NoValue)
      {
        UndecidedIsGood(rest, nactvar + 1, ValuePool(e, ks), if TrueWay(m) then on + {nactvar} else on - {nactvar}, NoValue);
      }
    case If(s, body, rest) =>
      forall m | m in Ways(s, ks, on, c)
        ensures match CondMay(s, m)
                case MGo(c') => GoodBlock(body, nactvar, Pool(s, ks), on, c')
                case MLeave(m') => !m'.MWrong? && GoodBlock(rest, nactvar, BlockPool(body, Pool(s, ks)), on, m'.c)
      {
        UndecidedWays(s, ks, on, c, m);
        CondUnspoiled(s, m);
        match CondMay(s, m)
        case MGo(c') => UndecidedIsGood(body, nactvar, Pool(s, ks), on, c');
        case MLeave(m') => UndecidedIsGood(rest, nactvar, BlockPool(body, Pool(s, ks)), on, m'.c);
      }
    case IfEmpty(s, rest) =>
      forall m | m in Ways(s, ks, on, c)
        ensures match CondMay(s, m)
                case MGo(c') => GoodBlock(rest, nactvar, Pool(s, ks), on, c')
                case MLeave(m') => !m'.MWrong? && GoodBlock(rest, nactvar, Pool(s, ks), on, m'.c)
      {
        UndecidedWays(s, ks, on, c, m);
        CondUnspoiled(s, m);
        match CondMay(s, m)
        case MGo(c') => UndecidedIsGood(rest, nactvar, Pool(s, ks), on, c');
        case MLeave(m') => UndecidedIsGood(rest, nactvar, Pool(s, ks), on, m'.c);
      }
  }

  lemma CondUnspoiled(s: Expr, m: May)
    requires !m.MWrong?
    ensures CondMay(s, m).MLeave? ==> CondMay(s, m).m.MExit?
  {
  }

  /** Every function without such operands is clean, declarations included: whatever the
      condition refuses has one of the two causes of the failure in it. */
  lemma UndecidedFunctionIsClean(b: Block, nactvar: nat)
    requires UndecidedBlock(b)
    ensures CleanFunction(b, nactvar)
  {
    forall on | on <= Params(nactvar)
      ensures GoodBlock(b, nactvar, [], on, NoValue)
    {
      UndecidedIsGood(b, nactvar, [], on, NoValue);
    }
  }

  // ---------- necessary ----------

  /** The value is never a boolean. */
  predicate NeverBool(s: Expr) {
    match s
    case ENil => true
    case ENum(_) => true
    case EStr(_) => true
    case ELocal(_) => true
    case EGlobal(_) => true
    case EParen(e) => NeverBool(e)
    case EAnd(a, b) => NeverBool(a) && NeverBool(b)
    case EOr(a, b) => NeverBool(a) && NeverBool(b)
    case _ => false
  }

  /** Declared values are never booleans. */
  predicate ValueLocals(b: Block) {
    match b
    case Return(_) => true
    case Local(e, rest) => NeverBool(e) && ValueLocals(rest)
    case If(_, body, rest) => ValueLocals(body) && ValueLocals(rest)
    case IfEmpty(_, rest) => ValueLocals(rest)
  }

  /** Locals that are no booleans, true exactly when they are in `on`. */
  ghost predicate SeesBelow(env: Regs, on: set<nat>, nactvar: nat) {
    forall r: nat | r < nactvar :: (r in on <==> Truthy(Get(env, r))) && !Get(env, r).Bool?
  }

  lemma SeesScoped(env: Regs, on: set<nat>, nactvar: nat, s: Expr)
    requires SeesBelow(env, on, nactvar) && Scoped(s, nactvar)
    ensures Sees(env, on, s)
  {
    ScopedLocals(s, nactvar);
  }

  lemma {:induction false} NeverBoolShape(s: Expr)
    requires NeverBool(s)
    ensures Undecided(s) && !ShapeOf(s).STrue? && !ShapeOf(s).SFalse?
    decreases s
  {
    match s
    case EParen(e) => NeverBoolShape(e);
    case EAnd(a, b) => NeverBoolShape(a); NeverBoolShape(b);
    case EOr(a, b) => NeverBoolShape(a); NeverBoolShape(b);
    case _ =>
  }

  lemma {:induction false} NeverBoolValue(law: bool, t: seq<bool>, s: Expr, env: Regs, on: set<nat>, log: Log)
    requires NeverBool(s) && Sees(env, on, s)
    ensures !Eval(s, Tape(law, t), env, log).0.Bool?
    decreases s
  {
    match s
    case EParen(e) => NeverBoolValue(law, t, e, env, on, log);
    case EAnd(a, b) =>
      NeverBoolValue(law, t, a, env, on, log);
      NeverBoolValue(law, t, b, env, on, Eval(a, Tape(law, t), env, log).1);
    case EOr(a, b) =>
      NeverBoolValue(law, t, a, env, on, log);
      NeverBoolValue(law, t, b, env, on, Eval(a, Tape(law, t), env, log).1);
    case _ =>
  }

  predicate BlockComparesGlobals(b: Block) {
    match b
    case Return(e) => ComparesGlobals(e)
    case Local(e, rest) => ComparesGlobals(e) && BlockComparesGlobals(rest)
    case If(s, body, rest) => ComparesGlobals(s) && BlockComparesGlobals(body) && BlockComparesGlobals(rest)
    case IfEmpty(s, rest) => ComparesGlobals(s) && BlockComparesGlobals(rest)
  }

  lemma {:induction false} EvalBlockGrows(b: Block, nactvar: nat, w: World, env: Regs, log: Log)
    ensures log <= EvalBlock(b, nactvar, w, env, log).1
    decreases b
  {
    hide Eval;
    var s := FirstOf(b);
    var (v, l) := Eval(s, w, env, log);
    EvalGrows(s, w, env, log);
    match b
    case Return(_) =>
    case Local(_, rest) => EvalBlockGrows(rest, nactvar + 1, w, env[nactvar := v], l);
    case If(_, body, rest) => EvalBlockGrows(body, nactvar, w, env, l); EvalBlockGrows(rest, nactvar, w, env, l);
    case IfEmpty(_, rest) => EvalBlockGrows(rest, nactvar, w, env, l);
  }

  lemma {:induction false} BlockOutcomeGrows(b: Block, nactvar: nat, ks: seq<Value>, w: World, env: Regs, log: Log, c: Option<Value>)
    ensures log <= BlockOutcome(b, nactvar, ks, w, env, log, c).1
    decreases b
  {
    hide Outcome, CondNext, Pool, BlockPool;
    var s := FirstOf(b);
    var (o, l) := Outcome(s, ks, w, env, log, c);
    OutcomeGrows(s, ks, w, env, log, c);
    match b
    case Return(_) =>
    case Local(_, rest) => BlockOutcomeGrows(rest, nactvar + 1, ValuePool(s, ks), w, env[nactvar := Final(o)], l, None);
    case If(_, body, rest) =>
      BlockOutcomeGrows(body, nactvar, Pool(s, ks), w, env, l, CondNext(s, o).c);
      BlockOutcomeGrows(rest, nactvar, BlockPool(body, Pool(s, ks)), w, env, l, CondNext(s, o).c);
    case IfEmpty(_, rest) => BlockOutcomeGrows(rest, nactvar, Pool(s, ks), w, env, l, CondNext(s, o).c);
  }

  /** The code and the meaning of a body differ in this world. */
  ghost predicate Differs(b: Block, nactvar: nat, ks: seq<Value>, w: World, env: Regs, log: Log, c: Option<Value>) {
    BlockOutcome(b, nactvar, ks, w, env, log, c) != EvalBlock(b, nactvar, w, env, log)
  }

  /** Once the events differ they differ to the end. */
  lemma DivergedDiffers(b: Block, nactvar: nat, ks: seq<Value>, w: World, env: Regs, log: Log, c: Option<Value>)
    requires Diverge(Outcome(FirstOf(b), ks, w, env, log, c).1, Eval(FirstOf(b), w, env, log).1)
    ensures Differs(b, nactvar, ks, w, env, log, c)
  {
    hide Outcome, Eval, CondNext, Diverge, Pool, BlockPool;
    var s := FirstOf(b);
    var (o, l) := Outcome(s, ks, w, env, log, c);
    var (v, l') := Eval(s, w, env, log);
    if b.Local? {
      BlockOutcomeGrows(b.rest, nactvar + 1, ValuePool(s, ks), w, env[nactvar := Final(o)], l, None);
      EvalBlockGrows(b.rest, nactvar + 1, w, env[nactvar := v], l');
    } else if b.If? {
      BlockOutcomeGrows(b.body, nactvar, Pool(s, ks), w, env, l, CondNext(s, o).c);
      BlockOutcomeGrows(b.rest, nactvar, BlockPool(b.body, Pool(s, ks)), w, env, l, CondNext(s, o).c);
      EvalBlockGrows(b.body, nactvar, w, env, l');
      EvalBlockGrows(b.rest, nactvar, w, env, l');
    } else if b.IfEmpty? {
      BlockOutcomeGrows(b.rest, nactvar, Pool(s, ks), w, env, l, CondNext(s, o).c);
      EvalBlockGrows(b.rest, nactvar, w, env, l');
    }
    var m, m' := BlockOutcome(b, nactvar, ks, w, env, log, c).1, EvalBlock(b, nactvar, w, env, log).1;
    DivergeOn(l, l', m, m');
    DivergedLogs(m, m');
  }

  lemma DivergedLogs(l: Log, l': Log)
    requires Diverge(l, l')
    ensures l != l'
  {
  }

  /** What a condition hands on is fixed by its case. */
  lemma CondHands(s: Expr, ks: seq<Value>, log: Log, c: Option<Value>, m: May, f: Case, w: World, env: Regs)
    requires Shows(s, ks, log, c, m, f, w, env) && !m.MWrong?
    ensures Outcome(s, ks, w, env, log, c) == (f.o, f.l) && Eval(s, w, env, log) == (f.v, f.l)
    ensures var n := CondNext(s, f.o);
            match CondMay(s, m)
            case MGo(cl) => n.Go? && ClassOf(n.c) == cl && NotBool(n.c) && Truthy(f.v)
            case MLeave(m') => m'.MExit? && n.Leave? && ClassOf(n.c) == m'.c && NotBool(n.c) && !Truthy(f.v)
  {
  }

  /** Whatever is answered after the tape `t`, the body goes wrong. */
  ghost predicate Betrays(law: bool, b: Block, nactvar: nat, ks: seq<Value>, env: Regs, log: Log, c: Option<Value>, t: seq<bool>) {
    forall t' :: t <= t' ==> Differs(b, nactvar, ks, Tape(law, t'), env, log, c)
  }

  lemma {:induction false} BadBlockBetrays(law: bool, b: Block, nactvar: nat, ks: seq<Value>, on: set<nat>, env: Regs, t0: seq<bool>, log: Log, c: Option<Value>) returns (t: seq<bool>)
    requires ValueLocals(b) && ScopedBlock(b, nactvar) && SeesBelow(env, on, nactvar) && (law ==> BlockComparesGlobals(b))
    requires !GoodBlock(b, nactvar, ks, on, ClassOf(c)) && NotBool(c) && |t0| == |log|
    ensures t0 <= t && Betrays(law, b, nactvar, ks, env, log, c, t)
    decreases b
  {
    hide Differs, Realizes, Shows, CondMay, CondNext, Ways, Sees, SeesBelow, Pool, BlockPool;
    var s := FirstOf(b);
    SeesScoped(env, on, nactvar, s);
    match b
    case Return(_) =>
      var m :| m in Ways(s, ks, on, ClassOf(c)) && Spoils(m);
      var f := Realize(law, s, ks, on, env, m, t0, log, c);
      t := f.t;
      SpoiledBetrays(law, b, nactvar, ks, env, log, c, m, f);
    case Local(e, rest) =>
      var m := BadDeclaration(e, rest, nactvar, ks, on, ClassOf(c));
      var f := Realize(law, e, ks, on, env, m, t0, log, c);
      var on', env' := if TrueWay(m) then on + {nactvar} else on - {nactvar}, env[nactvar := f.v];
      DeclaredSees(law, e, nactvar, ks, on, env, log, c, m, f);
      t := BadBlockBetrays(law, rest, nactvar + 1, ValuePool(e, ks), on', env', f.t, f.l, None);
      DeclaredBetrays(law, e, rest, nactvar, ks, env, log, c, m, f, t);
    case If(_, body, rest) =>
      var m := BadWay(b, nactvar, ks, on, ClassOf(c));
      var f := Realize(law, s, ks, on, env, m, t0, log, c);
      if m.MWrong? {
        t := f.t;
        SpoiledBetrays(law, b, nactvar, ks, env, log, c, m, f);
      } else {
        var n := CondHandsOn(law, s, ks, env, log, c, m, f);
        if n.Go? {
          t := BadBlockBetrays(law, body, nactvar, Pool(s, ks), on, env, f.t, f.l, n.c);
        } else {
          t := BadBlockBetrays(law, rest, nactvar, BlockPool(body, Pool(s, ks)), on, env, f.t, f.l, n.c);
        }
        LaterBetrays(law, b, nactvar, ks, env, log, c, m, f, t);
      }
    case IfEmpty(_, rest) =>
      var m := BadWay(b, nactvar, ks, on, ClassOf(c));
      var f := Realize(law, s, ks, on, env, m, t0, log, c);
      if m.MWrong? {
        t := f.t;
        SpoiledBetrays(law, b, nactvar, ks, env, log, c, m, f);
      } else {
        var n := CondHandsOn(law, s, ks, env, log, c, m, f);
        t := BadBlockBetrays(law, rest, nactvar, Pool(s, ks), on, env, f.t, f.l, n.c);
        LaterBetrays(law, b, nactvar, ks, env, log, c, m, f, t);
      }
  }

  /** The way through a declaration behind which the rest is bad: the declared value itself is
      never spoiled. */
  lemma BadDeclaration(e: Expr, rest: Block, nactvar: nat, ks: seq<Value>, on: set<nat>, c: Class) returns (m: May)
    requires NeverBool(e) && !GoodBlock(Local(e, rest), nactvar, ks, on, c)
    ensures m in Ways(e, ks, on, c) && !Spoils(m)
    ensures !GoodBlock(rest, nactvar + 1, ValuePool(e, ks), if TrueWay(m) then on + {nactvar} else on - {nactvar}, NoValue)
  {
    hide Ways, Undecided, ValuePool;
    NeverBoolShape(e);
    m :| m in Ways(e, ks, on, c) &&
      (Spoils(m) || !GoodBlock(rest, nactvar + 1, ValuePool(e, ks), if TrueWay(m) then on + {nactvar} else on - {nactvar}, NoValue));
    UndecidedWays(e, ks, on, c, m);
  }

  lemma DeclaredSees(law: bool, e: Expr, nactvar: nat, ks: seq<Value>, on: set<nat>, env: Regs, log: Log, c: Option<Value>, m: May, f: Case)
    requires Realizes(law, e, ks, env, log, c, m, f) && !Spoils(m) && NeverBool(e) && Sees(env, on, e) && SeesBelow(env, on, nactvar)
    ensures |f.t| == |f.l|
    ensures SeesBelow(env[nactvar := f.v], if TrueWay(m) then on + {nactvar} else on - {nactvar}, nactvar + 1)
  {
    hide Outcome, Eval, Ways, Tape;
    assert Shows(e, ks, log, c, m, f, Tape(law, f.t), env);
    NeverBoolValue(law, f.t, e, env, on, log);
    var env' := env[nactvar := f.v];
    forall r: nat | r < nactvar
      ensures Get(env', r) == Get(env, r)
    {
    }
  }

  /** Behind the declaration what follows goes wrong with the declared value. */
  lemma DeclaredBetrays(law: bool, e: Expr, rest: Block, nactvar: nat, ks: seq<Value>, env: Regs, log: Log, c: Option<Value>, m: May, f: Case, t: seq<bool>)
    requires Realizes(law, e, ks, env, log, c, m, f) && !Spoils(m) && f.t <= t
    requires Betrays(law, rest, nactvar + 1, ValuePool(e, ks), env[nactvar := f.v], f.l, None, t)
    ensures Betrays(law, Local(e, rest), nactvar, ks, env, log, c, t)
  {
    hide Shows, Outcome, Eval, ValuePool;
    forall t' | t <= t'
      ensures Differs(Local(e, rest), nactvar, ks, Tape(law, t'), env, log, c)
    {
      OwnValue(e, ks, log, c, m, f, Tape(law, t'), env);
    }
  }

  /** The way through a condition behind which the body is bad, or on which its events are
      wrong. */
  lemma BadWay(b: Block, nactvar: nat, ks: seq<Value>, on: set<nat>, c: Class) returns (m: May)
    requires (b.If? || b.IfEmpty?) && !GoodBlock(b, nactvar, ks, on, c)
    ensures m in Ways(FirstOf(b), ks, on, c)
    ensures !m.MWrong? ==>
              match CondMay(FirstOf(b), m)
              case MGo(c') => !GoodBlock(if b.If? then b.body else b.rest, nactvar, Pool(FirstOf(b), ks), on, c')
              case MLeave(m') =>
                m'.MExit? && !GoodBlock(b.rest, nactvar, if b.If? then BlockPool(b.body, Pool(FirstOf(b), ks)) else Pool(FirstOf(b), ks), on, m'.c)
  {
    m :| m in Ways(FirstOf(b), ks, on, c) &&
      !(match CondMay(FirstOf(b), m)
        case MGo(c') => GoodBlock(if b.If? then b.body else b.rest, nactvar, Pool(FirstOf(b), ks), on, c')
        case MLeave(m') => !m'.MWrong? && GoodBlock(b.rest, nactvar, if b.If? then BlockPool(b.body, Pool(FirstOf(b), ks)) else Pool(FirstOf(b), ks), on, m'.c));
  }

  /** A spoiled return, or wrong events in a condition. */
  lemma SpoiledBetrays(law: bool, b: Block, nactvar: nat, ks: seq<Value>, env: Regs, log: Log, c: Option<Value>, m: May, f: Case)
    requires Realizes(law, FirstOf(b), ks, env, log, c, m, f) && Spoils(m) && (b.Return? || m.MWrong?)
    ensures Betrays(law, b, nactvar, ks, env, log, c, f.t)
  {
    hide Differs, Diverge;
    forall t | f.t <= t
      ensures Differs(b, nactvar, ks, Tape(law, t), env, log, c)
    {
      assert Shows(FirstOf(b), ks, log, c, m, f, Tape(law, t), env);
      if m.MWrong? {
        DivergedDiffers(b, nactvar, ks, Tape(law, t), env, log, c);
      } else {
        ReturnDiffers(b, nactvar, ks, Tape(law, t), env, log, c);
      }
    }
  }

  lemma ReturnDiffers(b: Block, nactvar: nat, ks: seq<Value>, w: World, env: Regs, log: Log, c: Option<Value>)
    requires b.Return? && Final(Outcome(b.e, ks, w, env, log, c).0) != Eval(b.e, w, env, log).0
    ensures Differs(b, nactvar, ks, w, env, log, c)
  {
  }

  lemma CondHandsOn(law: bool, s: Expr, ks: seq<Value>, env: Regs, log: Log, c: Option<Value>, m: May, f: Case) returns (n: Next)
    requires Realizes(law, s, ks, env, log, c, m, f) && !m.MWrong?
    ensures n == CondNext(s, f.o) && NotBool(n.c) && |f.t| == |f.l|
    ensures match CondMay(s, m)
            case MGo(cl) => n.Go? && ClassOf(n.c) == cl
            case MLeave(m') => n.Leave? && m'.MExit? && ClassOf(n.c) == m'.c
  {
    hide Shows;
    n := CondNext(s, f.o);
    CondHands(s, ks, log, c, m, f, Tape(law, f.t), env);
  }

  /** Behind a condition that is decided as `m` says, what follows goes wrong. */
  lemma LaterBetrays(law: bool, b: Block, nactvar: nat, ks: seq<Value>, env: Regs, log: Log, c: Option<Value>, m: May, f: Case, t: seq<bool>)
    requires b.If? || b.IfEmpty?
    requires Realizes(law, FirstOf(b), ks, env, log, c, m, f) && !m.MWrong? && f.t <= t
    requires var s, n := FirstOf(b), CondNext(FirstOf(b), f.o);
             if b.If? && n.Go? then Betrays(law, b.body, nactvar, Pool(s, ks), env, f.l, n.c, t)
             else Betrays(law, b.rest, nactvar, if b.If? then BlockPool(b.body, Pool(s, ks)) else Pool(s, ks), env, f.l, n.c, t)
    ensures Betrays(law, b, nactvar, ks, env, log, c, t)
  {
    hide Shows, CondNext, Outcome, Eval, Pool, BlockPool;
    forall t' | t <= t'
      ensures Differs(b, nactvar, ks, Tape(law, t'), env, log, c)
    {
      CondHands(FirstOf(b), ks, log, c, m, f, Tape(law, t'), env);
    }
  }

  /** A function that is not clean goes wrong for some arguments in some world, and if its
      comparisons are between globals in one that compares as the language does. */
  lemma UncleanFunctionIsWrong(law: bool, b: Block, nactvar: nat, log: Log) returns (w: World, args: Regs)
    requires ScopedBlock(b, nactvar) && ValueLocals(b) && (law ==> BlockComparesGlobals(b))
    requires !CompileFunction(b, nactvar).err && !CleanFunction(b, nactvar)
    ensures Arguments(args, nactvar) && (law ==> Lawful(w)) && !FunctionRight(b, nactvar, w, args, log)
  {
    hide CompileFunction, BlockOutcome, EvalBlock, GoodBlock, Exec, Lawful;
    var on :| on <= Params(nactvar) && !GoodBlock(b, nactvar, [], on, NoValue);
    var t := BadBlockBetrays(law, b, nactvar, [], on, LocalsOf(on), seq(|log|, i => false), log, None);
    w, args := Tape(law, t), LocalsOf(on);
    if law { TapeIsLawful(t); }
    FunctionDelivers(b, nactvar, w, args, log);
  }

  /** The law, exactly: for every function whose declared values are never booleans, the
      compiled code is right in every world and for all arguments if and only if the function
      is clean. */
  lemma FunctionIsExact(b: Block, nactvar: nat, log: Log)
    requires ScopedBlock(b, nactvar) && ValueLocals(b) && !CompileFunction(b, nactvar).err
    ensures CleanFunction(b, nactvar) <==>
            forall w, args | Arguments(args, nactvar) :: FunctionRight(b, nactvar, w, args, log)
  {
    if CleanFunction(b, nactvar) {
      forall w, args | Arguments(args, nactvar)
        ensures FunctionRight(b, nactvar, w, args, log)
      {
        CleanFunctionIsRight(b, nactvar, w, args, log);
      }
    } else {
      var w, args := UncleanFunctionIsWrong(false, b, nactvar, log);
    }
  }

  /** The same over the worlds that compare as the language does, for functions whose
      comparisons, if any, are between globals. */
  lemma FunctionIsExactLawfully(b: Block, nactvar: nat, log: Log)
    requires ScopedBlock(b, nactvar) && ValueLocals(b) && !CompileFunction(b, nactvar).err
    requires BlockComparesGlobals(b)
    ensures CleanFunction(b, nactvar) <==>
            forall w, args | Lawful(w) && Arguments(args, nactvar) :: FunctionRight(b, nactvar, w, args, log)
  {
    if CleanFunction(b, nactvar) {
      forall w, args | Lawful(w) && Arguments(args, nactvar)
        ensures FunctionRight(b, nactvar, w, args, log)
      {
        CleanFunctionIsRight(b, nactvar, w, args, log);
      }
    } else {
      var w, args := UncleanFunctionIsWrong(true, b, nactvar, log);
    }
  }
}
