/**
 Compiler correctness: with the same fuel, the emitted code runs in lockstep
 with the source, so it terminates exactly when the source does and leaves the
 same variables and result.
 */
module ToolchainCorrect {
  import opened Prelude
  import opened PySource
  import opened Wasm
  import opened Toolchain

  /** No comparison is used where a number is expected. */
  predicate NumericExpr(e: Expr)
    decreases e, 0
  {
    match e
    case BinOp(_, l, r) => NumericExpr(l) && NumericExpr(r)
    case UnaryOp(_, x) => NumericExpr(x)
    case IfExp(t, b, o) => NumericTest(t) && NumericExpr(b) && NumericExpr(o)
    case Compare(_, _, _) => false
    case _ => true
  }

  /** A condition may compare, but its operands are numbers. */
  predicate NumericTest(e: Expr)
    decreases e, 1
  {
    if e.Compare? then NumericExpr(e.first) && forall c | c in e.comparators :: NumericExpr(c)
    else NumericExpr(e)
  }

  /** Statements that may precede the tail: assignments and `while` loops over them. */
  predicate Straight(s: Stmt)
    decreases s
  {
    match s
    case Assign(_, e) => NumericExpr(e)
    case AnnAssign(_, Some(e)) => NumericExpr(e)
    case While(t, body, _) => NumericTest(t) && forall b | b in body :: Straight(b) || b == ExprStmt(Constant(NoneConst))
    case _ => false
  }

  predicate TailReturn(s: Stmt) {
    s.Return? && s.result.Some? && NumericExpr(s.result.value)
  }

  predicate Tail(s: Stmt) {
    || TailReturn(s)
    || (s.If? && NumericTest(s.test) && |s.body| == 1 && |s.orelse| == 1 && TailReturn(s.body[0]) && TailReturn(s.orelse[0]))
  }

  /** Assignments and loops, then one tail `return` or `if`/`else` of returns. */
  predicate WellShaped(f: FunctionDef) {
    var n := |f.body|;
    n > 0 && Tail(f.body[n - 1]) && forall i | 0 <= i < n - 1 :: Straight(f.body[i])
  }

  // ----- expressions -----------------------------------------------------

  lemma {:induction false} RunAppend<F(!new)>(a: Arith<F>, fuel: nat, i: Instr, rest: seq<Instr>, locals: Env<F>, stack: seq<Val<F>>)
    ensures
      var r := Run(a, fuel, i, locals, stack);
      RunSeq(a, fuel, [i] + rest, locals, stack) == if r.Normal? then RunSeq(a, fuel, rest, r.locals, r.stack) else r
  {
    assert ([i] + rest)[1..] == rest;
  }

  lemma {:induction false} FloatStep<F(!new)>(a: Arith<F>, fuel: nat, op: FloatOp, rest: seq<Instr>, env: Env<F>, stack: seq<Val<F>>, x: F, y: F)
    ensures RunSeq(a, fuel, [Float(op)] + rest, env, stack + [F32(x)] + [F32(y)])
         == RunSeq(a, fuel, rest, env, stack + [F32(RunFloat(a, op, x, y))])
  {
    var s2 := stack + [F32(x)] + [F32(y)];
    RunAppend(a, fuel, Float(op), rest, env, s2);
    assert s2[..|s2| - 2] == stack;
  }

  lemma {:induction false} PushStep<F(!new)>(a: Arith<F>, fuel: nat, i: Instr, rest: seq<Instr>, env: Env<F>, stack: seq<Val<F>>)
    requires i.F32Const? || (i.LocalGet? && i.x in env)
    ensures RunSeq(a, fuel, [i] + rest, env, stack)
         == RunSeq(a, fuel, rest, env, stack + [F32(if i.F32Const? then a.lit(i.n) else env[i.x])])
  {
    RunAppend(a, fuel, i, rest, env, stack);
  }

  lemma {:induction false} RelStep<F(!new)>(a: Arith<F>, fuel: nat, op: CmpOp, rest: seq<Instr>, env: Env<F>, stack: seq<Val<F>>, x: F, y: F)
    requires LowerCmpOp(op).Some?
    ensures RunSeq(a, fuel, [Rel(LowerCmpOp(op).value)] + rest, env, stack + [F32(x)] + [F32(y)])
         == RunSeq(a, fuel, rest, env, stack + [I32(if CompareOp(a, op, x, y).value then 1 else 0)])
  {
    var s2 := stack + [F32(x)] + [F32(y)];
    RunAppend(a, fuel, Rel(LowerCmpOp(op).value), rest, env, s2);
    assert s2[..|s2| - 2] == stack;
  }

  /** Compiled expressions push exactly the value the source evaluates to. */
  lemma {:induction false} ExprCorrect<F(!new)>(a: Arith<F>, fuel: nat, e: Expr, known: set<string>, rest: seq<Instr>, env: Env<F>, stack: seq<Val<F>>)
    requires CompileExpr(e, known).Some? && NumericExpr(e) && known <= env.Keys
    ensures Eval(a, e, env).Some?
    ensures RunSeq(a, fuel, CompileExpr(e, known).value + rest, env, stack)
         == RunSeq(a, fuel, rest, env, stack + [F32(Eval(a, e, env).value)])
    decreases e, 1
  {
    hide Run, RunSeq;
    var code := CompileExpr(e, known).value;
    match e
    case BinOp(op, left, right) =>
      var l, r := CompileExpr(left, known).value, CompileExpr(right, known).value;
      var last := Float(LowerBinOp(op).value);
      assert code + rest == l + (r + ([last] + rest));
      ExprCorrect(a, fuel, left, known, r + ([last] + rest), env, stack);
      var x := Eval(a, left, env).value;
      ExprCorrect(a, fuel, right, known, [last] + rest, env, stack + [F32(x)]);
      var y := Eval(a, right, env).value;
      FloatStep(a, fuel, last.op, rest, env, stack, x, y);
    case UnaryOp(_, operand) =>
      var c := CompileExpr(operand, known).value;
      assert code + rest == [F32Const(-1.0)] + (c + ([Float(F32Mul)] + rest));
      PushStep(a, fuel, F32Const(-1.0), c + ([Float(F32Mul)] + rest), env, stack);
      var s1 := stack + [F32(a.lit(-1.0))];
      ExprCorrect(a, fuel, operand, known, [Float(F32Mul)] + rest, env, s1);
      FloatStep(a, fuel, F32Mul, rest, env, stack, a.lit(-1.0), Eval(a, operand, env).value);
    case IfExp(test, body, orelse) =>
      var c, t, f := CompileCompare(test, known).value, CompileExpr(body, known).value, CompileExpr(orelse, known).value;
      assert code + rest == c + ([IfElse(t, f)] + rest);
      TestCorrect(a, fuel, test, known, [IfElse(t, f)] + rest, env, stack);
      var b := EvalTest(a, test, env).value;
      IfCorrect(a, fuel, b, if b then body else orelse, t, f, known, rest, env, stack);
    case Name(id) => PushStep(a, fuel, LocalGet(id), rest, env, stack);
    case Constant(k) => PushStep(a, fuel, code[0], rest, env, stack);
  }

  /** A compiled condition pushes 1 when the source condition holds and 0 when it does not. */
  lemma {:induction false} TestCorrect<F(!new)>(a: Arith<F>, fuel: nat, e: Expr, known: set<string>, rest: seq<Instr>, env: Env<F>, stack: seq<Val<F>>)
    requires CompileCompare(e, known).Some? && NumericTest(e) && known <= env.Keys
    ensures EvalTest(a, e, env).Some?
    ensures RunSeq(a, fuel, CompileCompare(e, known).value + rest, env, stack)
         == RunSeq(a, fuel, rest, env, stack + [I32(if EvalTest(a, e, env).value then 1 else 0)])
    decreases e, 2
  {
    hide Run, RunSeq;
    var left, right := e.first, e.comparators[0];
    var l, r := CompileExpr(left, known).value, CompileExpr(right, known).value;
    var last := Rel(LowerCmpOp(e.ops[0]).value);
    assert CompileCompare(e, known).value + rest == l + (r + ([last] + rest));
    ExprCorrect(a, fuel, left, known, r + ([last] + rest), env, stack);
    var x := Eval(a, left, env).value;
    ExprCorrect(a, fuel, right, known, [last] + rest, env, stack + [F32(x)]);
    var y := Eval(a, right, env).value;
    RelStep(a, fuel, e.ops[0], rest, env, stack, x, y);
  }

  /** `if (result f32)` over a condition value runs the chosen branch and keeps its number. */
  lemma {:induction false} IfCorrect<F(!new)>(a: Arith<F>, fuel: nat, b: bool, chosen: Expr, t: seq<Instr>, f: seq<Instr>, known: set<string>,
                                              rest: seq<Instr>, env: Env<F>, stack: seq<Val<F>>)
    requires CompileExpr(chosen, known) == Some(if b then t else f) && NumericExpr(chosen) && known <= env.Keys
    ensures Eval(a, chosen, env).Some?
    ensures RunSeq(a, fuel, [IfElse(t, f)] + rest, env, stack + [I32(if b then 1 else 0)])
         == RunSeq(a, fuel, rest, env, stack + [F32(Eval(a, chosen, env).value)])
    decreases chosen, 2
  {
    var s1 := stack + [I32(if b then 1 else 0)];
    RunAppend(a, fuel, IfElse(t, f), rest, env, s1);
    var code := if b then t else f;
    ExprCorrect(a, fuel, chosen, known, [], env, []);
    assert code + [] == code;
    var v := F32(Eval(a, chosen, env).value);
    assert RunSeq(a, fuel, code, env, []) == Normal(env, [] + [v]);
    assert s1[..|s1| - 1] + ([] + [v]) == stack + [v];
  }

  // ----- statements ------------------------------------------------------

  /** What a statement leaves on the operand stack: only a bare `None` leaves a value. */
  function Residue<F(!new)>(a: Arith<F>, s: Stmt): seq<Val<F>> {
    if s == ExprStmt(Constant(NoneConst)) then [F32(a.lit(0.0))] else []
  }

  /** `r` is what running the code of a statement, then `rest`, must give. */
  ghost predicate Follows<F(!new)>(a: Arith<F>, fuel: nat, o: Outcome<F>, r: Result<F>, rest: seq<Instr>, stack: seq<Val<F>>) {
    match o
    case Next(env) => r == RunSeq(a, fuel, rest, env, stack)
    case OutOfFuel => r == Result.OutOfFuel
    case _ => false
  }

  predicate Simple(s: Stmt) {
    Straight(s) || s == ExprStmt(Constant(NoneConst))
  }

  lemma {:induction false} AssignCorrect<F(!new)>(a: Arith<F>, fuel: nat, id: string, e: Expr, known: set<string>, rest: seq<Instr>, env: Env<F>, stack: seq<Val<F>>)
    requires CompileAssignTo(id, e, known).Some? && NumericExpr(e) && known <= env.Keys
    ensures Eval(a, e, env).Some?
    ensures RunSeq(a, fuel, CompileAssignTo(id, e, known).value + rest, env, stack)
         == RunSeq(a, fuel, rest, env[id := Eval(a, e, env).value], stack)
  {
    var c := CompileExpr(e, known).value;
    assert CompileAssignTo(id, e, known).value + rest == c + ([LocalSet(id)] + rest);
    ExprCorrect(a, fuel, e, known, [LocalSet(id)] + rest, env, stack);
    var s1 := stack + [F32(Eval(a, e, env).value)];
    RunAppend(a, fuel, LocalSet(id), rest, env, s1);
    assert s1[..|s1| - 1] == stack;
  }

  lemma {:induction false} StmtCorrect<F(!new)>(a: Arith<F>, fuel: nat, s: Stmt, known: set<string>, rest: seq<Instr>, env: Env<F>, stack: seq<Val<F>>)
    requires CompileStmt(s, false, known).Some? && Simple(s) && known <= env.Keys
    ensures Follows(a, fuel, Exec(a, fuel, s, env), RunSeq(a, fuel, CompileStmt(s, false, known).value + rest, env, stack), rest, stack + Residue(a, s))
    ensures Exec(a, fuel, s, env).Next? ==> env.Keys == Exec(a, fuel, s, env).env.Keys
    decreases fuel, s, 1
  {
    assert stack + [] == stack;
    match s
    case Assign(targets, e) => AssignCorrect(a, fuel, targets[0].id, e, known, rest, env, stack);
    case AnnAssign(target, v) => AssignCorrect(a, fuel, target.id, v.value, known, rest, env, stack);
    case While(test, body, _) =>
      var c, b := CompileCompare(test, known).value, CompileLoopBody(body, known).value;
      var loop := Loop(c + [I32Eqz, BrIf(1)] + b + [Br(0)]);
      RunAppend(a, fuel, Block([loop]), rest, env, stack);
      LoopCorrect(a, fuel, s, known, env);
      RunAppend(a, fuel, loop, [], env, []);
      assert [loop] + [] == [loop];
    case ExprStmt(_) => RunAppend(a, fuel, F32Const(0.0), rest, env, stack);
  }

  lemma NegateRuns<F(!new)>(a: Arith<F>, fuel: nat, t: bool, env: Env<F>)
    ensures Run(a, fuel, I32Eqz, env, [I32(if t then 1 else 0)]) == Normal(env, [I32(if t then 0 else 1)])
    ensures Run(a, fuel, BrIf(1), env, [I32(if t then 0 else 1)]) == if t then Normal(env, []) else Branch(1, env, [])
  {
    hide RunSeq;
    var s1: seq<Val<F>> := [I32(if t then 1 else 0)];
    var s2: seq<Val<F>> := [I32(if t then 0 else 1)];
    assert s1[..0] + s2 == s2 && s2[..0] == [];
  }

  /** The negated test and the exit branch behind it. */
  lemma ExitBranch<F(!new)>(a: Arith<F>, fuel: nat, t: bool, rest: seq<Instr>, env: Env<F>)
    ensures RunSeq(a, fuel, [I32Eqz] + ([BrIf(1)] + rest), env, [I32(if t then 1 else 0)])
         == if t then RunSeq(a, fuel, rest, env, []) else Branch(1, env, [])
  {
    hide Run, RunSeq;
    NegateRuns(a, fuel, t, env);
    RunAppend(a, fuel, I32Eqz, [BrIf(1)] + rest, env, [I32(if t then 1 else 0)]);
    RunAppend(a, fuel, BrIf(1), rest, env, [I32(if t then 0 else 1)]);
  }

  /** The guard of a lowered loop: fall into the body when the condition holds, else leave the block. */
  lemma {:induction false} GuardCorrect<F(!new)>(a: Arith<F>, fuel: nat, test: Expr, known: set<string>, rest: seq<Instr>, env: Env<F>)
    requires CompileCompare(test, known).Some? && NumericTest(test) && known <= env.Keys
    ensures EvalTest(a, test, env).Some?
    ensures RunSeq(a, fuel, CompileCompare(test, known).value + [I32Eqz, BrIf(1)] + rest, env, [])
         == if EvalTest(a, test, env).value then RunSeq(a, fuel, rest, env, []) else Branch(1, env, [])
  {
    hide *;
    var c := CompileCompare(test, known).value;
    var afterTest := [I32Eqz] + ([BrIf(1)] + rest);
    assert c + [I32Eqz, BrIf(1)] + rest == c + afterTest;
    TestCorrect(a, fuel, test, known, afterTest, env, []);
    var t := EvalTest(a, test, env).value;
    var pushed: seq<Val<F>> := [I32(if t then 1 else 0)];
    assert [] + pushed == pushed;
    ExitBranch(a, fuel, t, rest, env);
  }

  /** The lowered loop leaves its block by `br_if 1` exactly when the source loop ends. */
  lemma {:induction false} LoopCorrect<F(!new)>(a: Arith<F>, fuel: nat, s: Stmt, known: set<string>, env: Env<F>)
    requires s.While? && CompileStmt(s, false, known).Some? && Straight(s) && known <= env.Keys
    ensures
      var c, b := CompileCompare(s.wtest, known).value, CompileLoopBody(s.wbody, known).value;
      var r := Run(a, fuel, Loop(c + [I32Eqz, BrIf(1)] + b + [Br(0)]), env, []);
      match Exec(a, fuel, s, env)
      case Next(env') => r == Branch(0, env', []) && env'.Keys == env.Keys
      case OutOfFuel => r == Result.OutOfFuel
      case _ => false
    decreases fuel, s, 0
  {
    if fuel > 0 {
      var c, b := CompileCompare(s.wtest, known).value, CompileLoopBody(s.wbody, known).value;
      assert c + [I32Eqz, BrIf(1)] + b + [Br(0)] == c + [I32Eqz, BrIf(1)] + (b + [Br(0)]);
      GuardCorrect(a, fuel - 1, s.wtest, known, b + [Br(0)], env);
      hide RunSeq, CompileCompare, CompileExpr, EvalTest;
      if EvalTest(a, s.wtest, env).value {
        BodyCorrect(a, fuel - 1, s.wbody, known, env, []);
        var o := ExecSeq(a, fuel - 1, s.wbody, env);
        if o.Next? {
          LoopCorrect(a, fuel - 1, s, known, o.env);
        }
      }
    }
  }

  /** A loop body falls through to the closing `br 0`, whatever it left on the stack. */
  lemma {:induction false} BodyCorrect<F(!new)>(a: Arith<F>, fuel: nat, ss: seq<Stmt>, known: set<string>, env: Env<F>, stack: seq<Val<F>>)
    requires CompileLoopBody(ss, known).Some? && (forall s | s in ss :: Simple(s)) && known <= env.Keys
    ensures
      var r := RunSeq(a, fuel, CompileLoopBody(ss, known).value + [Br(0)], env, stack);
      match ExecSeq(a, fuel, ss, env)
      case Next(env') => r.Branch? && r.depth == 0 && r.locals == env' && env'.Keys == env.Keys
      case OutOfFuel => r == Result.OutOfFuel
      case _ => false
    decreases fuel, ss, 0
  {
    if ss == [] {
      assert [] + [Br(0)] == [Br(0)];
    } else {
      var c, rest := CompileStmt(ss[0], false, known).value, CompileLoopBody(ss[1..], known).value;
      assert CompileLoopBody(ss, known).value + [Br(0)] == c + (rest + [Br(0)]);
      StmtCorrect(a, fuel, ss[0], known, rest + [Br(0)], env, stack);
      var o := Exec(a, fuel, ss[0], env);
      if o.Next? {
        BodyCorrect(a, fuel, ss[1..], known, o.env, stack + Residue(a, ss[0]));
      }
    }
  }

  // ----- whole functions -------------------------------------------------

  /** Parameters hold the arguments, every other local starts at zero. */
  function Initial<F(!new)>(a: Arith<F>, f: WatFunction, args: map<string, F>): map<string, F> {
    map x | x in f.locals + (set p | p in f.params) :: if x in args && x !in f.locals then args[x] else a.lit(0.0)
  }

  lemma {:induction false} TailCorrect<F(!new)>(a: Arith<F>, fuel: nat, s: Stmt, known: set<string>, env: Env<F>)
    requires Tail(s) && CompileStmt(s, true, known).Some? && known <= env.Keys
    ensures Exec(a, fuel, s, env).Returned? && Exec(a, fuel, s, env).env == env
    ensures RunSeq(a, fuel, CompileStmt(s, true, known).value, env, []) == Normal(env, [F32(Exec(a, fuel, s, env).value)])
  {
    var code := CompileStmt(s, true, known).value;
    assert code + [] == code;
    match s
    case Return(e) => ExprCorrect(a, fuel, e.value, known, [], env, []);
    case If(test, body, orelse) =>
      var t, f := CompileBranch(body[0], known).value, CompileBranch(orelse[0], known).value;
      TestCorrect(a, fuel, test, known, [IfElse(t, f)], env, []);
      var b := EvalTest(a, test, env).value;
      IfCorrect(a, fuel, b, if b then body[0].result.value else orelse[0].result.value, t, f, known, [], env, []);
      var chosen := if b then body else orelse;
      assert ExecSeq(a, fuel, chosen, env) == Exec(a, fuel, chosen[0], env);
      assert [IfElse(t, f)] + [] == [IfElse(t, f)];
  }

  /** The emitted body and the source body agree at every fuel. */
  lemma {:induction false} BodyLockstep<F(!new)>(a: Arith<F>, fuel: nat, ss: seq<Stmt>, known: set<string>, env: Env<F>)
    requires |ss| > 0 && Tail(ss[|ss| - 1]) && (forall i | 0 <= i < |ss| - 1 :: Straight(ss[i]))
    requires CompileBody(ss, known).Some? && known <= env.Keys
    ensures
      var r := RunSeq(a, fuel, CompileBody(ss, known).value, env, []);
      match ExecSeq(a, fuel, ss, env)
      case Returned(v, env') => r == Normal(env', [F32(v)])
      case OutOfFuel => r == Result.OutOfFuel
      case _ => false
    decreases |ss|
  {
    var c, rest := CompileStmt(ss[0], |ss| == 1, known).value, CompileBody(ss[1..], known).value;
    if |ss| == 1 {
      TailCorrect(a, fuel, ss[0], known, env);
      assert c + [] == c;
    } else {
      StmtCorrect(a, fuel, ss[0], known, rest, env, []);
      var o := Exec(a, fuel, ss[0], env);
      assert [] + Residue(a, ss[0]) == [];
      if o.Next? {
        BodyLockstep(a, fuel, ss[1..], known, o.env);
      }
    }
  }

  /**
   Lockstep: with equal fuel both run out, or both return the same value and
   variables. The emitted code never traps and the source never gets stuck.
   */
  lemma SameResult<F(!new)>(a: Arith<F>, f: FunctionDef, args: map<string, F>, n: nat)
    requires CompileFunction(f).Some? && WellShaped(f)
    ensures
      var w := CompileFunction(f).value;
      match ExecSeq(a, n, f.body, Initial(a, w, args))
      case Returned(v, env) => Invoke(a, n, w, Initial(a, w, args)) == Normal(env, [F32(v)])
      case OutOfFuel => Invoke(a, n, w, Initial(a, w, args)) == Result.OutOfFuel
      case _ => false
  {
    var w := CompileFunction(f).value;
    BodyLockstep(a, n, f.body, ParamSet(f) + w.locals, Initial(a, w, args));
  }

  /**
   Compiler correctness. For every accepted, well-shaped function, every
   interpretation of the f32 operations and every argument, the emitted function
   returns `v` with final variables `env` if and only if the source does.
   */
  lemma CompilerCorrect<F(!new)>(a: Arith<F>, f: FunctionDef, args: map<string, F>, v: F, env: Env<F>)
    requires CompileFunction(f).Some? && WellShaped(f)
    ensures
      var w := CompileFunction(f).value;
      (exists n: nat :: ExecSeq(a, n, f.body, Initial(a, w, args)) == Returned(v, env)) <==>
      (exists n: nat :: Invoke(a, n, w, Initial(a, w, args)) == Normal(env, [F32(v)]))
  {
    var w := CompileFunction(f).value;
    var start := Initial(a, w, args);
    if n: nat :| ExecSeq(a, n, f.body, start) == Returned(v, env) {
      SameResult(a, f, args, n);
      assert Invoke(a, n, w, start) == Normal(env, [F32(v)]);
    }
    if n: nat :| Invoke(a, n, w, start) == Normal(env, [F32(v)]) {
      SameResult(a, f, args, n);
      assert ExecSeq(a, n, f.body, start) == Returned(v, env);
    }
  }

}
