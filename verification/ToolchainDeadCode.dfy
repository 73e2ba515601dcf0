/**
 Statements after a top-level `return`. The source never reaches them, the
 emitted code runs them with the returned value waiting on the operand stack.
 What the code computes, and when that is what the source computes.
 */
module ToolchainDeadCode {
  import opened Prelude
  import opened PySource
  import opened Wasm
  import opened Toolchain
  import opened ToolchainCorrect
  import opened ToolchainValid

  /** A `return`, or an `if` whose two branches return. */
  predicate Returning(s: Stmt) {
    s.Return? || (s.If? && |s.body| == 1 && |s.orelse| == 1 && s.body[0].Return? && s.orelse[0].Return?)
  }

  /** Everything but the returning statement at `k` is an assignment or a loop. */
  predicate ReturnsAt(ss: seq<Stmt>, k: nat) {
    k < |ss| && Tail(ss[k]) && forall i | 0 <= i < |ss| && i != k :: Straight(ss[i])
  }

  // ----- the shape of valid code -----------------------------------------

  lemma {:induction false} NoProducer(ss: seq<Stmt>, i: nat)
    requires CountProducers(ss) == 0 && i < |ss|
    ensures !Produces(ss[i])
    decreases i
  {
    if i > 0 { NoProducer(ss[1..], i - 1); }
  }

  lemma {:induction false} OneProducer(ss: seq<Stmt>, k: nat, i: nat)
    requires CountProducers(ss) == 1 && k < |ss| && i < |ss| && i != k && Produces(ss[k])
    ensures !Produces(ss[i])
    decreases |ss|
  {
    if k == 0 {
      NoProducer(ss[1..], i - 1);
    } else {
      if Produces(ss[0]) { NoProducer(ss[1..], k - 1); }
      if i > 0 { OneProducer(ss[1..], k - 1, i - 1); }
    }
  }

  /** An accepted numeric statement that leaves no value is an assignment or a loop. */
  lemma {:induction false} StraightWhen(s: Stmt, tail: bool, known: set<string>)
    requires CompileStmt(s, tail, known).Some? && NumericStmt(s) && !Produces(s)
    ensures Straight(s)
    decreases s, 1
  {
    if s.While? { SimpleBody(s.wbody, known); }
  }

  lemma {:induction false} SimpleBody(ss: seq<Stmt>, known: set<string>)
    requires CompileLoopBody(ss, known).Some? && forall b | b in ss :: NumericStmt(b)
    ensures forall b | b in ss :: Simple(b)
    decreases ss, 0
  {
    if ss != [] {
      assert ss[0] in ss && forall b | b in ss[1..] :: b in ss;
      if !Produces(ss[0]) { StraightWhen(ss[0], false, known); }
      SimpleBody(ss[1..], known);
      assert ss == [ss[0]] + ss[1..];
    }
  }

  lemma {:induction false} CompiledAt(ss: seq<Stmt>, known: set<string>, i: nat)
    requires CompileBody(ss, known).Some? && i < |ss|
    ensures CompileStmt(ss[i], i == |ss| - 1, known).Some?
    decreases i
  {
    if i > 0 { CompiledAt(ss[1..], known, i - 1); }
  }

  /** Accepted, valid, and returning at `k`: the rest of the body is assignments and loops. */
  lemma ValidReturns(f: FunctionDef, k: nat)
    requires CompileFunction(f).Some? && ValidFunction(CompileFunction(f).value) && k < |f.body| && Returning(f.body[k])
    ensures ReturnsAt(f.body, k)
  {
    ValidIff(f);
    var known := ParamSet(f) + CompileFunction(f).value.locals;
    forall i | 0 <= i < |f.body| && i != k ensures Straight(f.body[i]) {
      OneProducer(f.body, k, i);
      CompiledAt(f.body, known, i);
      assert f.body[i] in f.body;
      StraightWhen(f.body[i], i == |f.body| - 1, known);
    }
    CompiledAt(f.body, known, k);
    assert f.body[k] in f.body && NumericStmt(f.body[k]);
    TailWhen(f.body[k], k == |f.body| - 1, known);
  }

  lemma TailWhen(s: Stmt, tail: bool, known: set<string>)
    requires CompileStmt(s, tail, known).Some? && NumericStmt(s) && Returning(s)
    ensures Tail(s)
  {
    if s.If? { assert s.body[0] in s.body && s.orelse[0] in s.orelse; }
  }

  // ----- lockstep --------------------------------------------------------

  lemma {:induction false} TailThen<F(!new)>(a: Arith<F>, fuel: nat, s: Stmt, tail: bool, known: set<string>, rest: seq<Instr>, env: Env<F>, stack: seq<Val<F>>)
    requires Tail(s) && CompileStmt(s, tail, known).Some? && known <= env.Keys
    ensures Exec(a, fuel, s, env).Returned? && Exec(a, fuel, s, env).env == env
    ensures RunSeq(a, fuel, CompileStmt(s, tail, known).value + rest, env, stack)
         == RunSeq(a, fuel, rest, env, stack + [F32(Exec(a, fuel, s, env).value)])
  {
    hide Run, RunSeq;
    match s
    case Return(e) => ExprCorrect(a, fuel, e.value, known, rest, env, stack);
    case If(test, body, orelse) =>
      var t, f := CompileBranch(body[0], known).value, CompileBranch(orelse[0], known).value;
      assert CompileStmt(s, tail, known).value + rest == CompileCompare(test, known).value + ([IfElse(t, f)] + rest);
      TestCorrect(a, fuel, test, known, [IfElse(t, f)] + rest, env, stack);
      var b := EvalTest(a, test, env).value;
      IfCorrect(a, fuel, b, if b then body[0].result.value else orelse[0].result.value, t, f, known, rest, env, stack);
      var chosen := if b then body else orelse;
      assert ExecSeq(a, fuel, chosen, env) == Exec(a, fuel, chosen[0], env);
  }

  /** Assignments and loops leave the operand stack as they found it. */
  lemma {:induction false} StraightRun<F(!new)>(a: Arith<F>, fuel: nat, ss: seq<Stmt>, known: set<string>, env: Env<F>, stack: seq<Val<F>>)
    requires (forall s | s in ss :: Straight(s)) && CompileBody(ss, known).Some? && known <= env.Keys
    ensures
      var r := RunSeq(a, fuel, CompileBody(ss, known).value, env, stack);
      match ExecSeq(a, fuel, ss, env)
      case Next(env') => r == Normal(env', stack)
      case OutOfFuel => r == Result.OutOfFuel
      case _ => false
    decreases |ss|
  {
    if ss != [] {
      var c, rest := CompileStmt(ss[0], |ss| == 1, known).value, CompileBody(ss[1..], known).value;
      assert ss[0] in ss && forall s | s in ss[1..] :: s in ss;
      StmtCorrect(a, fuel, ss[0], known, rest, env, stack);
      assert stack + Residue(a, ss[0]) == stack;
      var o := Exec(a, fuel, ss[0], env);
      if o.Next? { StraightRun(a, fuel, ss[1..], known, o.env, stack); }
    }
  }

  /** With equal fuel: the code runs the statements up to `k`, pushes the value, and runs the rest. */
  lemma {:induction false} DeadLockstep<F(!new)>(a: Arith<F>, fuel: nat, ss: seq<Stmt>, k: nat, known: set<string>, env: Env<F>)
    requires ReturnsAt(ss, k) && CompileBody(ss, known).Some? && known <= env.Keys
    ensures
      var r := RunSeq(a, fuel, CompileBody(ss, known).value, env, []);
      match ExecSeq(a, fuel, ss, env)
      case OutOfFuel => r == Result.OutOfFuel
      case Returned(v, env1) =>
        (match ExecSeq(a, fuel, ss[k + 1..], env1)
         case Next(env2) => r == Normal(env2, [F32(v)])
         case OutOfFuel => r == Result.OutOfFuel
         case _ => false)
      case _ => false
    ensures ExecSeq(a, fuel, ss, env).Returned? ==> known <= ExecSeq(a, fuel, ss, env).env.Keys
    decreases k
  {
    var c, rest := CompileStmt(ss[0], |ss| == 1, known).value, CompileBody(ss[1..], known).value;
    var o := Exec(a, fuel, ss[0], env);
    if k == 0 {
      TailThen(a, fuel, ss[0], |ss| == 1, known, rest, env, []);
      assert [] + [F32(o.value)] == [F32(o.value)];
      StraightRun(a, fuel, ss[1..], known, env, [F32(o.value)]);
    } else {
      StmtCorrect(a, fuel, ss[0], known, rest, env, []);
      assert [] + Residue(a, ss[0]) == [];
      if o.Next? {
        DeadLockstep(a, fuel, ss[1..], k - 1, known, o.env);
        assert ss[1..][k..] == ss[k + 1..];
      }
    }
  }

  // ----- what dead code does ---------------------------------------------

  ghost predicate SourceReturns<F(!new)>(a: Arith<F>, f: FunctionDef, args: map<string, F>, v: F, env: Env<F>)
    requires CompileFunction(f).Some?
  {
    exists n: nat :: ExecSeq(a, n, f.body, Initial(a, CompileFunction(f).value, args)) == Returned(v, env)
  }

  ghost predicate CodeReturns<F(!new)>(a: Arith<F>, f: FunctionDef, args: map<string, F>, v: F, env: Env<F>)
    requires CompileFunction(f).Some?
  {
    exists n: nat :: Invoke(a, n, CompileFunction(f).value, Initial(a, CompileFunction(f).value, args)) == Normal(env, [F32(v)])
  }

  /** Run from `env`, the statements come to their end in `env'`. */
  ghost predicate Finishes<F(!new)>(a: Arith<F>, ss: seq<Stmt>, env: Env<F>, env': Env<F>) {
    exists n: nat :: ExecSeq(a, n, ss, env) == Next(env')
  }

  lemma SourceOnce<F(!new)>(a: Arith<F>, f: FunctionDef, args: map<string, F>, v: F, env: Env<F>, v': F, env': Env<F>)
    requires CompileFunction(f).Some? && SourceReturns(a, f, args, v, env) && SourceReturns(a, f, args, v', env')
    ensures v == v' && env == env'
  {
    var start := Initial(a, CompileFunction(f).value, args);
    var n: nat :| ExecSeq(a, n, f.body, start) == Returned(v, env);
    var m: nat :| ExecSeq(a, m, f.body, start) == Returned(v', env');
    var top := if n < m then m else n;
    PySource.FuelMonotone(a, n, top, f.body, start);
    PySource.FuelMonotone(a, m, top, f.body, start);
  }

  lemma FinishesOnce<F(!new)>(a: Arith<F>, ss: seq<Stmt>, env: Env<F>, e1: Env<F>, e2: Env<F>)
    requires Finishes(a, ss, env, e1) && Finishes(a, ss, env, e2)
    ensures e1 == e2
  {
    var n: nat :| ExecSeq(a, n, ss, env) == Next(e1);
    var m: nat :| ExecSeq(a, m, ss, env) == Next(e2);
    var top := if n < m then m else n;
    PySource.FuelMonotone(a, n, top, ss, env);
    PySource.FuelMonotone(a, m, top, ss, env);
  }

  /** The same for an invocation of the function. */
  lemma DeadInvoke<F(!new)>(a: Arith<F>, f: FunctionDef, args: map<string, F>, k: nat, n: nat)
    requires CompileFunction(f).Some? && ReturnsAt(f.body, k)
    ensures
      var w := CompileFunction(f).value;
      var start := Initial(a, w, args);
      var r := Invoke(a, n, w, start);
      match ExecSeq(a, n, f.body, start)
      case OutOfFuel => r == Result.OutOfFuel
      case Returned(v, env1) =>
        (match ExecSeq(a, n, f.body[k + 1..], env1)
         case Next(env2) => r == Normal(env2, [F32(v)])
         case OutOfFuel => r == Result.OutOfFuel
         case _ => false)
      case _ => false
  {
    var w := CompileFunction(f).value;
    DeadLockstep(a, n, f.body, k, ParamSet(f) + w.locals, Initial(a, w, args));
    hide ReturnsAt, ExecSeq, RunSeq;
    forall v: F ensures [] + [F32(v)] == [F32(v)] { }
  }

  /**
   What dead code does. For every accepted, valid function whose value is
   produced by a `return`, or an `if` of returns, at position `k`: the emitted
   function returns `v` with final variables `env` exactly when the source
   returns `v` and the statements after `k`, run from the source's final
   variables, come to their end in `env`.
   */
  lemma DeadCodeRuns<F(!new)>(a: Arith<F>, f: FunctionDef, args: map<string, F>, k: nat, v: F, env: Env<F>)
    requires CompileFunction(f).Some? && ValidFunction(CompileFunction(f).value) && k < |f.body| && Returning(f.body[k])
    ensures CodeReturns(a, f, args, v, env) <==>
            exists env0 :: SourceReturns(a, f, args, v, env0) && Finishes(a, f.body[k + 1..], env0, env)
  {
    hide *;
    ValidReturns(f, k);
    var w := CompileFunction(f).value;
    var start, rest := Initial(a, w, args), f.body[k + 1..];
    if CodeReturns(a, f, args, v, env) {
      var n := CodeFuel(a, f, args, v, env);
      DeadInvoke(a, f, args, k, n);
      var env0 := ExecSeq(a, n, f.body, start).env;
      SourceAt(a, f, args, n, v, env0);
      FinishesAt(a, n, rest, env0, env);
    }
    if env0 :| SourceReturns(a, f, args, v, env0) && Finishes(a, rest, env0, env) {
      var n := BothFuel(a, f, args, rest, v, env0, env);
      DeadInvoke(a, f, args, k, n);
      CodeAt(a, f, args, n, v, env);
    }
  }

  lemma CodeFuel<F(!new)>(a: Arith<F>, f: FunctionDef, args: map<string, F>, v: F, env: Env<F>) returns (n: nat)
    requires CompileFunction(f).Some? && CodeReturns(a, f, args, v, env)
    ensures Invoke(a, n, CompileFunction(f).value, Initial(a, CompileFunction(f).value, args)) == Normal(env, [F32(v)])
  {
    n :| Invoke(a, n, CompileFunction(f).value, Initial(a, CompileFunction(f).value, args)) == Normal(env, [F32(v)]);
  }

  lemma CodeAt<F(!new)>(a: Arith<F>, f: FunctionDef, args: map<string, F>, n: nat, v: F, env: Env<F>)
    requires CompileFunction(f).Some?
    requires Invoke(a, n, CompileFunction(f).value, Initial(a, CompileFunction(f).value, args)) == Normal(env, [F32(v)])
    ensures CodeReturns(a, f, args, v, env)
  {
  }

  lemma SourceAt<F(!new)>(a: Arith<F>, f: FunctionDef, args: map<string, F>, n: nat, v: F, env: Env<F>)
    requires CompileFunction(f).Some? && ExecSeq(a, n, f.body, Initial(a, CompileFunction(f).value, args)) == Returned(v, env)
    ensures SourceReturns(a, f, args, v, env)
  {
  }

  lemma FinishesAt<F(!new)>(a: Arith<F>, n: nat, ss: seq<Stmt>, env: Env<F>, env': Env<F>)
    requires ExecSeq(a, n, ss, env) == Next(env')
    ensures Finishes(a, ss, env, env')
  {
  }

  /** Enough fuel for the source and for the statements after it. */
  lemma BothFuel<F(!new)>(a: Arith<F>, f: FunctionDef, args: map<string, F>, rest: seq<Stmt>, v: F, env0: Env<F>, env: Env<F>) returns (n: nat)
    requires CompileFunction(f).Some? && SourceReturns(a, f, args, v, env0) && Finishes(a, rest, env0, env)
    ensures ExecSeq(a, n, f.body, Initial(a, CompileFunction(f).value, args)) == Returned(v, env0)
    ensures ExecSeq(a, n, rest, env0) == Next(env)
  {
    var start := Initial(a, CompileFunction(f).value, args);
    var i: nat :| ExecSeq(a, i, f.body, start) == Returned(v, env0);
    var j: nat :| ExecSeq(a, j, rest, env0) == Next(env);
    n := if i < j then j else i;
    PySource.FuelMonotone(a, i, n, f.body, start);
    PySource.FuelMonotone(a, j, n, rest, env0);
  }

  /**
   When dead code is harmless: on given arguments the emitted function and the
   source agree, on the value, the final variables and whether they return at
   all, if and only if the trailing statements, run from the source's final
   variables, come to their end and leave them as they were.
   */
  lemma DeadCodeHarmlessIff<F(!new)>(a: Arith<F>, f: FunctionDef, args: map<string, F>, k: nat)
    requires CompileFunction(f).Some? && ValidFunction(CompileFunction(f).value) && k < |f.body| && Returning(f.body[k])
    ensures (forall v, env: Env<F> :: CodeReturns(a, f, args, v, env) <==> SourceReturns(a, f, args, v, env)) <==>
            (forall v, env: Env<F> | SourceReturns(a, f, args, v, env) :: Finishes(a, f.body[k + 1..], env, env))
  {
    hide SourceReturns, CodeReturns, Finishes, ValidFunction, CompileFunction, Returning;
    var rest := f.body[k + 1..];
    forall v, env: Env<F> ensures CodeReturns(a, f, args, v, env) <==> exists env0 :: SourceReturns(a, f, args, v, env0) && Finishes(a, rest, env0, env) {
      DeadCodeRuns(a, f, args, k, v, env);
    }
    forall v, e1: Env<F>, e2: Env<F> | SourceReturns(a, f, args, v, e1) && SourceReturns(a, f, args, v, e2) ensures e1 == e2 {
      SourceOnce(a, f, args, v, e1, v, e2);
    }
    forall e0: Env<F>, e1: Env<F>, e2: Env<F> | Finishes(a, rest, e0, e1) && Finishes(a, rest, e0, e2) ensures e1 == e2 {
      FinishesOnce(a, rest, e0, e1, e2);
    }
  }
}
