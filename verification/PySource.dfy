/**
 The Python subset the micro-compiler reads, and its meaning.

 Numbers are abstract: `Arith` packs one interpretation of the f32 operations
 and is shared by the source and by the WebAssembly semantics, so every theorem
 holds for every choice of operations, IEEE 754 single precision included.
 */
module PySource {
  import opened Prelude

  /** One interpretation of f32 literals, arithmetic and comparison. */
  datatype Arith<!F(!new)> = Arith(
    lit: real -> F,
    add: (F, F) -> F, sub: (F, F) -> F, mul: (F, F) -> F, div: (F, F) -> F,
    gt: (F, F) -> bool, ge: (F, F) -> bool, lt: (F, F) -> bool,
    le: (F, F) -> bool, eq: (F, F) -> bool, ne: (F, F) -> bool)

  datatype BinOp = Add | Sub | Mult | Div | OtherBinOp
  datatype UnaryOp = USub | OtherUnaryOp
  datatype CmpOp = Gt | GtE | Lt | LtE | Eq | NotEq | OtherCmpOp

  datatype Constant = BoolConst(b: bool) | NumConst(n: real) | NoneConst | OtherConst

  datatype Expr =
    | BinOp(op: BinOp, left: Expr, right: Expr)
    | UnaryOp(uop: UnaryOp, operand: Expr)
    | Name(id: string)
    | Constant(value: Constant)
    | IfExp(test: Expr, body: Expr, orelse: Expr)
    | Compare(first: Expr, ops: seq<CmpOp>, comparators: seq<Expr>)
    | OtherExpr

  datatype Target = NameTarget(id: string) | OtherTarget

  datatype Stmt =
    | Assign(targets: seq<Target>, value: Expr)
    | AnnAssign(target: Target, annValue: Option<Expr>)
    | Return(result: Option<Expr>)
    | If(test: Expr, body: seq<Stmt>, orelse: seq<Stmt>)
    | While(wtest: Expr, wbody: seq<Stmt>, worelse: seq<Stmt>)
    | ExprStmt(expr: Expr)
    | For(fbody: seq<Stmt>)
    | OtherStmt(nested: seq<Stmt>)

  datatype FunctionDef = FunctionDef(name: string, params: seq<string>, plain: bool, body: seq<Stmt>)

  /** A comparison the subset can express: exactly one operator. */
  predicate SingleCompare(e: Expr) {
    e.Compare? && |e.ops| == 1 && |e.comparators| == 1
  }

  // ----- meaning ---------------------------------------------------------

  type Env<F> = map<string, F>

  function ArithOp<F(!new)>(a: Arith<F>, op: BinOp, x: F, y: F): Option<F> {
    match op
    case Add => Some(a.add(x, y))
    case Sub => Some(a.sub(x, y))
    case Mult => Some(a.mul(x, y))
    case Div => Some(a.div(x, y))
    case OtherBinOp => None
  }

  function CompareOp<F(!new)>(a: Arith<F>, op: CmpOp, x: F, y: F): Option<bool> {
    match op
    case Gt => Some(a.gt(x, y))
    case GtE => Some(a.ge(x, y))
    case Lt => Some(a.lt(x, y))
    case LtE => Some(a.le(x, y))
    case Eq => Some(a.eq(x, y))
    case NotEq => Some(a.ne(x, y))
    case OtherCmpOp => None
  }

  /** The number an expression denotes; None outside the subset. `-x` is `-1 * x`. */
  function Eval<F(!new)>(a: Arith<F>, e: Expr, env: Env<F>): Option<F>
    decreases e, 0
  {
    match e
    case BinOp(op, left, right) =>
      var x :- Eval(a, left, env);
      var y :- Eval(a, right, env);
      ArithOp(a, op, x, y)
    case UnaryOp(USub, operand) =>
      var x :- Eval(a, operand, env);
      Some(a.mul(a.lit(-1.0), x))
    case Name(id) => if id in env then Some(env[id]) else None
    case Constant(BoolConst(b)) => Some(a.lit(if b then 1.0 else 0.0))
    case Constant(NumConst(n)) => Some(a.lit(n))
    case IfExp(test, body, orelse) =>
      var c :- EvalTest(a, test, env);
      if c then Eval(a, body, env) else Eval(a, orelse, env)
    case _ => None
  }

  /** The truth value of a condition; only single comparisons are conditions. */
  function EvalTest<F(!new)>(a: Arith<F>, e: Expr, env: Env<F>): Option<bool>
    decreases e, 1
  {
    if SingleCompare(e) then
      var x :- Eval(a, e.first, env);
      var y :- Eval(a, e.comparators[0], env);
      CompareOp(a, e.ops[0], x, y)
    else None
  }

  datatype Outcome<F> =
    | Next(env: Env<F>)
    | Returned(value: F, env: Env<F>)
    | OutOfFuel
    | Stuck

  /**
   Runs statements. `fuel` bounds the nesting of loop iterations: it drops by
   one on every iteration, and a run that terminates does so for some fuel.
   */
  function ExecSeq<F(!new)>(a: Arith<F>, fuel: nat, ss: seq<Stmt>, env: Env<F>): Outcome<F>
    decreases fuel, ss
  {
    if ss == [] then Next(env)
    else
      match Exec(a, fuel, ss[0], env)
      case Next(env') => ExecSeq(a, fuel, ss[1..], env')
      case other => other
  }

  function Exec<F(!new)>(a: Arith<F>, fuel: nat, s: Stmt, env: Env<F>): Outcome<F>
    decreases fuel, s
  {
    match s
    case Assign(targets, value) =>
      if |targets| == 1 && targets[0].NameTarget? then
        match Eval(a, value, env)
        case Some(v) => Next(env[targets[0].id := v])
        case None => Stuck
      else Stuck
    case AnnAssign(NameTarget(id), Some(value)) =>
      (match Eval(a, value, env)
       case Some(v) => Next(env[id := v])
       case None => Stuck)
    case Return(Some(e)) =>
      (match Eval(a, e, env)
       case Some(v) => Returned(v, env)
       case None => Stuck)
    case If(test, body, orelse) =>
      (match EvalTest(a, test, env)
       case Some(c) => if c then ExecSeq(a, fuel, body, env) else ExecSeq(a, fuel, orelse, env)
       case None => Stuck)
    case While(test, body, _) =>
      if fuel == 0 then OutOfFuel
      else
        (match EvalTest(a, test, env)
         case None => Stuck
         case Some(false) => Next(env)
         case Some(true) =>
           match ExecSeq(a, fuel - 1, body, env)
           case Next(env') => Exec(a, fuel - 1, s, env')
           case other => other)
    case ExprStmt(Constant(NoneConst)) => Next(env)
    case ExprStmt(e) => if Eval(a, e, env).Some? then Next(env) else Stuck
    case _ => Stuck
  }

  /** More fuel never changes the outcome of a run that already finished. */
  lemma {:induction false} FuelMonotone<F(!new)>(a: Arith<F>, fuel: nat, more: nat, ss: seq<Stmt>, env: Env<F>)
    requires fuel <= more
    requires !ExecSeq(a, fuel, ss, env).OutOfFuel?
    ensures ExecSeq(a, more, ss, env) == ExecSeq(a, fuel, ss, env)
    decreases fuel, ss
  {
    if ss != [] {
      FuelMonotoneStmt(a, fuel, more, ss[0], env);
      var r := Exec(a, fuel, ss[0], env);
      if r.Next? {
        FuelMonotone(a, fuel, more, ss[1..], r.env);
      }
    }
  }

  lemma {:induction false} FuelMonotoneStmt<F(!new)>(a: Arith<F>, fuel: nat, more: nat, s: Stmt, env: Env<F>)
    requires fuel <= more
    requires !Exec(a, fuel, s, env).OutOfFuel?
    ensures Exec(a, more, s, env) == Exec(a, fuel, s, env)
    decreases fuel, s
  {
    match s
    case If(test, body, orelse) =>
      var c := EvalTest(a, test, env);
      if c.Some? {
        FuelMonotone(a, fuel, more, if c.value then body else orelse, env);
      }
    case While(test, body, _) =>
      if EvalTest(a, test, env) == Some(true) {
        FuelMonotone(a, fuel - 1, more - 1, body, env);
        var r := ExecSeq(a, fuel - 1, body, env);
        if r.Next? {
          FuelMonotoneStmt(a, fuel - 1, more - 1, s, r.env);
        }
      }
    case _ =>
  }
}
