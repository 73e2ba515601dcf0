/**
 The micro-compiler: `AgentCodeCompiler` lowering one function definition to a
 WebAssembly function. `None` stands for a raised `CompilationError`.
 The functions are the compiler's own recursion; the class below keeps its
 mutable context and its loops, each proved equal to the functions.
 */
module Toolchain {
  import opened Prelude
  import opened PySource
  import opened Wasm

  function LowerBinOp(op: BinOp): Option<FloatOp> {
    match op
    case Add => Some(F32Add)
    case Sub => Some(F32Sub)
    case Mult => Some(F32Mul)
    case Div => Some(F32Div)
    case OtherBinOp => None
  }

  function LowerCmpOp(op: CmpOp): Option<RelOp> {
    match op
    case Gt => Some(F32Gt)
    case GtE => Some(F32Ge)
    case Lt => Some(F32Lt)
    case LtE => Some(F32Le)
    case Eq => Some(F32Eq)
    case NotEq => Some(F32Ne)
    case OtherCmpOp => None
  }

  function CompileExpr(e: Expr, known: set<string>): Option<seq<Instr>>
    decreases e, 1
  {
    match e
    case BinOp(op, left, right) =>
      var o :- LowerBinOp(op);
      var l :- CompileExpr(left, known);
      var r :- CompileExpr(right, known);
      Some(l + r + [Float(o)])
    case UnaryOp(USub, operand) =>
      var c :- CompileExpr(operand, known);
      Some([F32Const(-1.0)] + c + [Float(F32Mul)])
    case Name(id) => if id in known then Some([LocalGet(id)]) else None
    case Constant(BoolConst(b)) => Some([F32Const(if b then 1.0 else 0.0)])
    case Constant(NumConst(n)) => Some([F32Const(n)])
    case IfExp(test, body, orelse) =>
      var c :- CompileCompare(test, known);
      var t :- CompileExpr(body, known);
      var f :- CompileExpr(orelse, known);
      Some(c + [IfElse(t, f)])
    case Compare(_, _, _) => CompileCompare(e, known)
    case _ => None
  }

  function CompileCompare(e: Expr, known: set<string>): Option<seq<Instr>>
    decreases e, 0
  {
    if SingleCompare(e) then
      var o :- LowerCmpOp(e.ops[0]);
      var l :- CompileExpr(e.first, known);
      var r :- CompileExpr(e.comparators[0], known);
      Some(l + r + [Rel(o)])
    else None
  }

  function CompileBranch(s: Stmt, known: set<string>): Option<seq<Instr>> {
    match s
    case Return(Some(e)) => CompileExpr(e, known)
    case ExprStmt(e) => CompileExpr(e, known)
    case _ => None
  }

  function CompileAssignTo(id: string, value: Expr, known: set<string>): Option<seq<Instr>> {
    if id !in known then None
    else
      var c :- CompileExpr(value, known);
      Some(c + [LocalSet(id)])
  }

  function CompileStmt(s: Stmt, tail: bool, known: set<string>): Option<seq<Instr>>
    decreases s
  {
    match s
    case Assign(targets, value) =>
      if |targets| == 1 && targets[0].NameTarget? then CompileAssignTo(targets[0].id, value, known) else None
    case AnnAssign(NameTarget(id), Some(value)) => CompileAssignTo(id, value, known)
    case Return(Some(e)) => CompileExpr(e, known)
    case If(test, body, orelse) =>
      if |body| != 1 || |orelse| != 1 then None
      else
        var c :- CompileCompare(test, known);
        var t :- CompileBranch(body[0], known);
        var f :- CompileBranch(orelse[0], known);
        Some(c + [IfElse(t, f)])
    case While(test, body, orelse) =>
      if orelse != [] || body == [] then None
      else
        var b :- CompileLoopBody(body, known);
        var c :- CompileCompare(test, known);
        Some([WhileCode(c, b)])
    case ExprStmt(Constant(NoneConst)) => Some([F32Const(0.0)])
    case ExprStmt(e) => if tail then CompileExpr(e, known) else None
    case _ => None
  }

  /** The shape every `while` is lowered to. */
  function WhileCode(test: seq<Instr>, body: seq<Instr>): Instr {
    Block([Loop(test + [I32Eqz, BrIf(1)] + body + [Br(0)])])
  }

  function CompileLoopBody(ss: seq<Stmt>, known: set<string>): Option<seq<Instr>>
    decreases ss
  {
    if ss == [] then Some([])
    else if ss[0].Return? || ss[0].If? then None
    else
      var c :- CompileStmt(ss[0], false, known);
      var rest :- CompileLoopBody(ss[1..], known);
      Some(c + rest)
  }

  /** A function body: only the last statement is compiled as the tail. */
  function CompileBody(ss: seq<Stmt>, known: set<string>): Option<seq<Instr>>
    decreases ss
  {
    if ss == [] then Some([])
    else
      var c :- CompileStmt(ss[0], |ss| == 1, known);
      var rest :- CompileBody(ss[1..], known);
      Some(c + rest)
  }

  // ----- local analysis --------------------------------------------------

  /** Assignment targets anywhere in the statements; None for an unsupported target or a `for`. */
  function AssignedNames(ss: seq<Stmt>): Option<set<string>>
    decreases ss
  {
    if ss == [] then Some({})
    else
      var a :- AssignedIn(ss[0]);
      var b :- AssignedNames(ss[1..]);
      Some(a + b)
  }

  function AssignedIn(s: Stmt): Option<set<string>>
    decreases s
  {
    match s
    case Assign(targets, _) =>
      if forall t | t in targets :: t.NameTarget? then Some(set t | t in targets && t.NameTarget? :: t.id) else None
    case AnnAssign(NameTarget(id), _) => Some({id})
    case AnnAssign(OtherTarget, _) => None
    case For(_) => None
    case If(_, body, orelse) =>
      var a :- AssignedNames(body);
      var b :- AssignedNames(orelse);
      Some(a + b)
    case While(_, body, orelse) =>
      var a :- AssignedNames(body);
      var b :- AssignedNames(orelse);
      Some(a + b)
    case OtherStmt(nested) => AssignedNames(nested)
    case _ => Some({})
  }

  function ParamSet(f: FunctionDef): set<string> { set p | p in f.params }

  function CompileFunction(f: FunctionDef): Option<WatFunction> {
    if !f.plain then None
    else
      var names :- AssignedNames(f.body);
      var locals := names - ParamSet(f);
      var code :- CompileBody(f.body, ParamSet(f) + locals);
      Some(WatFunction(f.name, f.params, locals, code))
  }

  // ----- the compiler object ---------------------------------------------

  datatype FunctionContext = FunctionContext(name: string, params: seq<string>, locals: set<string>)

  function Prepend(lines: seq<Instr>, rest: Option<seq<Instr>>): (r: Option<seq<Instr>>)
    ensures lines == [] ==> r == rest
  {
    if rest.Some? then (assert lines == [] ==> lines + rest.value == rest.value; Some(lines + rest.value)) else None
  }

  class AgentCodeCompiler {
    var functions: seq<WatFunction>
    var context: Option<FunctionContext>

    constructor ()
      ensures functions == [] && context == None
    {
      functions, context := [], None;
    }

    function Known(): set<string>
      reads this
    {
      if context.None? then {} else (set p | p in context.value.params) + context.value.locals
    }

    /** Collects, in a loop over the statements, every assigned name that is not a parameter. */
    method CollectLocalNames(statements: seq<Stmt>, params: seq<string>) returns (names: Option<set<string>>)
      ensures AssignedNames(statements).None? ==> names == None
      ensures AssignedNames(statements).Some? ==> names == Some(AssignedNames(statements).value - set p | p in params)
    {
      var paramSet := set p | p in params;
      var found: set<string> := {};
      for i := 0 to |statements|
        invariant AssignedNames(statements).Some? <==> AssignedNames(statements[i..]).Some?
        invariant AssignedNames(statements).Some? ==>
            AssignedNames(statements).value - paramSet == found + (AssignedNames(statements[i..]).value - paramSet)
      {
        assert statements[i..][0] == statements[i] && statements[i..][1..] == statements[i + 1..];
        var here := AssignedIn(statements[i]);
        if here.None? { return None; }
        found := found + (here.value - paramSet);
      }
      assert statements[|statements|..] == [];
      assert found + ({} - paramSet) == found;
      return Some(found);
    }

    method CompileWhile(s: Stmt) returns (code: Option<seq<Instr>>)
      requires s.While?
      ensures code == CompileStmt(s, false, Known())
      decreases s, 0
    {
      if s.worelse != [] || s.wbody == [] { return None; }
      var lines: seq<Instr> := [];
      assert s.wbody[0..] == s.wbody;
      for i := 0 to |s.wbody|
        invariant CompileLoopBody(s.wbody, Known()) == Prepend(lines, CompileLoopBody(s.wbody[i..], Known()))
      {
        assert s.wbody[i..][0] == s.wbody[i] && s.wbody[i..][1..] == s.wbody[i + 1..];
        if s.wbody[i].Return? || s.wbody[i].If? { return None; }
        var c := CompileStatement(s.wbody[i], false);
        if c.None? { return None; }
        ghost var before := lines;
        lines := lines + c.value;
        assert forall rest: seq<Instr> {:trigger lines + rest} :: before + (c.value + rest) == lines + rest;
      }
      assert s.wbody[|s.wbody|..] == [];
      assert lines + [] == lines;
      var test := CompileCompare(s.wtest, Known());
      if test.None? { return None; }
      return Some([WhileCode(test.value, lines)]);
    }

    method CompileStatement(s: Stmt, tail: bool) returns (code: Option<seq<Instr>>)
      ensures code == CompileStmt(s, tail, Known())
      decreases s, 1
    {
      if s.While? {
        code := CompileWhile(s);
      } else {
        code := CompileStmt(s, tail, Known());
      }
    }

    /** Compiles one definition; on success the function is appended and the context cleared. */
    method VisitFunctionDef(f: FunctionDef) returns (ok: bool)
      modifies this
      ensures old(context).Some? ==> !ok && functions == old(functions) && context == old(context)
      ensures old(context).None? ==> (ok <==> CompileFunction(f).Some?)
      ensures ok ==> functions == old(functions) + [CompileFunction(f).value] && context == None
      ensures !ok ==> functions == old(functions)
    {
      if context.Some? || !f.plain { return false; }
      context := Some(FunctionContext(f.name, f.params, {}));
      var names := CollectLocalNames(f.body, f.params);
      if names.None? { return false; }
      context := Some(FunctionContext(f.name, f.params, names.value));
      assert Known() == ParamSet(f) + names.value;
      var lines: seq<Instr> := [];
      assert f.body[0..] == f.body;
      for i := 0 to |f.body|
        invariant functions == old(functions) && context == Some(FunctionContext(f.name, f.params, names.value))
        invariant CompileBody(f.body, Known()) == Prepend(lines, CompileBody(f.body[i..], Known()))
      {
        assert f.body[i..][0] == f.body[i] && f.body[i..][1..] == f.body[i + 1..];
        var c := CompileStatement(f.body[i], i == |f.body| - 1);
        if c.None? { return false; }
        ghost var before := lines;
        lines := lines + c.value;
        assert forall rest: seq<Instr> {:trigger lines + rest} :: before + (c.value + rest) == lines + rest;
      }
      assert f.body[|f.body|..] == [];
      assert lines + [] == lines;
      functions := functions + [WatFunction(f.name, f.params, names.value, lines)];
      context := None;
      return true;
    }
  }
}
