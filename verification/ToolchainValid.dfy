/**
 Validity of the emitted code (WebAssembly Core Specification 1.0, section
 3.3.5): exactly which accepted functions assemble to a valid module, and why
 dead code after a `return` is not covered by compiler correctness.
 */
module ToolchainValid {
  import opened Prelude
  import opened PySource
  import opened Wasm
  import opened Toolchain
  import opened ToolchainCorrect

  /** The type a compiled expression leaves, or None when its code cannot validate. */
  function TypeOf(e: Expr): Option<ValType> {
    if NumericExpr(e) then Some(TF32) else if e.Compare? && NumericTest(e) then Some(TI32) else None
  }

  /** Every value position of the statement holds a number, never a comparison. */
  predicate NumericStmt(s: Stmt)
    decreases s
  {
    match s
    case Assign(_, e) => NumericExpr(e)
    case AnnAssign(_, Some(e)) => NumericExpr(e)
    case Return(Some(e)) => NumericExpr(e)
    case If(t, body, orelse) =>
      NumericTest(t) && (forall b | b in body :: NumericStmt(b)) && (forall b | b in orelse :: NumericStmt(b))
    case While(t, body, _) => NumericTest(t) && forall b | b in body :: NumericStmt(b)
    case ExprStmt(e) => NumericExpr(e)
    case _ => true
  }

  /** Top-level statements that leave a value: `return`, `if`, bare `None`, a tail expression. */
  predicate Produces(s: Stmt) {
    s.Return? || s.If? || s.ExprStmt?
  }

  function CountProducers(ss: seq<Stmt>): nat {
    if ss == [] then 0 else (if Produces(ss[0]) then 1 else 0) + CountProducers(ss[1..])
  }

  /** The types a statement's code pushes, or None when it cannot validate. */
  function Effect(s: Stmt): Option<seq<ValType>> {
    if Produces(s) then
      match s
      case Return(Some(e)) => TypeOf1(e)
      case ExprStmt(e) => TypeOf1(e)
      case _ => if NumericStmt(s) then Some([TF32]) else None
    else if NumericStmt(s) then Some([]) else None
  }

  function TypeOf1(e: Expr): Option<seq<ValType>> {
    var t :- TypeOf(e);
    Some([t])
  }

  function EffectSeq(ss: seq<Stmt>): Option<seq<ValType>> {
    if ss == [] then Some([])
    else
      var x :- Effect(ss[0]);
      var y :- EffectSeq(ss[1..]);
      Some(x + y)
  }

  /** Continue checking after pushing `ts`; None stays None. */
  function After(ts: Option<seq<ValType>>, rest: seq<Instr>, vars: set<string>, labels: seq<seq<ValType>>, st: OpTypes): Option<OpTypes> {
    if ts.Some? then CheckSeq(rest, vars, labels, OpTypes(st.types + ts.value, false)) else None
  }

  lemma CheckAppend(i: Instr, rest: seq<Instr>, vars: set<string>, labels: seq<seq<ValType>>, st: OpTypes)
    ensures
      var r := Check(i, vars, labels, st);
      CheckSeq([i] + rest, vars, labels, st) == if r.Some? then CheckSeq(rest, vars, labels, r.value) else None
  {
    assert ([i] + rest)[1..] == rest;
  }

  /** A two-operand instruction over operands of any two types. */
  lemma BinaryCheck(i: Instr, out: ValType, l: ValType, r: ValType, rest: seq<Instr>, vars: set<string>, labels: seq<seq<ValType>>, st: OpTypes)
    requires !st.poly && ((i.Float? && out == TF32) || (i.Rel? && out == TI32))
    ensures CheckSeq([i] + rest, vars, labels, OpTypes(st.types + [l] + [r], false)) ==
            if l == TF32 && r == TF32 then CheckSeq(rest, vars, labels, Push(st, out)) else None
  {
    var s2 := OpTypes(st.types + [l] + [r], false);
    CheckAppend(i, rest, vars, labels, s2);
    assert s2.types[..|s2.types| - 1] == st.types + [l];
    assert (st.types + [l])[..|st.types|] == st.types;
  }

  lemma {:induction false} ExprTypes(e: Expr, known: set<string>, rest: seq<Instr>, labels: seq<seq<ValType>>, st: OpTypes)
    requires CompileExpr(e, known).Some? && !st.poly
    ensures CheckSeq(CompileExpr(e, known).value + rest, known, labels, st) == After(TypeOf1(e), rest, known, labels, st)
    decreases e, 2
  {
    var code := CompileExpr(e, known).value;
    match e
    case BinOp(op, left, right) =>
      OperandsType(e, left, right, Float(LowerBinOp(op).value), TF32, known, rest, labels, st);
      assert code == CompileExpr(left, known).value + CompileExpr(right, known).value + [Float(LowerBinOp(op).value)];
    case UnaryOp(_, operand) =>
      var c := CompileExpr(operand, known).value;
      assert code + rest == [F32Const(-1.0)] + (c + ([Float(F32Mul)] + rest));
      CheckAppend(F32Const(-1.0), c + ([Float(F32Mul)] + rest), known, labels, st);
      ExprTypes(operand, known, [Float(F32Mul)] + rest, labels, Push(st, TF32));
      if TypeOf(operand).Some? {
        BinaryCheck(Float(F32Mul), TF32, TF32, TypeOf(operand).value, rest, known, labels, st);
      }
    case IfExp(test, body, orelse) =>
      var c, t, f := CompileCompare(test, known).value, CompileExpr(body, known).value, CompileExpr(orelse, known).value;
      assert code + rest == c + ([IfElse(t, f)] + rest);
      TestTypes(test, known, [IfElse(t, f)] + rest, labels, st);
      IfTypes(e, body, orelse, known, rest, labels, st);
    case Compare(_, _, _) =>
      TestTypes(e, known, rest, labels, st);
    case Name(id) => CheckAppend(LocalGet(id), rest, known, labels, st);
    case Constant(k) => CheckAppend(code[0], rest, known, labels, st);
  }

  lemma {:induction false} OperandsType(parent: Expr, left: Expr, right: Expr, i: Instr, out: ValType, known: set<string>, rest: seq<Instr>, labels: seq<seq<ValType>>, st: OpTypes)
    requires left < parent && right < parent
    requires CompileExpr(left, known).Some? && CompileExpr(right, known).Some? && !st.poly
    requires (i.Float? && out == TF32) || (i.Rel? && out == TI32)
    ensures CheckSeq(CompileExpr(left, known).value + CompileExpr(right, known).value + [i] + rest, known, labels, st) ==
            After(if NumericExpr(left) && NumericExpr(right) then Some([out]) else None, rest, known, labels, st)
    decreases parent, 0
  {
    var l, r := CompileExpr(left, known).value, CompileExpr(right, known).value;
    assert l + r + [i] + rest == l + (r + ([i] + rest));
    ExprTypes(left, known, r + ([i] + rest), labels, st);
    if TypeOf(left).Some? {
      var s1 := Push(st, TypeOf(left).value);
      ExprTypes(right, known, [i] + rest, labels, s1);
      if TypeOf(right).Some? {
        BinaryCheck(i, out, TypeOf(left).value, TypeOf(right).value, rest, known, labels, st);
      }
    }
  }

  lemma {:induction false} TestTypes(e: Expr, known: set<string>, rest: seq<Instr>, labels: seq<seq<ValType>>, st: OpTypes)
    requires CompileCompare(e, known).Some? && !st.poly
    ensures CheckSeq(CompileCompare(e, known).value + rest, known, labels, st) ==
            After(if NumericTest(e) then Some([TI32]) else None, rest, known, labels, st)
    decreases e, 1
  {
    OperandsType(e, e.first, e.comparators[0], Rel(LowerCmpOp(e.ops[0]).value), TI32, known, rest, labels, st);
    assert NumericTest(e) <==> NumericExpr(e.first) && NumericExpr(e.comparators[0]) by {
      assert forall c | c in e.comparators :: c == e.comparators[0];
    }
  }

  /** One arm of an `if (result f32)` has the block type exactly when its expression is numeric. */
  lemma {:induction false} ArmTypes(parent: Expr, e: Expr, known: set<string>, labels: seq<seq<ValType>>)
    requires e < parent && CompileExpr(e, known).Some?
    ensures BodyHasType(CompileExpr(e, known).value, known, labels, [TF32], [TF32]) <==> NumericExpr(e)
    decreases e, 3
  {
    var code := CompileExpr(e, known).value;
    assert code + [] == code;
    ExprTypes(e, known, [], [[TF32]] + labels, OpTypes([], false));
    assert TypeOf(e).Some? ==> [] + [TypeOf(e).value] == [TypeOf(e).value];
  }

  lemma {:induction false} IfTypes(parent: Expr, body: Expr, orelse: Expr, known: set<string>, rest: seq<Instr>, labels: seq<seq<ValType>>, st: OpTypes)
    requires body < parent && orelse < parent
    requires CompileExpr(body, known).Some? && CompileExpr(orelse, known).Some? && !st.poly
    ensures CheckSeq([IfElse(CompileExpr(body, known).value, CompileExpr(orelse, known).value)] + rest, known, labels, Push(st, TI32)) ==
            After(if NumericExpr(body) && NumericExpr(orelse) then Some([TF32]) else None, rest, known, labels, st)
    decreases parent, 0
  {
    var t, f := CompileExpr(body, known).value, CompileExpr(orelse, known).value;
    CheckAppend(IfElse(t, f), rest, known, labels, Push(st, TI32));
    assert Push(st, TI32).types[..|st.types|] == st.types;
    ArmTypes(parent, body, known, labels);
    ArmTypes(parent, orelse, known, labels);
    hide CompileExpr, NumericExpr, NumericTest, BodyHasType;
    assert st.types + [TF32] == Push(st, TF32).types;
  }

  lemma {:induction false} AssignTypes(id: string, e: Expr, known: set<string>, rest: seq<Instr>, labels: seq<seq<ValType>>, st: OpTypes)
    requires CompileAssignTo(id, e, known).Some? && !st.poly
    ensures CheckSeq(CompileAssignTo(id, e, known).value + rest, known, labels, st) ==
            After(if NumericExpr(e) then Some([]) else None, rest, known, labels, st)
  {
    var c := CompileExpr(e, known).value;
    assert CompileAssignTo(id, e, known).value + rest == c + ([LocalSet(id)] + rest);
    ExprTypes(e, known, [LocalSet(id)] + rest, labels, st);
    if TypeOf(e).Some? {
      var s1 := Push(st, TypeOf(e).value);
      CheckAppend(LocalSet(id), rest, known, labels, s1);
      assert s1.types[..|st.types|] == st.types == st.types + [];
    }
  }

  lemma {:induction false} IfStmtTypes(s: Stmt, tail: bool, known: set<string>, rest: seq<Instr>, labels: seq<seq<ValType>>, st: OpTypes)
    requires s.If? && CompileStmt(s, tail, known).Some? && !st.poly
    ensures CheckSeq(CompileStmt(s, tail, known).value + rest, known, labels, st) == After(Effect(s), rest, known, labels, st)
  {
    var test, body, orelse := s.test, s.body, s.orelse;
    var x, y := BranchExpr(body[0]), BranchExpr(orelse[0]);
    var t, f := CompileExpr(x, known).value, CompileExpr(y, known).value;
    assert CompileStmt(s, tail, known).value + rest == CompileCompare(test, known).value + ([IfElse(t, f)] + rest);
    assert body == [body[0]] && orelse == [orelse[0]];
    assert NumericStmt(body[0]) <==> NumericExpr(x);
    assert NumericStmt(orelse[0]) <==> NumericExpr(y);
    assert NumericStmt(s) <==> NumericTest(test) && NumericExpr(x) && NumericExpr(y);
    TestTypes(test, known, [IfElse(t, f)] + rest, labels, st);
    IfTypes(IfExp(test, x, y), x, y, known, rest, labels, st);
    hide CheckSeq, Check, CompileStmt, CompileExpr, CompileCompare, NumericStmt, NumericExpr, NumericTest;
  }

  lemma {:induction false} StmtTypes(s: Stmt, tail: bool, known: set<string>, rest: seq<Instr>, labels: seq<seq<ValType>>, st: OpTypes)
    requires CompileStmt(s, tail, known).Some? && !st.poly
    ensures CheckSeq(CompileStmt(s, tail, known).value + rest, known, labels, st) == After(Effect(s), rest, known, labels, st)
    decreases s, 1
  {
    match s
    case Assign(targets, e) => AssignTypes(targets[0].id, e, known, rest, labels, st);
    case AnnAssign(target, v) => AssignTypes(target.id, v.value, known, rest, labels, st);
    case Return(e) => ExprTypes(e.value, known, rest, labels, st);
    case If(_, _, _) => IfStmtTypes(s, tail, known, rest, labels, st);
    case While(test, body, _) =>
      var c, b := CompileCompare(test, known).value, CompileLoopBody(body, known).value;
      CheckAppend(WhileCode(c, b), rest, known, labels, st);
      LoopTypes(s, known, labels);
      assert st.types + [] == st.types;
    case ExprStmt(e) =>
      if e == Constant(NoneConst) {
        CheckAppend(F32Const(0.0), rest, known, labels, st);
      } else {
        ExprTypes(e, known, rest, labels, st);
      }
  }

  function BranchExpr(s: Stmt): Expr
    requires (s.Return? && s.result.Some?) || s.ExprStmt?
  {
    if s.Return? then s.result.value else s.expr
  }

  /** The block-and-loop of a `while` validates exactly when the loop is numeric; the labels are in range. */
  lemma {:induction false} LoopTypes(s: Stmt, known: set<string>, labels: seq<seq<ValType>>)
    requires s.While? && CompileStmt(s, false, known).Some?
    ensures var c, b := CompileCompare(s.wtest, known).value, CompileLoopBody(s.wbody, known).value;
            Check(WhileCode(c, b), known, labels, OpTypes([], false)).Some? <==> NumericStmt(s)
    decreases s, 0
  {
    var c, b := CompileCompare(s.wtest, known).value, CompileLoopBody(s.wbody, known).value;
    var code := c + [I32Eqz, BrIf(1)] + b + [Br(0)];
    var inner: seq<seq<ValType>> := [[]] + ([[]] + labels);
    var empty := OpTypes([], false);
    assert code == c + [I32Eqz, BrIf(1)] + (b + [Br(0)]);
    GuardTypes(s.wtest, known, b + [Br(0)], inner);
    BodyTypes(s.wbody, known, inner, empty);
    hide CompileCompare, CompileExpr, CompileLoopBody, NumericTest, NumericExpr;
    CheckAppend(Loop(code), [], known, [[]] + labels, empty);
    assert [Loop(code)] + [] == [Loop(code)];
  }

  lemma {:induction false} ExitTypes(known: set<string>, rest: seq<Instr>, labels: seq<seq<ValType>>)
    requires |labels| > 1 && labels[1] == []
    ensures CheckSeq([I32Eqz] + ([BrIf(1)] + rest), known, labels, OpTypes([TI32], false)) == CheckSeq(rest, known, labels, OpTypes([], false))
  {
    var s1 := OpTypes([TI32], false);
    CheckAppend(I32Eqz, [BrIf(1)] + rest, known, labels, s1);
    assert s1.types[..0] + [TI32] == s1.types;
    CheckAppend(BrIf(1), rest, known, labels, s1);
    assert s1.types[..0] + [] == [];
  }

  lemma {:induction false} GuardTypes(test: Expr, known: set<string>, rest: seq<Instr>, labels: seq<seq<ValType>>)
    requires CompileCompare(test, known).Some? && |labels| > 1 && labels[1] == []
    ensures CheckSeq(CompileCompare(test, known).value + [I32Eqz, BrIf(1)] + rest, known, labels, OpTypes([], false))
         == if NumericTest(test) then CheckSeq(rest, known, labels, OpTypes([], false)) else None
  {
    hide CheckSeq, CompileCompare, CompileExpr, NumericTest, NumericExpr;
    var c := CompileCompare(test, known).value;
    var afterTest := [I32Eqz] + ([BrIf(1)] + rest);
    assert c + [I32Eqz, BrIf(1)] + rest == c + afterTest;
    TestTypes(test, known, afterTest, labels, OpTypes([], false));
    assert [] + [TI32] == [TI32];
    ExitTypes(known, rest, labels);
  }

  /** Whatever a loop body leaves behind, the closing `br 0` accepts and discards it. */
  lemma {:induction false} BodyTypes(ss: seq<Stmt>, known: set<string>, labels: seq<seq<ValType>>, st: OpTypes)
    requires CompileLoopBody(ss, known).Some? && !st.poly && |labels| > 0 && labels[0] == []
    ensures CheckSeq(CompileLoopBody(ss, known).value + [Br(0)], known, labels, st) ==
            if forall s | s in ss :: NumericStmt(s) then Some(OpTypes([], true)) else None
    decreases ss, 0
  {
    if ss == [] {
      assert [] + [Br(0)] == [Br(0)] + [];
      CheckAppend(Br(0), [], known, labels, st);
    } else {
      var c, rest := CompileStmt(ss[0], false, known).value, CompileLoopBody(ss[1..], known).value;
      assert CompileLoopBody(ss, known).value + [Br(0)] == c + (rest + [Br(0)]);
      StmtTypes(ss[0], false, known, rest + [Br(0)], labels, st);
      assert Effect(ss[0]).Some? <==> NumericStmt(ss[0]);
      if NumericStmt(ss[0]) {
        BodyTypes(ss[1..], known, labels, OpTypes(st.types + Effect(ss[0]).value, false));
      }
      assert ss == [ss[0]] + ss[1..];
      assert (forall s | s in ss :: NumericStmt(s)) <==> NumericStmt(ss[0]) && forall s | s in ss[1..] :: NumericStmt(s);
    }
  }

  lemma {:induction false} FunctionTypes(ss: seq<Stmt>, known: set<string>, labels: seq<seq<ValType>>, st: OpTypes)
    requires CompileBody(ss, known).Some? && !st.poly
    ensures CheckSeq(CompileBody(ss, known).value, known, labels, st) == After(EffectSeq(ss), [], known, labels, st)
    decreases ss
  {
    if ss != [] {
      var rest := CompileBody(ss[1..], known).value;
      StmtTypes(ss[0], |ss| == 1, known, rest, labels, st);
      if Effect(ss[0]).Some? {
        var x := Effect(ss[0]).value;
        FunctionTypes(ss[1..], known, labels, OpTypes(st.types + x, false));
        if EffectSeq(ss[1..]).Some? {
          assert st.types + x + EffectSeq(ss[1..]).value == st.types + (x + EffectSeq(ss[1..]).value);
        }
      }
    } else {
      assert st.types + [] == st.types;
    }
  }

  lemma EffectOf(s: Stmt)
    ensures NumericStmt(s) ==> Effect(s) == Some(if Produces(s) then [TF32] else [])
    ensures Effect(s).Some? && !NumericStmt(s) ==> Effect(s).value == [TI32]
  {
  }

  /** A body pushes only numbers exactly when it is numeric, one per producing statement. */
  lemma {:induction false} EffectCounts(ss: seq<Stmt>)
    ensures (forall s | s in ss :: NumericStmt(s)) ==>
              EffectSeq(ss) == Some(seq(CountProducers(ss), _ => TF32))
    ensures EffectSeq(ss).Some? && !(forall s | s in ss :: NumericStmt(s)) ==> TI32 in EffectSeq(ss).value
  {
    if ss == [] {
      assert EffectSeq(ss).value == seq(CountProducers(ss), _ => TF32);
    } else {
      EffectCounts(ss[1..]);
      EffectOf(ss[0]);
      assert ss == [ss[0]] + ss[1..];
      hide NumericStmt, Effect, Produces;
      assert (forall s | s in ss :: NumericStmt(s)) <==> NumericStmt(ss[0]) && forall s | s in ss[1..] :: NumericStmt(s);
      if NumericStmt(ss[0]) && forall s | s in ss[1..] :: NumericStmt(s) {
        assert EffectSeq(ss).value == seq(CountProducers(ss), _ => TF32);
      }
    }
  }

  /**
   Emitted-code validity. An accepted function assembles to valid code of result
   type f32 if and only if exactly one top-level statement leaves a value and no
   comparison stands where a number is expected.
   */
  lemma ValidIff(f: FunctionDef)
    requires CompileFunction(f).Some?
    ensures ValidFunction(CompileFunction(f).value) <==>
            CountProducers(f.body) == 1 && forall s | s in f.body :: NumericStmt(s)
  {
    var w := CompileFunction(f).value;
    var known := ParamSet(f) + w.locals;
    assert known == w.locals + set p | p in w.params;
    FunctionTypes(f.body, known, [[TF32]] + [], OpTypes([], false));
    EffectCounts(f.body);
    var e := EffectSeq(f.body);
    if e.Some? {
      assert [] + e.value == e.value;
      if forall s | s in f.body :: NumericStmt(s) {
        assert |e.value| == CountProducers(f.body);
        if CountProducers(f.body) == 1 { assert e.value == [TF32]; }
      } else {
        assert e.value != [TF32];
      }
    }
  }

  // ----- declared variables ----------------------------------------------

  /** Every variable the code reads or writes. */
  function Vars(code: seq<Instr>): set<string>
    decreases code
  {
    if code == [] then {} else VarsOf(code[0]) + Vars(code[1..])
  }

  function VarsOf(i: Instr): set<string>
    decreases i
  {
    match i
    case LocalGet(x) => {x}
    case LocalSet(x) => {x}
    case Block(body) => Vars(body)
    case Loop(body) => Vars(body)
    case IfElse(t, f) => Vars(t) + Vars(f)
    case _ => {}
  }

  lemma {:induction false} VarsConcat(a: seq<Instr>, b: seq<Instr>)
    ensures Vars(a + b) == Vars(a) + Vars(b)
  {
    if a == [] {
      assert a + b == b;
    } else {
      assert (a + b)[1..] == a[1..] + b;
      VarsConcat(a[1..], b);
    }
  }

  lemma JoinVars(l: seq<Instr>, r: seq<Instr>, i: Instr, known: set<string>)
    requires Vars(l) <= known && Vars(r) <= known && VarsOf(i) <= known
    ensures Vars(l + r + [i]) <= known && Vars(l + [i]) <= known
  {
    VarsConcat(l, r); VarsConcat(l + r, [i]); VarsConcat(l, [i]);
    assert [i][1..] == [];
  }

  lemma {:induction false} ExprVars(e: Expr, known: set<string>)
    ensures CompileExpr(e, known).Some? ==> Vars(CompileExpr(e, known).value) <= known
    ensures CompileCompare(e, known).Some? ==> Vars(CompileCompare(e, known).value) <= known
    decreases e
  {
    match e
    case BinOp(op, l, r) =>
      ExprVars(l, known); ExprVars(r, known);
      if CompileExpr(e, known).Some? {
        JoinVars(CompileExpr(l, known).value, CompileExpr(r, known).value, Float(LowerBinOp(op).value), known);
      }
    case UnaryOp(_, x) =>
      ExprVars(x, known);
      if CompileExpr(e, known).Some? {
        JoinVars([F32Const(-1.0)], CompileExpr(x, known).value, Float(F32Mul), known);
      }
    case IfExp(t, b, o) =>
      ExprVars(t, known); ExprVars(b, known); ExprVars(o, known);
      if CompileExpr(e, known).Some? {
        JoinVars(CompileCompare(t, known).value, [], IfElse(CompileExpr(b, known).value, CompileExpr(o, known).value), known);
      }
    case Compare(first, _, cs) =>
      if SingleCompare(e) {
        ExprVars(first, known); ExprVars(cs[0], known);
        if CompileCompare(e, known).Some? {
          JoinVars(CompileExpr(first, known).value, CompileExpr(cs[0], known).value, Rel(LowerCmpOp(e.ops[0]).value), known);
        }
      }
    case _ =>
  }

  lemma {:induction false} WhileVars(c: seq<Instr>, b: seq<Instr>)
    ensures Vars([WhileCode(c, b)]) == Vars(c) + Vars(b)
  {
    var guard := [I32Eqz, BrIf(1)];
    VarsConcat(c, guard); VarsConcat(c + guard, b); VarsConcat(c + guard + b, [Br(0)]);
    assert Vars(guard) == {} by { assert guard[1..] == [BrIf(1)]; }
    var loop := Loop(c + guard + b + [Br(0)]);
    assert [loop][1..] == [] && Vars([loop]) == VarsOf(loop);
    assert [WhileCode(c, b)][1..] == [];
  }

  lemma {:induction false} StmtVars(s: Stmt, tail: bool, known: set<string>)
    requires CompileStmt(s, tail, known).Some?
    ensures Vars(CompileStmt(s, tail, known).value) <= known
    decreases s
  {
    match s
    case Assign(targets, e) => ExprVars(e, known); VarsConcat(CompileExpr(e, known).value, [LocalSet(targets[0].id)]);
    case AnnAssign(t, v) => ExprVars(v.value, known); VarsConcat(CompileExpr(v.value, known).value, [LocalSet(t.id)]);
    case Return(e) => ExprVars(e.value, known);
    case If(test, body, orelse) =>
      var x, y := BranchExpr(body[0]), BranchExpr(orelse[0]);
      ExprVars(test, known); ExprVars(x, known); ExprVars(y, known);
      VarsConcat(CompileCompare(test, known).value, [IfElse(CompileExpr(x, known).value, CompileExpr(y, known).value)]);
    case While(test, body, _) =>
      var c, b := CompileCompare(test, known).value, CompileLoopBody(body, known).value;
      ExprVars(test, known);
      LoopBodyVars(body, known);
      WhileVars(c, b);
    case ExprStmt(e) => ExprVars(e, known);
  }

  lemma {:induction false} LoopBodyVars(ss: seq<Stmt>, known: set<string>)
    requires CompileLoopBody(ss, known).Some?
    ensures Vars(CompileLoopBody(ss, known).value) <= known
    decreases ss
  {
    if ss != [] {
      StmtVars(ss[0], false, known);
      LoopBodyVars(ss[1..], known);
      VarsConcat(CompileStmt(ss[0], false, known).value, CompileLoopBody(ss[1..], known).value);
    }
  }

  lemma {:induction false} BodyVars(ss: seq<Stmt>, known: set<string>)
    requires CompileBody(ss, known).Some?
    ensures Vars(CompileBody(ss, known).value) <= known
    decreases ss
  {
    if ss != [] {
      StmtVars(ss[0], |ss| == 1, known);
      BodyVars(ss[1..], known);
      VarsConcat(CompileStmt(ss[0], |ss| == 1, known).value, CompileBody(ss[1..], known).value);
    }
  }

  /** Valid or not, the emitted code names only declared parameters and locals. */
  lemma OnlyDeclaredVariables(f: FunctionDef)
    requires CompileFunction(f).Some?
    ensures var w := CompileFunction(f).value; Vars(w.body) <= w.locals + set p | p in w.params
  {
    BodyVars(f.body, ParamSet(f) + CompileFunction(f).value.locals);
  }

  // ----- dead code -------------------------------------------------------

  /** `return 1` followed by `while 1 < 2: x = 1`. */
  function DeadLoop(): FunctionDef {
    var spin := While(Compare(Constant(NumConst(1.0)), [Lt], [Constant(NumConst(2.0))]),
                      [Assign([NameTarget("x")], Constant(NumConst(1.0)))], []);
    FunctionDef("f", [], true, [Return(Some(Constant(NumConst(1.0)))), spin])
  }

  lemma {:induction false} SpinsInSource<F(!new)>(a: Arith<F>, fuel: nat, env: map<string, F>)
    requires a.lt(a.lit(1.0), a.lit(2.0))
    ensures Exec(a, fuel, DeadLoop().body[1], env).OutOfFuel?
  {
    if fuel > 0 {
      var body := DeadLoop().body[1].wbody;
      var env' := env["x" := a.lit(1.0)];
      assert Exec(a, fuel - 1, body[0], env) == Next(env');
      assert ExecSeq(a, fuel - 1, body[1..], env') == Next(env');
      SpinsInSource(a, fuel - 1, env');
    }
  }

  lemma {:induction false} SpinForever<F(!new)>(a: Arith<F>, fuel: nat, locals: map<string, F>, stack: seq<Val<F>>)
    requires "x" in locals && a.lt(a.lit(1.0), a.lit(2.0))
    ensures CompileStmt(DeadLoop().body[1], false, {"x"}).Some?
    ensures RunSeq(a, fuel, CompileStmt(DeadLoop().body[1], false, {"x"}).value, locals, stack) == Result.OutOfFuel
  {
    var spin := DeadLoop().body[1];
    assert spin.wbody[1..] == [];
    SpinsInSource(a, fuel, locals);
    var code := CompileStmt(spin, false, {"x"}).value;
    StmtCorrect(a, fuel, spin, {"x"}, [], locals, stack);
    assert code + [] == code;
  }

  /** What the compiler makes of it: the constant, then the whole loop. */
  lemma DeadLoopCode()
    ensures CompileFunction(DeadLoop()).Some?
    ensures CompileStmt(DeadLoop().body[1], false, {"x"}).Some?
    ensures CompileFunction(DeadLoop()).value.body == [F32Const(1.0)] + CompileStmt(DeadLoop().body[1], false, {"x"}).value
  {
    var f := DeadLoop();
    var one, spin := f.body[0], f.body[1];
    assert AssignedIn(spin) == Some({"x"}) by {
      assert AssignedNames(spin.wbody[1..]) == Some({});
      var targets := spin.wbody[0].targets;
      assert targets == [NameTarget("x")] && targets[0] in targets;
      assert (set t | t in targets && t.NameTarget? :: t.id) == {"x"};
      assert AssignedIn(spin.wbody[0]) == Some({"x"});
    }
    assert f.body[1..] == [spin] && [spin][1..] == [] && spin.wbody[1..] == [];
    assert AssignedNames([spin]) == Some({"x"} + {}) && AssignedIn(one) == Some({});
    assert {"x"} + {} == {"x"} && {} + {"x"} == {"x"};
    assert ParamSet(f) == {} && {"x"} - {} == {"x"} && {} + {"x"} == {"x"};
    assert CompileStmt(spin, true, {"x"}) == CompileStmt(spin, false, {"x"});
    var loopCode := CompileStmt(spin, false, {"x"}).value;
    assert CompileBody([spin], {"x"}) == Some(loopCode + []) && loopCode + [] == loopCode;
    assert CompileBody(f.body, {"x"}) == Some([F32Const(1.0)] + loopCode);
  }

  lemma DeadLoopProducers()
    ensures CountProducers(DeadLoop().body) == 1 && forall s | s in DeadLoop().body :: NumericStmt(s)
  {
    var f, spin := DeadLoop(), DeadLoop().body[1];
    assert f.body[1..] == [spin] && [spin][1..] == [];
    assert CountProducers([spin]) == 0;
  }

  /**
   Why dead code is excluded: the source returns 1 at once, the compiler accepts
   the function and its code is valid, yet the emitted code never returns.
   */
  lemma DeadCodeStillRuns<F(!new)>(a: Arith<F>, fuel: nat)
    requires a.lt(a.lit(1.0), a.lit(2.0))
    ensures CompileFunction(DeadLoop()).Some? && ValidFunction(CompileFunction(DeadLoop()).value)
    ensures ExecSeq(a, fuel, DeadLoop().body, map["x" := a.lit(0.0)]) == Returned(a.lit(1.0), map["x" := a.lit(0.0)])
    ensures Invoke(a, fuel, CompileFunction(DeadLoop()).value, map["x" := a.lit(0.0)]) == Result.OutOfFuel
  {
    DeadLoopCode();
    assert ValidFunction(CompileFunction(DeadLoop()).value) by {
      ValidIff(DeadLoop());
      DeadLoopProducers();
      hide CompileFunction, CompileStmt, ValidFunction, CountProducers, NumericStmt, DeadLoop;
    }
    hide CompileFunction, CompileStmt, ValidFunction;
    DeadLoopRuns(a, fuel);
  }

  lemma DeadLoopRuns<F(!new)>(a: Arith<F>, fuel: nat)
    requires a.lt(a.lit(1.0), a.lit(2.0))
    requires CompileStmt(DeadLoop().body[1], false, {"x"}).Some? && CompileFunction(DeadLoop()).Some?
    requires CompileFunction(DeadLoop()).value.body == [F32Const(1.0)] + CompileStmt(DeadLoop().body[1], false, {"x"}).value
    ensures Invoke(a, fuel, CompileFunction(DeadLoop()).value, map["x" := a.lit(0.0)]) == Result.OutOfFuel
  {
    hide CompileFunction, CompileStmt;
    var spin, locals := DeadLoop().body[1], map["x" := a.lit(0.0)];
    RunAppend(a, fuel, F32Const(1.0), CompileStmt(spin, false, {"x"}).value, locals, []);
    SpinForever(a, fuel, locals, [] + [F32(a.lit(1.0))]);
  }
}
