/**
 The WebAssembly fragment the compiler emits: f32 and i32 values, named locals,
 structured control with relative labels. Execution and validation follow the
 WebAssembly Core Specification 1.0, sections 4.4.5 and 3.3.5.
 */
module Wasm {
  import opened Prelude
  import opened PySource

  datatype FloatOp = F32Add | F32Sub | F32Mul | F32Div
  datatype RelOp = F32Gt | F32Ge | F32Lt | F32Le | F32Eq | F32Ne

  datatype Instr =
    | F32Const(n: real)
    | LocalGet(x: string)
    | LocalSet(x: string)
    | Float(op: FloatOp)
    | Rel(rel: RelOp)
    | I32Eqz
    | Block(body: seq<Instr>)
    | Loop(body: seq<Instr>)
    | IfElse(thn: seq<Instr>, els: seq<Instr>)
    | Br(depth: nat)
    | BrIf(depth: nat)

  datatype WatFunction = WatFunction(name: string, params: seq<string>, locals: set<string>, body: seq<Instr>)

  datatype Val<F> = F32(f: F) | I32(i: int)

  /**
   The result of running a sequence inside its innermost label: it falls
   through with the values it pushed, or branches to the `label`-th enclosing
   label carrying the values on top of the stack at the branch.
   */
  datatype Result<F> =
    | Normal(locals: map<string, F>, stack: seq<Val<F>>)
    | Branch(depth: nat, locals: map<string, F>, stack: seq<Val<F>>)
    | OutOfFuel
    | Trap

  function RunFloat<F(!new)>(a: Arith<F>, op: FloatOp, x: F, y: F): F {
    match op
    case F32Add => a.add(x, y)
    case F32Sub => a.sub(x, y)
    case F32Mul => a.mul(x, y)
    case F32Div => a.div(x, y)
  }

  function RunRel<F(!new)>(a: Arith<F>, op: RelOp, x: F, y: F): bool {
    match op
    case F32Gt => a.gt(x, y)
    case F32Ge => a.ge(x, y)
    case F32Lt => a.lt(x, y)
    case F32Le => a.le(x, y)
    case F32Eq => a.eq(x, y)
    case F32Ne => a.ne(x, y)
  }

  /**
   Leaving a label of the given arity: a sequence that falls through keeps its
   values, a branch to this label keeps only the top `arity` of them (the rest
   of the stack above the label is unwound), an outer branch moves one label out.
   */
  function Leave<F>(r: Result<F>, arity: nat, stack: seq<Val<F>>): Result<F> {
    match r
    case Normal(locals, vs) => Normal(locals, stack + vs)
    case Branch(l, locals, vs) =>
      if l > 0 then Branch(l - 1, locals, vs)
      else if |vs| < arity then Trap
      else Normal(locals, stack + vs[|vs| - arity..])
    case other => other
  }

  function RunSeq<F(!new)>(a: Arith<F>, fuel: nat, code: seq<Instr>, locals: map<string, F>, stack: seq<Val<F>>): Result<F>
    decreases fuel, code
  {
    if code == [] then Normal(locals, stack)
    else
      match Run(a, fuel, code[0], locals, stack)
      case Normal(locals', stack') => RunSeq(a, fuel, code[1..], locals', stack')
      case other => other
  }

  /** One instruction. `fuel` drops by one each time a loop body is entered. */
  function Run<F(!new)>(a: Arith<F>, fuel: nat, i: Instr, locals: map<string, F>, stack: seq<Val<F>>): Result<F>
    decreases fuel, i
  {
    var n := |stack|;
    match i
    case F32Const(r) => Normal(locals, stack + [F32(a.lit(r))])
    case LocalGet(x) => if x in locals then Normal(locals, stack + [F32(locals[x])]) else Trap
    case LocalSet(x) =>
      if n >= 1 && stack[n - 1].F32? && x in locals then
        Normal(locals[x := stack[n - 1].f], stack[..n - 1])
      else Trap
    case Float(op) =>
      if n >= 2 && stack[n - 1].F32? && stack[n - 2].F32? then
        Normal(locals, stack[..n - 2] + [F32(RunFloat(a, op, stack[n - 2].f, stack[n - 1].f))])
      else Trap
    case Rel(op) =>
      if n >= 2 && stack[n - 1].F32? && stack[n - 2].F32? then
        Normal(locals, stack[..n - 2] + [I32(if RunRel(a, op, stack[n - 2].f, stack[n - 1].f) then 1 else 0)])
      else Trap
    case I32Eqz =>
      if n >= 1 && stack[n - 1].I32? then
        Normal(locals, stack[..n - 1] + [I32(if stack[n - 1].i == 0 then 1 else 0)])
      else Trap
    case Block(body) => Leave(RunSeq(a, fuel, body, locals, []), 0, stack)
    case Loop(body) =>
      if fuel == 0 then Result.OutOfFuel
      else
        (match RunSeq(a, fuel - 1, body, locals, [])
         case Branch(0, locals', _) => Run(a, fuel - 1, i, locals', stack)
         case r => Leave(r, 0, stack))
    case IfElse(thn, els) =>
      if n >= 1 && stack[n - 1].I32? then
        Leave(RunSeq(a, fuel, if stack[n - 1].i != 0 then thn else els, locals, []), 1, stack[..n - 1])
      else Trap
    case Br(l) => Branch(l, locals, stack)
    case BrIf(l) =>
      if n >= 1 && stack[n - 1].I32? then
        if stack[n - 1].i != 0 then Branch(l, locals, stack[..n - 1]) else Normal(locals, stack[..n - 1])
      else Trap
  }

  /** Invoking a function: its body is the scope of an outermost label of arity one. */
  function Invoke<F(!new)>(a: Arith<F>, fuel: nat, f: WatFunction, locals: map<string, F>): Result<F> {
    Leave(RunSeq(a, fuel, f.body, locals, []), 1, [])
  }

  /** More fuel never changes a run that already finished. */
  lemma {:induction false} FuelMonotone<F(!new)>(a: Arith<F>, fuel: nat, more: nat, code: seq<Instr>, locals: map<string, F>, stack: seq<Val<F>>)
    requires fuel <= more
    requires !RunSeq(a, fuel, code, locals, stack).OutOfFuel?
    ensures RunSeq(a, more, code, locals, stack) == RunSeq(a, fuel, code, locals, stack)
    decreases fuel, code
  {
    if code != [] {
      FuelMonotoneInstr(a, fuel, more, code[0], locals, stack);
      var r := Run(a, fuel, code[0], locals, stack);
      if r.Normal? {
        FuelMonotone(a, fuel, more, code[1..], r.locals, r.stack);
      }
    }
  }

  lemma {:induction false} FuelMonotoneInstr<F(!new)>(a: Arith<F>, fuel: nat, more: nat, i: Instr, locals: map<string, F>, stack: seq<Val<F>>)
    requires fuel <= more
    requires !Run(a, fuel, i, locals, stack).OutOfFuel?
    ensures Run(a, more, i, locals, stack) == Run(a, fuel, i, locals, stack)
    decreases fuel, i
  {
    match i
    case Block(body) => FuelMonotone(a, fuel, more, body, locals, []);
    case Loop(body) =>
      FuelMonotone(a, fuel - 1, more - 1, body, locals, []);
      var r := RunSeq(a, fuel - 1, body, locals, []);
      if r.Branch? && r.depth == 0 {
        FuelMonotoneInstr(a, fuel - 1, more - 1, i, r.locals, stack);
      }
    case IfElse(thn, els) =>
      var n := |stack|;
      if n >= 1 && stack[n - 1].I32? {
        FuelMonotone(a, fuel, more, if stack[n - 1].i != 0 then thn else els, locals, []);
      }
    case _ =>
  }

  // ----- validation ------------------------------------------------------

  datatype ValType = TF32 | TI32

  /** Operand types above the enclosing label; `poly` after an unconditional branch. */
  datatype OpTypes = OpTypes(types: seq<ValType>, poly: bool)

  /** Pops one operand of the expected type, if the stack allows it. */
  function Pop(st: OpTypes, t: ValType): Option<OpTypes> {
    var n := |st.types|;
    if n == 0 then (if st.poly then Some(st) else None)
    else if st.types[n - 1] == t then Some(OpTypes(st.types[..n - 1], st.poly))
    else None
  }

  function Push(st: OpTypes, t: ValType): OpTypes {
    OpTypes(st.types + [t], st.poly)
  }

  /** The sequence ends with exactly the given result types. */
  predicate EndsWith(st: OpTypes, results: seq<ValType>) {
    if st.poly then
      |st.types| <= |results| && st.types == results[|results| - |st.types|..]
    else st.types == results
  }

  /** Types a sequence; `labels` are the result types branches expect, innermost first. */
  function CheckSeq(code: seq<Instr>, vars: set<string>, labels: seq<seq<ValType>>, st: OpTypes): Option<OpTypes>
    decreases code, 0
  {
    if code == [] then Some(st)
    else
      var st' :- Check(code[0], vars, labels, st);
      CheckSeq(code[1..], vars, labels, st')
  }

  predicate BodyHasType(code: seq<Instr>, vars: set<string>, labels: seq<seq<ValType>>, target: seq<ValType>, results: seq<ValType>)
    decreases code, 1
  {
    var end := CheckSeq(code, vars, [target] + labels, OpTypes([], false));
    end.Some? && EndsWith(end.value, results)
  }

  function PopAll(st: OpTypes, ts: seq<ValType>): Option<OpTypes>
    decreases |ts|
  {
    if ts == [] then Some(st)
    else
      var st' :- Pop(st, ts[|ts| - 1]);
      PopAll(st', ts[..|ts| - 1])
  }

  function Check(i: Instr, vars: set<string>, labels: seq<seq<ValType>>, st: OpTypes): Option<OpTypes>
    decreases i
  {
    match i
    case F32Const(_) => Some(Push(st, TF32))
    case LocalGet(x) => if x in vars then Some(Push(st, TF32)) else None
    case LocalSet(x) => if x in vars then Pop(st, TF32) else None
    case Float(_) =>
      var s1 :- Pop(st, TF32);
      var s2 :- Pop(s1, TF32);
      Some(Push(s2, TF32))
    case Rel(_) =>
      var s1 :- Pop(st, TF32);
      var s2 :- Pop(s1, TF32);
      Some(Push(s2, TI32))
    case I32Eqz =>
      var s1 :- Pop(st, TI32);
      Some(Push(s1, TI32))
    case Block(body) => if BodyHasType(body, vars, labels, [], []) then Some(st) else None
    case Loop(body) => if BodyHasType(body, vars, labels, [], []) then Some(st) else None
    case IfElse(thn, els) =>
      var s1 :- Pop(st, TI32);
      if BodyHasType(thn, vars, labels, [TF32], [TF32]) && BodyHasType(els, vars, labels, [TF32], [TF32])
      then Some(Push(s1, TF32)) else None
    case Br(l) =>
      if l < |labels| && PopAll(st, labels[l]).Some? then Some(OpTypes([], true)) else None
    case BrIf(l) =>
      if l >= |labels| then None
      else
        var s1 :- Pop(st, TI32);
        var s2 :- PopAll(s1, labels[l]);
        Some(OpTypes(s2.types + labels[l], s2.poly))
  }

  /** A function is valid when its body has result type f32 under its declared variables. */
  predicate ValidFunction(f: WatFunction) {
    BodyHasType(f.body, f.locals + set p | p in f.params, [], [TF32], [TF32])
  }
}
