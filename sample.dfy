/**
 * The hand-written generated module of src/module/sample.ts: `ForClass(B, E,
 * S, N, cont)` enumerates N = B, B+S, ... up to E through two guarded
 * alternatives. `Method_1` binds `N := B`; `Method_2` binds a private cell
 * `B1 := B + S` and delegates to a fresh `ForClass(B1, E, S, N, cont)`. When
 * both guards hold, `Method_2` is registered as a choice point and `Method_1`
 * runs. The driver `main` is in module SampleMain.
 */
module Sample {
  import opened Base
  import opened Variables
  import opened Predicates
  import opened VM
  import opened Heaps

  /** `getValue` of a cell that the module adds and compares as a number. */
  function NumberIn(m: Memory, r: Ref): (v: Result<int>)
    ensures v.Ok? <==> Cell(m, r).Some? && Cell(m, r).value.Num?
    ensures v.Ok? ==> Cell(m, r) == Some(Num(v.value))
    ensures Cell(m, r).None? ==> v == Throw("null value")
  {
    var c := ReadValue(Cell(m, r));
    if c.Throw? then Throw(c.message)
    else if c.value.Num? then Ok(c.value.n)
    else Throw("Value is not a number")
  }

  /** `Method_1_cu1`: `N := B`, then the continuation. */
  function Method1Step(st: Stack, m: Memory, env: ForClassEnv): (t: Transition)
    ensures Cell(m, env.b).None? ==> t == Raised("null value")
    ensures Cell(m, env.b).Some? ==> t == Next(st, Bind(m, env.n, Cell(m, env.b).value), env.cont)
  {
    var v := ReadValue(Cell(m, env.b));
    if v.Throw? then Raised(v.message) else Next(st, Bind(m, env.n, v.value), env.cont)
  }

  /** `Method_2_cu1`: `B1 := B + S`, then the unit `Method_2_cu2`. */
  function AltStep(st: Stack, m: Memory, env: ForClassEnv, b1: Ref): (t: Transition)
    ensures NumberIn(m, env.b).Ok? && NumberIn(m, env.s).Ok? ==>
              t == Next(st, Bind(m, b1, Num(NumberIn(m, env.b).value + NumberIn(m, env.s).value)), ForClassAltNext(env, b1))
    ensures t.Next? ==> t.stack == st && t.goal == ForClassAltNext(env, b1)
  {
    var b := NumberIn(m, env.b);
    var s := NumberIn(m, env.s);
    if b.Throw? then Raised(b.message)
    else if s.Throw? then Raised(s.message)
    else Next(st, Bind(m, b1, Num(b.value + s.value)), ForClassAltNext(env, b1))
  }

  /** `Method_2_cu2`: a fresh `ForClass(B1, E, S, N, cont)`; the caller's `B` is not touched. */
  function AltNextStep(st: Stack, m: Memory, env: ForClassEnv, b1: Ref): (t: Transition)
    ensures t.Next? && t.stack == st && t.mem == m
    ensures t.goal == ForClassGoal(env.(b := b1))
  {
    Next(st, m, ForClassGoal(ForClassEnv(b1, env.e, env.s, env.n, env.cont)))
  }

  /** `exec`: allocate `Method_2`'s cell `B1`, then choose by the guards `B+S <= E` and `B <= E`. */
  function ExecStep(st: Stack, m: Memory, env: ForClassEnv): (t: Transition)
    ensures NumberIn(m, env.b).Ok? && NumberIn(m, env.e).Ok? && NumberIn(m, env.s).Ok? ==>
              var b, e, s := NumberIn(m, env.b).value, NumberIn(m, env.e).value, NumberIn(m, env.s).value;
              var m1 := Alloc(m, None).0;
              (b + s > e && b > e ==> t == Next(st, m1, Failure))
              && (b + s <= e && b <= e ==> t == Method1Step(Push(st, ForClassAlt(env, |m.cells|)), m1, env))
              && (b + s <= e && b > e ==> t == AltStep(st, m1, env, |m.cells|))
              && (b + s > e && b <= e ==> t == Method1Step(st, m1, env))
  {
    var (m1, b1) := Alloc(m, None);
    var b := NumberIn(m1, env.b);
    var s := NumberIn(m1, env.s);
    var e := NumberIn(m1, env.e);
    if b.Throw? then Raised(b.message)
    else if s.Throw? then Raised(s.message)
    else if e.Throw? then Raised(e.message)
    else
      var first := b.value + s.value <= e.value;
      var second := b.value <= e.value;
      if !first && !second then Next(st, m1, Failure)
      else if first && second then Method1Step(Push(st, ForClassAlt(env, b1)), m1, env)
      else if first then AltStep(st, m1, env, b1)
      else Method1Step(st, m1, env)
  }

  /** With a positive step the guard `B+S <= E` implies `B <= E`: only three cases occur. */
  lemma PositiveStepCases(st: Stack, m: Memory, env: ForClassEnv, b: int, e: int, s: int)
    requires Cell(m, env.b) == Some(Num(b)) && Cell(m, env.e) == Some(Num(e)) && Cell(m, env.s) == Some(Num(s))
    requires s > 0 && env.n != env.b && env.n < |m.cells|
    ensures b > e ==> ExecStep(st, m, env) == Next(st, Alloc(m, None).0, Failure)
    ensures b <= e ==> ExecStep(st, m, env)
                       == Next(if b + s <= e then Push(st, ForClassAlt(env, |m.cells|)) else st,
                               Bind(Alloc(m, None).0, env.n, Num(b)), env.cont)
    ensures b <= e ==> Cell(ExecStep(st, m, env).mem, env.n) == Some(Num(b))
  {
    var m1 := Alloc(m, None).0;
    assert Cell(m1, env.b) == Some(Num(b));
  }

  method Method1(vm: VM, heap: Heap, env: ForClassEnv) returns (t: Result<Goal>)
    modifies heap
    ensures Settled(vm.State(), heap.Mem(), t) == Method1Step(vm.State(), old(heap.Mem()), env)
  {
    var v := ReadValue(heap.GetCell(env.b));
    if v.Throw? {
      return Throw(v.message);
    }
    heap.SetValue(env.n, v.value);
    t := Ok(env.cont);
  }

  method Alt(vm: VM, heap: Heap, env: ForClassEnv, b1: Ref) returns (t: Result<Goal>)
    modifies heap
    ensures Settled(vm.State(), heap.Mem(), t) == AltStep(vm.State(), old(heap.Mem()), env, b1)
  {
    var b := NumberIn(heap.Mem(), env.b);
    var s := NumberIn(heap.Mem(), env.s);
    if b.Throw? {
      return Throw(b.message);
    }
    if s.Throw? {
      return Throw(s.message);
    }
    heap.SetValue(b1, Num(b.value + s.value));
    t := Ok(ForClassAltNext(env, b1));
  }

  method Exec(vm: VM, heap: Heap, env: ForClassEnv) returns (t: Result<Goal>)
    modifies vm, heap
    ensures Settled(vm.State(), heap.Mem(), t) == ExecStep(old(vm.State()), old(heap.Mem()), env)
  {
    var b1 := heap.NewCell(None);
    var b := NumberIn(heap.Mem(), env.b);
    var s := NumberIn(heap.Mem(), env.s);
    var e := NumberIn(heap.Mem(), env.e);
    if b.Throw? {
      return Throw(b.message);
    }
    if s.Throw? {
      return Throw(s.message);
    }
    if e.Throw? {
      return Throw(e.message);
    }
    if !(b.value + s.value <= e.value) && !(b.value <= e.value) {
      return Ok(Failure);
    }
    if b.value + s.value <= e.value && b.value <= e.value {
      vm.SetChoicePoint(ForClassAlt(env, b1));
      t := Method1(vm, heap, env);
      return;
    }
    if b.value + s.value <= e.value {
      t := Alt(vm, heap, env, b1);
      return;
    }
    t := Method1(vm, heap, env);
  }
}
