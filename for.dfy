/**
 * The range generator (src/module/For.ts). `exec` instantiates `Method_1`,
 * whose counter `i` starts at `from`; its unit `cu1` binds `x := i` and, when
 * another value fits, registers its sibling unit `cu2` as a choice point;
 * `cu2` advances `i` by `by` and, unless that overshoots `to`, pops once and
 * re-runs `cu1`. The functions `*Step` say what each unit does to the machine
 * state; the methods of the same names do it to a `VM` and a `Heap`.
 */
module For {
  import opened Base
  import opened Variables
  import opened Predicates
  import opened VM
  import opened Heaps

  /** A constructor argument: a cell, or a number that is wrapped in a fresh cell. */
  datatype Operand = CellOperand(r: Ref) | NumOperand(n: int)

  /** The cell an operand ends up as, read in the memory after construction. */
  predicate Installed(m0: Memory, m: Memory, op: Operand, r: Ref)
  {
    match op
    case CellOperand(c) => r == c
    case NumOperand(n) => |m0.cells| <= r && Cell(m, r) == Some(Num(n))
  }

  /** The cells `to` and `by` hold the numbers `hi` and `step`, and `x` is neither of them. */
  predicate Operands(m: Memory, env: ForEnv, hi: int, step: int)
  {
    Cell(m, env.to) == Some(Num(hi)) && Cell(m, env.step) == Some(Num(step))
    && env.x != env.to && env.x != env.step
  }

  /**
   * `cu1`: bind `x := i` and return `cont` if `i <= to`, else fail untouched.
   * `by` and `to` are read again after `x` is bound, so when `x` is the same
   * variable as one of them the test sees `i` there; a `by` that holds no
   * number throws after the binding.
   */
  function Cu1Step(st: Stack, m: Memory, env: ForEnv, frame: nat): (t: Transition)
    ensures ReadNumber(Cell(m, env.to)).Throw? ==> t == Raised("Value is not a number")
    ensures ReadNumber(Cell(m, env.to)).Ok? && Counter(m, frame) > ReadNumber(Cell(m, env.to)).value ==>
              t == Next(st, m, Failure)
    ensures var hi, inc := ReadNumber(Cell(m, env.to)), ReadNumber(Cell(m, env.step));
            hi.Ok? && inc.Ok? && env.x != env.to && env.x != env.step && Counter(m, frame) <= hi.value ==>
              t == Next(if Counter(m, frame) + inc.value <= hi.value then Push(st, ForRetry(env, frame)) else st,
                        Bind(m, env.x, Num(Counter(m, frame))), env.cont)
    // the general case, aliasing included: the rereads see the memory after the binding
    ensures var i, hi, m1 := Counter(m, frame), ReadNumber(Cell(m, env.to)), Bind(m, env.x, Num(Counter(m, frame)));
            hi.Ok? && i <= hi.value ==>
              ReadNumber(Cell(m1, env.to)).Ok?
              && (ReadNumber(Cell(m1, env.step)).Throw? ==> t == Raised("Value is not a number"))
              && (ReadNumber(Cell(m1, env.step)).Ok? ==>
                    t == Next(if i + ReadNumber(Cell(m1, env.step)).value <= ReadNumber(Cell(m1, env.to)).value
                              then Push(st, ForRetry(env, frame)) else st, m1, env.cont))
    // `x` aliased to `to`: the retry is registered exactly when the step is not positive
    ensures var i, hi, inc := Counter(m, frame), ReadNumber(Cell(m, env.to)), ReadNumber(Cell(m, env.step));
            hi.Ok? && inc.Ok? && env.x == env.to && env.x != env.step && i <= hi.value ==>
              t == Next(if inc.value <= 0 then Push(st, ForRetry(env, frame)) else st,
                        Bind(m, env.x, Num(i)), env.cont)
  {
    var i := Counter(m, frame);
    var hi := ReadNumber(Cell(m, env.to));
    if hi.Throw? then Raised(hi.message)
    else if i > hi.value then Next(st, m, Failure)
    else
      var m1 := Bind(m, env.x, Num(i));
      var inc := ReadNumber(Cell(m1, env.step));
      // `to` held a number and binding `x` stores a number: the second read cannot throw.
      var hi' := ReadNumber(Cell(m1, env.to)).value;
      if inc.Throw? then Raised(inc.message)
      else if i + inc.value <= hi' then Next(Push(st, ForRetry(env, frame)), m1, env.cont)
      else Next(st, m1, env.cont)
  }

  /** `cu2`: `i += by`; past `to` it fails without popping, else it pops once and runs `cu1`. */
  function Cu2Step(st: Stack, m: Memory, env: ForEnv, frame: nat): (t: Transition)
    ensures ReadNumber(Cell(m, env.step)).Throw? ==> t == Raised("Value is not a number")
    ensures var hi, inc := ReadNumber(Cell(m, env.to)), ReadNumber(Cell(m, env.step));
            hi.Ok? && inc.Ok? && frame < |m.counters| ==>
              (Counter(m, frame) + inc.value > hi.value ==>
                 t == Next(st, StoreCounter(m, frame, Counter(m, frame) + inc.value), Failure))
              && (Counter(m, frame) + inc.value <= hi.value ==>
                 t == Cu1Step(Pop(st), StoreCounter(m, frame, Counter(m, frame) + inc.value), env, frame))
  {
    var inc := ReadNumber(Cell(m, env.step));
    if inc.Throw? then Raised(inc.message)
    else
      var m1 := StoreCounter(m, frame, Counter(m, frame) + inc.value);
      var hi := ReadNumber(Cell(m1, env.to));
      if hi.Throw? then Raised(hi.message)
      else if Counter(m1, frame) > hi.value then Next(st, m1, Failure)
      else Cu1Step(Pop(st), m1, env, frame)
  }

  /** `exec`: a new `Method_1` instance whose counter starts at `from`'s value, then `cu1`. */
  function ExecStep(st: Stack, m: Memory, env: ForEnv): (t: Transition)
    ensures ReadNumber(Cell(m, env.from)).Throw? ==> t == Raised("Value is not a number")
    ensures ReadNumber(Cell(m, env.from)).Ok? ==>
              t == Cu1Step(st, NewCounter(m, ReadNumber(Cell(m, env.from)).value).0, env, |m.counters|)
  {
    var from := ReadNumber(Cell(m, env.from));
    if from.Throw? then Raised(from.message)
    else
      var (m1, frame) := NewCounter(m, from.value);
      Cu1Step(st, m1, env, frame)
  }

  /**
   * While the bounds are unchanged, a `cu2` that `cu1` registered never takes
   * its failure branch: it pops itself and binds the next value.
   */
  lemma RetryAfterPushSucceeds(st: Stack, m: Memory, env: ForEnv, frame: nat, hi: int, step: int)
    requires Operands(m, env, hi, step) && frame < |m.counters|
    requires Counter(m, frame) <= hi && Counter(m, frame) + step <= hi
    ensures Cu1Step(st, m, env, frame).Next?
    ensures Cu1Step(st, m, env, frame).stack == Push(st, ForRetry(env, frame))
    ensures var t := Cu1Step(st, m, env, frame);
            var r := Cu2Step(Pop(t.stack), t.mem, env, frame);
            r.Next? && r.goal == env.cont && r.stack.ccp <= st.ccp
            && Cell(r.mem, env.x) == Cell(Bind(m, env.x, Num(Counter(m, frame) + step)), env.x)
            && Counter(r.mem, frame) == Counter(m, frame) + step
  {
    var i := Counter(m, frame);
    var m1 := Bind(m, env.x, Num(i));
    assert Operands(m1, env, hi, step);
    var m2 := StoreCounter(m1, frame, i + step);
    assert Operands(m2, env, hi, step);
  }

  /** `new For(x, from, to, by, cont)`: number operands become fresh cells. */
  method New(heap: Heap, x: Ref, from: Operand, hi: Operand, inc: Operand, cont: Goal) returns (g: Goal)
    modifies heap
    ensures g.ForGoal? && g.fenv.x == x && g.fenv.cont == cont
    ensures Installed(old(heap.Mem()), heap.Mem(), from, g.fenv.from)
    ensures Installed(old(heap.Mem()), heap.Mem(), hi, g.fenv.to)
    ensures Installed(old(heap.Mem()), heap.Mem(), inc, g.fenv.step)
    ensures forall q: Ref :: q < |old(heap.Mem()).cells| ==> Cell(heap.Mem(), q) == Cell(old(heap.Mem()), q)
    ensures heap.Mem().counters == old(heap.Mem()).counters
  {
    var f := Install(heap, from);
    var t := Install(heap, hi);
    ghost var m1 := heap.Mem();
    var b := Install(heap, inc);
    g := ForGoal(ForEnv(x, f, t, b, cont));
  }

  method Install(heap: Heap, op: Operand) returns (r: Ref)
    modifies heap
    ensures Installed(old(heap.Mem()), heap.Mem(), op, r)
    ensures op.NumOperand? ==> r == |old(heap.Mem()).cells|
    ensures forall q: Ref :: q < |old(heap.Mem()).cells| ==> Cell(heap.Mem(), q) == Cell(old(heap.Mem()), q)
    ensures |heap.Mem().cells| >= |old(heap.Mem()).cells|
    ensures heap.Mem().counters == old(heap.Mem()).counters
  {
    if op.CellOperand? {
      r := op.r;
    } else {
      r := heap.NewCell(Some(Num(op.n)));
    }
  }

  method Cu1(vm: VM, heap: Heap, env: ForEnv, frame: nat) returns (t: Result<Goal>)
    modifies vm, heap
    ensures Settled(vm.State(), heap.Mem(), t) == Cu1Step(old(vm.State()), old(heap.Mem()), env, frame)
  {
    var i := heap.GetCounter(frame);
    var hi := ReadNumber(heap.GetCell(env.to));
    if hi.Throw? {
      return Throw(hi.message);
    }
    // The source's `while` runs its body at most once: the body always returns.
    if i <= hi.value {
      heap.SetValue(env.x, Num(i));
      var inc := ReadNumber(heap.GetCell(env.step));
      var hi' := ReadNumber(heap.GetCell(env.to)).value;
      if inc.Throw? {
        return Throw(inc.message);
      }
      if i + inc.value <= hi' {
        vm.SetChoicePoint(ForRetry(env, frame));
      }
      return Ok(env.cont);
    }
    return Ok(Failure);
  }

  method Cu2(vm: VM, heap: Heap, env: ForEnv, frame: nat) returns (t: Result<Goal>)
    modifies vm, heap
    ensures Settled(vm.State(), heap.Mem(), t) == Cu2Step(old(vm.State()), old(heap.Mem()), env, frame)
  {
    var inc := ReadNumber(heap.GetCell(env.step));
    if inc.Throw? {
      return Throw(inc.message);
    }
    var i := heap.GetCounter(frame);
    heap.SetCounter(frame, i + inc.value);
    var hi := ReadNumber(heap.GetCell(env.to));
    if hi.Throw? {
      return Throw(hi.message);
    }
    if heap.GetCounter(frame) > hi.value {
      return Ok(Failure);
    }
    vm.PopChoicePoint();
    t := Cu1(vm, heap, env, frame);
  }

  method Exec(vm: VM, heap: Heap, env: ForEnv) returns (t: Result<Goal>)
    modifies vm, heap
    ensures Settled(vm.State(), heap.Mem(), t) == ExecStep(old(vm.State()), old(heap.Mem()), env)
  {
    var from := ReadNumber(heap.GetCell(env.from));
    if from.Throw? {
      return Throw(from.message);
    }
    var frame := heap.NewFrame(from.value);
    t := Cu1(vm, heap, env, frame);
  }
}
