/**
 * The list-selection generator (src/module/Member.ts). `exec` instantiates
 * `Method_1`, whose index `i` starts at 0; `cu1` binds `x` to element `i` and,
 * when another element follows, registers `cu2`; `cu2` increments `i` and,
 * unless the list is exhausted, pops once and re-runs `cu1`.
 */
module Member {
  import opened Base
  import opened Variables
  import opened Predicates
  import opened VM
  import opened Heaps

  /** The TypeError raised by `getByIndex(i).getValue()` when `i` is negative. */
  const NoElement := "Cannot read properties of undefined (reading 'getValue')"

  /** `cu1`: bind `x` to element `i` and return `cont` while `i < length`, else fail untouched. */
  function Cu1Step(st: Stack, m: Memory, env: MemberEnv, frame: nat): (t: Transition)
    ensures Counter(m, frame) >= |env.l| ==> t == Next(st, m, Failure)
    ensures Counter(m, frame) < 0 ==> t == Raised(NoElement)
    ensures 0 <= Counter(m, frame) < |env.l| && Cell(m, env.l[Counter(m, frame)]).None? ==>
              t == Raised("null value")
    ensures 0 <= Counter(m, frame) < |env.l| && Cell(m, env.l[Counter(m, frame)]).Some? ==>
              t == Next(if Counter(m, frame) + 1 < |env.l| then Push(st, MemberRetry(env, frame)) else st,
                        Bind(m, env.x, Cell(m, env.l[Counter(m, frame)]).value), env.cont)
  {
    var i := Counter(m, frame);
    if i >= |env.l| then Next(st, m, Failure)
    else if i < 0 then Raised(NoElement)
    else
      var v := ReadValue(Cell(m, env.l[i]));
      if v.Throw? then Raised(v.message)
      else
        var m1 := Bind(m, env.x, v.value);
        if i + 1 < |env.l| then Next(Push(st, MemberRetry(env, frame)), m1, env.cont)
        else Next(st, m1, env.cont)
  }

  /** `cu2`: `i++`; at the end of the list it fails without popping, else it pops once and runs `cu1`. */
  function Cu2Step(st: Stack, m: Memory, env: MemberEnv, frame: nat): (t: Transition)
    ensures frame < |m.counters| && Counter(m, frame) + 1 >= |env.l| ==>
              t == Next(st, StoreCounter(m, frame, Counter(m, frame) + 1), Failure)
    ensures frame < |m.counters| && Counter(m, frame) + 1 < |env.l| ==>
              t == Cu1Step(Pop(st), StoreCounter(m, frame, Counter(m, frame) + 1), env, frame)
  {
    var m1 := StoreCounter(m, frame, Counter(m, frame) + 1);
    if Counter(m1, frame) >= |env.l| then Next(st, m1, Failure)
    else Cu1Step(Pop(st), m1, env, frame)
  }

  /** `exec`: a new `Method_1` instance whose index starts at 0, then `cu1`. */
  function ExecStep(st: Stack, m: Memory, env: MemberEnv): (t: Transition)
    ensures t == Cu1Step(st, NewCounter(m, 0).0, env, |m.counters|)
    ensures env.l == [] ==> t == Next(st, NewCounter(m, 0).0, Failure)
  {
    var (m1, frame) := NewCounter(m, 0);
    Cu1Step(st, m1, env, frame)
  }

  /** An empty list fails at once and registers no choice point. */
  lemma EmptyListFails(st: Stack, m: Memory, env: MemberEnv)
    requires env.l == []
    ensures ExecStep(st, m, env).Next?
    ensures ExecStep(st, m, env).goal == Failure && ExecStep(st, m, env).stack == st
    ensures ExecStep(st, m, env).mem.cells == m.cells
  {
  }

  method Cu1(vm: VM, heap: Heap, env: MemberEnv, frame: nat) returns (t: Result<Goal>)
    modifies vm, heap
    ensures Settled(vm.State(), heap.Mem(), t) == Cu1Step(old(vm.State()), old(heap.Mem()), env, frame)
  {
    var i := heap.GetCounter(frame);
    // The source's `while` runs its body at most once: the body always returns.
    if i < |env.l| {
      if i < 0 {
        return Throw(NoElement);
      }
      var v := ReadValue(heap.GetCell(env.l[i]));
      if v.Throw? {
        return Throw(v.message);
      }
      heap.SetValue(env.x, v.value);
      if i + 1 < |env.l| {
        vm.SetChoicePoint(MemberRetry(env, frame));
      }
      return Ok(env.cont);
    }
    return Ok(Failure);
  }

  method Cu2(vm: VM, heap: Heap, env: MemberEnv, frame: nat) returns (t: Result<Goal>)
    modifies vm, heap
    ensures Settled(vm.State(), heap.Mem(), t) == Cu2Step(old(vm.State()), old(heap.Mem()), env, frame)
  {
    var i := heap.GetCounter(frame);
    heap.SetCounter(frame, i + 1);
    if heap.GetCounter(frame) >= |env.l| {
      return Ok(Failure);
    }
    vm.PopChoicePoint();
    t := Cu1(vm, heap, env, frame);
  }

  method Exec(vm: VM, heap: Heap, env: MemberEnv) returns (t: Result<Goal>)
    modifies vm, heap
    ensures Settled(vm.State(), heap.Mem(), t) == ExecStep(old(vm.State()), old(heap.Mem()), env)
  {
    var frame := heap.NewFrame(0);
    t := Cu1(vm, heap, env, frame);
  }
}
