/**
 * The test primitive (src/module/Test.ts). `exec` writes `true` into the
 * result cell when the condition holds and then writes `false` unconditionally,
 * so the cell always ends up `false`; it returns the continuation whatever the
 * condition.
 */
module Test {
  import opened Base
  import opened Variables
  import opened Predicates
  import opened Heaps

  /** `new Test(condition, cont, result?)`: without a result cell, a fresh `Variable(false)`. */
  method New(heap: Heap, condition: bool, cont: Goal, result: Option<Ref>) returns (g: Goal)
    modifies heap
    ensures g.TestGoal? && g.condition == condition && g.cont == cont
    ensures result.Some? ==> g.result == result.value && heap.Mem() == old(heap.Mem())
    ensures result.None? ==> (heap.Mem(), g.result) == Alloc(old(heap.Mem()), Some(Bool(false)))
  {
    var r: Ref;
    if result.Some? {
      r := result.value;
    } else {
      r := heap.NewCell(Some(Bool(false)));
    }
    g := TestGoal(condition, cont, r);
  }

  /** `exec`, as the state it leaves and the goal it returns. */
  function ExecStep(m: Memory, condition: bool, cont: Goal, result: Ref): (r: (Memory, Goal))
    ensures r.1 == cont
    ensures r.0 == Bind(m, result, Bool(false))
  {
    var m1 := if condition then Bind(m, result, Bool(true)) else m;
    (Bind(m1, result, Bool(false)), cont)
  }

  /** Whatever the condition, the result cell holds false afterwards and nothing fails. */
  lemma ResultAlwaysFalse(m: Memory, condition: bool, cont: Goal, result: Ref)
    requires result < |m.cells| && cont != Failure
    ensures Cell(ExecStep(m, condition, cont, result).0, result) == Some(Bool(false))
    ensures ExecStep(m, condition, cont, result).1 != Failure
  {
  }

  method Exec(heap: Heap, condition: bool, cont: Goal, result: Ref) returns (g: Goal)
    modifies heap
    ensures (heap.Mem(), g) == ExecStep(old(heap.Mem()), condition, cont, result)
  {
    if condition {
      heap.SetValue(result, Bool(true));
    }
    heap.SetValue(result, Bool(false));
    g := cont;
  }
}
