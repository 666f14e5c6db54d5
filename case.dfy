/**
 * The first-true dispatcher (src/module/Case.ts). The conditions arrive
 * evaluated; `exec` walks the cases in order, binds the target to the
 * expression of the first case whose condition holds and returns the
 * continuation, or fails when none holds.
 */
module Case {
  import opened Base
  import opened Variables
  import opened Predicates
  import opened Heaps

  /** The position of the first case whose condition holds. */
  function FirstTrue(cases: seq<CaseArm>): (k: Option<nat>)
    ensures k.Some? ==> k.value < |cases| && cases[k.value].cond
    ensures k.Some? ==> forall j :: 0 <= j < k.value ==> !cases[j].cond
    ensures k.None? <==> forall j :: 0 <= j < |cases| ==> !cases[j].cond
  {
    if cases == [] then None
    else if cases[0].cond then Some(0)
    else
      var k := FirstTrue(cases[1..]);
      if k.None? then None else Some(k.value + 1)
  }

  /** `exec`, as the state it leaves and the goal it returns (it never throws). */
  function ExecStep(m: Memory, target: Ref, cases: seq<CaseArm>, cont: Goal): (r: (Memory, Goal))
    ensures FirstTrue(cases).None? ==> r == (m, Failure)
    ensures FirstTrue(cases).Some? ==> r == (Bind(m, target, cases[FirstTrue(cases).value].expr), cont)
    decreases |cases|
  {
    if cases == [] then (m, Failure)
    else if cases[0].cond then (Bind(m, target, cases[0].expr), cont)
    else ExecStep(m, target, cases[1..], cont)
  }

  /** The cases after the first true one do not affect the outcome. */
  lemma {:induction false} LaterCasesIgnored(m: Memory, target: Ref, cases: seq<CaseArm>, rest: seq<CaseArm>, cont: Goal)
    requires FirstTrue(cases).Some?
    ensures ExecStep(m, target, cases + rest, cont) == ExecStep(m, target, cases, cont)
    decreases |cases|
  {
    if !cases[0].cond {
      assert (cases + rest)[1..] == cases[1..] + rest;
      LaterCasesIgnored(m, target, cases[1..], rest, cont);
    }
  }

  method Exec(heap: Heap, target: Ref, cases: seq<CaseArm>, cont: Goal) returns (g: Goal)
    modifies heap
    ensures (heap.Mem(), g) == ExecStep(old(heap.Mem()), target, cases, cont)
  {
    var i := 0;
    while i < |cases|
      invariant 0 <= i <= |cases|
      invariant forall j :: 0 <= j < i ==> !cases[j].cond
      invariant heap.Mem() == old(heap.Mem())
    {
      if cases[i].cond {
        heap.SetValue(target, cases[i].expr);
        return cont;
      }
      i := i + 1;
    }
    return Failure;
  }
}
