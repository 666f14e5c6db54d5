/**
 * The driver of src/module/VM.ts: `call` runs goals until one returns the
 * success sentinel (true) or until no goal is left (false), resuming at the
 * top choice point, without popping it, whenever a goal returns the failure
 * sentinel; `redo` pops the top choice point and `call`s it. The two loops are
 * stated as functions with a step budget (`fuel`): JavaScript would loop
 * forever where the budget runs out. `Drive` is the loop of a generated
 * `main`: one row of recorded cells per success, `redo` until it is false.
 */
module Engine {
  import opened Base
  import opened Variables
  import opened Predicates
  import opened VM
  import opened Heaps
  import For
  import Member
  import Case
  import Test
  import Sample

  /** One `exec`, dispatched on the kind of goal. */
  function ExecStep(st: Stack, m: Memory, g: Goal): Transition
  {
    match g
    case Success => Next(st, m, SentinelExec(g))
    case Failure => Next(st, m, SentinelExec(g))
    case ForGoal(env) => For.ExecStep(st, m, env)
    case ForRetry(env, frame) => For.Cu2Step(st, m, env, frame)
    case MemberGoal(env) => Member.ExecStep(st, m, env)
    case MemberRetry(env, frame) => Member.Cu2Step(st, m, env, frame)
    case CaseGoal(target, cases, cont) =>
      var r := Case.ExecStep(m, target, cases, cont);
      Next(st, r.0, r.1)
    case TestGoal(condition, cont, result) =>
      var r := Test.ExecStep(m, condition, cont, result);
      Next(st, r.0, r.1)
    case ForClassGoal(env) => Sample.ExecStep(st, m, env)
    case ForClassAlt(env, b1) => Sample.AltStep(st, m, env, b1)
    case ForClassAltNext(env, b1) => Sample.AltNextStep(st, m, env, b1)
  }

  /** How `call` or `redo` ended: true, false, an exception, or the step budget exhausted. */
  datatype Answer = Yes | No | Threw(message: string) | OutOfFuel

  datatype Run = Run(stack: Stack, mem: Memory, answer: Answer)

  /**
   * `call`'s loop from goal `g` (None: JavaScript's undefined). After a throw
   * the state is reported as it was before the throwing step.
   */
  function RunCall(st: Stack, m: Memory, g: Option<Goal>, fuel: nat): Run
    decreases fuel, 2
  {
    if g.None? then Run(st, m, No)
    else if fuel == 0 then Run(st, m, OutOfFuel)
    else Attempt(st, m, g.value, fuel)
  }

  /** One pass of `call`'s loop: `exec` the goal, then go on as `Resume` says. */
  function Attempt(st: Stack, m: Memory, g: Goal, fuel: nat): Run
    requires fuel > 0
    decreases fuel, 1
  {
    Resume(st, m, ExecStep(st, m, g), fuel)
  }

  /**
   * The rest of `call`'s loop after a step: true on the success sentinel, the
   * top choice point (not popped) on the failure sentinel, else the returned goal.
   */
  function Resume(st: Stack, m: Memory, t: Transition, fuel: nat): Run
    requires fuel > 0
    decreases fuel, 0
  {
    match t
    case Raised(msg) => Run(st, m, Threw(msg))
    case Next(st', m', next) =>
      if next == Success then Run(st', m', Yes)
      else if next == Failure then RunCall(st', m', Top(st'), fuel - 1)
      else RunCall(st', m', Some(next), fuel - 1)
  }

  /** `redo`: false, with the stack unchanged, when there is no top choice point. */
  function RunRedo(st: Stack, m: Memory, fuel: nat): Run
  {
    match Top(st)
    case None => Run(st, m, No)
    case Some(cp) => RunCall(Pop(st), m, Some(cp), fuel)
  }

  /** The budget only cuts runs short: a run that ends within it ends the same with more. */
  lemma {:induction false} MoreFuel(st: Stack, m: Memory, g: Option<Goal>, fuel: nat, more: nat)
    requires fuel <= more && RunCall(st, m, g, fuel).answer != OutOfFuel
    ensures RunCall(st, m, g, more) == RunCall(st, m, g, fuel)
    decreases fuel, 1
  {
    if g.Some? && fuel > 0 {
      CallStep(st, m, g.value, fuel);
      CallStep(st, m, g.value, more);
      ResumeMoreFuel(st, m, ExecStep(st, m, g.value), fuel, more);
    }
  }

  /** `MoreFuel` for the rest of the loop after a step. */
  lemma {:induction false} ResumeMoreFuel(st: Stack, m: Memory, t: Transition, fuel: nat, more: nat)
    requires 0 < fuel <= more && Resume(st, m, t, fuel).answer != OutOfFuel
    ensures Resume(st, m, t, more) == Resume(st, m, t, fuel)
    decreases fuel, 0
  {
    if t.Next? && t.goal != Success {
      var g' := if t.goal == Failure then Top(t.stack) else Some(t.goal);
      MoreFuel(t.stack, t.mem, g', fuel - 1, more - 1);
    }
  }

  /** `call` of a goal within the budget is one `exec` and what follows it. */
  lemma CallStep(st: Stack, m: Memory, g: Goal, fuel: nat)
    requires fuel > 0
    ensures RunCall(st, m, Some(g), fuel) == Resume(st, m, ExecStep(st, m, g), fuel)
  {
    assert RunCall(st, m, Some(g), fuel) == Attempt(st, m, g, fuel);
  }

  /**
   * One pass of `call`'s loop, seen from the outcome of `exec` (a returned
   * goal or an exception, and the state it left): an exception ends `call`,
   * the success sentinel makes it true, the failure sentinel resumes at the
   * top choice point, any other goal is run next.
   */
  lemma CallAfterStep(st: Stack, m: Memory, g: Goal, fuel: nat, t: Result<Goal>, st': Stack, m': Memory)
    requires fuel > 0 && Settled(st', m', t) == ExecStep(st, m, g)
    ensures t.Throw? ==> RunCall(st, m, Some(g), fuel).answer == Threw(t.message)
    ensures t == Ok(Success) ==> RunCall(st, m, Some(g), fuel) == Run(st', m', Yes)
    ensures t == Ok(Failure) ==> RunCall(st, m, Some(g), fuel) == RunCall(st', m', Top(st'), fuel - 1)
    ensures t.Ok? && t.value != Success && t.value != Failure ==>
              RunCall(st, m, Some(g), fuel) == RunCall(st', m', Some(t.value), fuel - 1)
  {
    CallStep(st, m, g, fuel);
  }

  /** A step that returns a goal other than the sentinels: `call` goes on with it. */
  lemma CallPasses(st: Stack, m: Memory, g: Goal, fuel: nat)
    requires fuel > 0
    requires ExecStep(st, m, g).Next? && ExecStep(st, m, g).goal != Success && ExecStep(st, m, g).goal != Failure
    ensures RunCall(st, m, Some(g), fuel)
            == RunCall(ExecStep(st, m, g).stack, ExecStep(st, m, g).mem, Some(ExecStep(st, m, g).goal), fuel - 1)
  {
    CallStep(st, m, g, fuel);
  }

  /** A step that returns the success sentinel: `call` is true in the state it left. */
  lemma CallSucceeds(st: Stack, m: Memory, g: Goal, fuel: nat)
    requires fuel > 0 && ExecStep(st, m, g).Next? && ExecStep(st, m, g).goal == Success
    ensures RunCall(st, m, Some(g), fuel) == Run(ExecStep(st, m, g).stack, ExecStep(st, m, g).mem, Yes)
  {
    CallStep(st, m, g, fuel);
  }

  /** A step that returns the failure sentinel with no choice point left: `call` is false. */
  lemma CallFails(st: Stack, m: Memory, g: Goal, fuel: nat)
    requires fuel > 0 && ExecStep(st, m, g).Next? && ExecStep(st, m, g).goal == Failure
    requires Top(ExecStep(st, m, g).stack).None?
    ensures RunCall(st, m, Some(g), fuel) == Run(ExecStep(st, m, g).stack, ExecStep(st, m, g).mem, No)
  {
    var t := ExecStep(st, m, g);
    CallStep(st, m, g, fuel);
    assert Resume(st, m, t, fuel) == RunCall(t.stack, t.mem, None, fuel - 1);
  }

  /** The cells `outs` read with `getValue`, which throws on an unbound cell. */
  function ReadAll(m: Memory, outs: seq<Ref>): (r: Result<seq<Value>>)
    ensures r.Ok? ==> |r.value| == |outs|
    ensures r.Throw? ==> r.message == "null value"
    decreases |outs|
  {
    if outs == [] then Ok([])
    else
      var v := ReadValue(Cell(m, outs[0]));
      var rest := ReadAll(m, outs[1..]);
      if v.Throw? then Throw(v.message)
      else if rest.Throw? then rest
      else Ok([v.value] + rest.value)
  }

  /** `getValue` succeeds on every recorded cell iff all are bound, and row i holds cell i. */
  lemma {:induction false} ReadAllCells(m: Memory, outs: seq<Ref>)
    ensures ReadAll(m, outs).Ok? <==> forall i :: 0 <= i < |outs| ==> Cell(m, outs[i]).Some?
    ensures ReadAll(m, outs).Ok? ==> forall i :: 0 <= i < |outs| ==> Cell(m, outs[i]) == Some(ReadAll(m, outs).value[i])
    decreases |outs|
  {
    if outs != [] {
      ReadAllCells(m, outs[1..]);
      assert forall i :: 1 <= i < |outs| ==> outs[i] == outs[1..][i - 1];
    }
  }

  /** What a generated `main` returns: one row per success, and how the last `call`/`redo` ended. */
  datatype Trace = Trace(rows: seq<seq<Value>>, last: Answer)

  /**
   * `for (s = call(p); s === true; s = redo()) result.push(<outs>)`, from the
   * run `r` of the first `call`, recording at most `rounds` rows.
   */
  function Drive(r: Run, outs: seq<Ref>, rounds: nat, fuel: nat): Trace
    decreases rounds
  {
    if !r.answer.Yes? then Trace([], r.answer)
    else if rounds == 0 then Trace([], OutOfFuel)
    else
      match ReadAll(r.mem, outs)
      case Throw(msg) => Trace([], Threw(msg))
      case Ok(row) =>
        var rest := Drive(RunRedo(r.stack, r.mem, fuel), outs, rounds - 1, fuel);
        Trace([row] + rest.rows, rest.last)
  }

  /**
   * The loop records at most `rounds` rows, never ends on a true `call`, ends at
   * once when the first `call` is not true, and otherwise records first the cells
   * as the first `call` left them.
   */
  lemma {:induction false} DriveShape(r: Run, outs: seq<Ref>, rounds: nat, fuel: nat)
    ensures !r.answer.Yes? ==> Drive(r, outs, rounds, fuel) == Trace([], r.answer)
    ensures |Drive(r, outs, rounds, fuel).rows| <= rounds
    ensures !Drive(r, outs, rounds, fuel).last.Yes?
    ensures r.answer.Yes? && rounds > 0 && ReadAll(r.mem, outs).Ok? ==>
              Drive(r, outs, rounds, fuel).rows != []
              && Drive(r, outs, rounds, fuel).rows[0] == ReadAll(r.mem, outs).value
    decreases rounds
  {
    if r.answer.Yes? && rounds > 0 && ReadAll(r.mem, outs).Ok? {
      DriveShape(RunRedo(r.stack, r.mem, fuel), outs, rounds - 1, fuel);
    }
  }

  /** One round of a generated `main`'s loop: record the row, then `redo`. */
  lemma DriveRound(r: Run, outs: seq<Ref>, rounds: nat, fuel: nat, row: seq<Value>)
    requires r.answer.Yes? && rounds > 0 && ReadAll(r.mem, outs) == Ok(row)
    ensures Drive(r, outs, rounds, fuel)
            == Trace([row] + Drive(RunRedo(r.stack, r.mem, fuel), outs, rounds - 1, fuel).rows,
                     Drive(RunRedo(r.stack, r.mem, fuel), outs, rounds - 1, fuel).last)
  {
  }

  /** The loop's invariant carried over one recorded row. */
  lemma DriveAdvance(first: Run, outs: seq<Ref>, rounds: nat, fuel: nat, rows: seq<seq<Value>>,
                     cur: Run, k: nat, row: seq<Value>)
    requires Drive(first, outs, rounds, fuel) == Trace(rows + Drive(cur, outs, k, fuel).rows, Drive(cur, outs, k, fuel).last)
    requires cur.answer.Yes? && k > 0 && ReadAll(cur.mem, outs) == Ok(row)
    ensures var next := Drive(RunRedo(cur.stack, cur.mem, fuel), outs, k - 1, fuel);
            Drive(first, outs, rounds, fuel) == Trace((rows + [row]) + next.rows, next.last)
  {
    DriveRound(cur, outs, k, fuel, row);
    var next := Drive(RunRedo(cur.stack, cur.mem, fuel), outs, k - 1, fuel);
    assert rows + ([row] + next.rows) == (rows + [row]) + next.rows;
  }

  /** One `exec` on the machine. */
  method Step(vm: VM, heap: Heap, g: Goal) returns (t: Result<Goal>)
    modifies vm, heap
    ensures Settled(vm.State(), heap.Mem(), t) == ExecStep(old(vm.State()), old(heap.Mem()), g)
  {
    match g
    case Success => t := Ok(g);
    case Failure => t := Ok(g);
    case ForGoal(env) => t := For.Exec(vm, heap, env);
    case ForRetry(env, frame) => t := For.Cu2(vm, heap, env, frame);
    case MemberGoal(env) => t := Member.Exec(vm, heap, env);
    case MemberRetry(env, frame) => t := Member.Cu2(vm, heap, env, frame);
    case CaseGoal(target, cases, cont) =>
      var next := Case.Exec(heap, target, cases, cont);
      t := Ok(next);
    case TestGoal(condition, cont, result) =>
      var next := Test.Exec(heap, condition, cont, result);
      t := Ok(next);
    case ForClassGoal(env) => t := Sample.Exec(vm, heap, env);
    case ForClassAlt(env, b1) => t := Sample.Alt(vm, heap, env, b1);
    case ForClassAltNext(env, b1) => t := Ok(ForClassGoal(ForClassEnv(b1, env.e, env.s, env.n, env.cont)));
  }

  /** One pass of `call`'s loop on the machine: `exec` the goal, related to the rest of the run. */
  method Pass(vm: VM, heap: Heap, g: Goal, fuel: nat) returns (t: Result<Goal>)
    requires fuel > 0
    modifies vm, heap
    ensures t.Throw? ==> RunCall(old(vm.State()), old(heap.Mem()), Some(g), fuel).answer == Threw(t.message)
    ensures t == Ok(Success) ==> RunCall(old(vm.State()), old(heap.Mem()), Some(g), fuel) == Run(vm.State(), heap.Mem(), Yes)
    ensures t == Ok(Failure) ==>
              RunCall(old(vm.State()), old(heap.Mem()), Some(g), fuel) == RunCall(vm.State(), heap.Mem(), Top(vm.State()), fuel - 1)
    ensures t.Ok? && t.value != Success && t.value != Failure ==>
              RunCall(old(vm.State()), old(heap.Mem()), Some(g), fuel) == RunCall(vm.State(), heap.Mem(), Some(t.value), fuel - 1)
  {
    ghost var st, m := vm.State(), heap.Mem();
    t := Step(vm, heap, g);
    CallAfterStep(st, m, g, fuel, t, vm.State(), heap.Mem());
  }

  /** `call(goal)`; after an exception the machine state is not specified. */
  method Call(vm: VM, heap: Heap, goal: Goal, fuel: nat) returns (a: Answer)
    modifies vm, heap
    ensures a == RunCall(old(vm.State()), old(heap.Mem()), Some(goal), fuel).answer
    ensures !a.Threw? ==> vm.State() == RunCall(old(vm.State()), old(heap.Mem()), Some(goal), fuel).stack
    ensures !a.Threw? ==> heap.Mem() == RunCall(old(vm.State()), old(heap.Mem()), Some(goal), fuel).mem
  {
    ghost var spec := RunCall(vm.State(), heap.Mem(), Some(goal), fuel);
    var local: Option<Goal> := Some(goal);
    var f := fuel;
    while local.Some? && f > 0
      invariant RunCall(vm.State(), heap.Mem(), local, f) == spec
      decreases f
    {
      var t := Pass(vm, heap, local.value, f);
      if t.Throw? {
        return Threw(t.message);
      }
      if t.value == Success {
        return Yes;
      }
      if t.value == Failure {
        local := vm.GetChoicePoint();
      } else {
        local := Some(t.value);
      }
      f := f - 1;
    }
    a := if local.None? then No else OutOfFuel;
  }

  /** `redo()`. */
  method Redo(vm: VM, heap: Heap, fuel: nat) returns (a: Answer)
    modifies vm, heap
    ensures a == RunRedo(old(vm.State()), old(heap.Mem()), fuel).answer
    ensures !a.Threw? ==> vm.State() == RunRedo(old(vm.State()), old(heap.Mem()), fuel).stack
    ensures !a.Threw? ==> heap.Mem() == RunRedo(old(vm.State()), old(heap.Mem()), fuel).mem
  {
    var cp := vm.GetChoicePoint();
    if cp.None? {
      return No;
    }
    vm.PopChoicePoint();
    a := Call(vm, heap, cp.value, fuel);
  }

  /** The `call`/`redo` loop of a generated `main`, recording the cells `outs` after each success. */
  method Enumerate(vm: VM, heap: Heap, goal: Goal, outs: seq<Ref>, rounds: nat, fuel: nat)
    returns (rows: seq<seq<Value>>, last: Answer)
    modifies vm, heap
    ensures Trace(rows, last) == Drive(RunCall(old(vm.State()), old(heap.Mem()), Some(goal), fuel), outs, rounds, fuel)
  {
    ghost var first := RunCall(vm.State(), heap.Mem(), Some(goal), fuel);
    ghost var cur := first;
    var a := Call(vm, heap, goal, fuel);
    rows := [];
    var k := rounds;
    while a.Yes? && k > 0
      invariant a == cur.answer
      invariant a.Yes? ==> vm.State() == cur.stack && heap.Mem() == cur.mem
      invariant Drive(first, outs, rounds, fuel)
                == Trace(rows + Drive(cur, outs, k, fuel).rows, Drive(cur, outs, k, fuel).last)
      decreases k
    {
      var row := ReadAll(heap.Mem(), outs);
      if row.Throw? {
        assert Drive(cur, outs, k, fuel) == Trace([], Threw(row.message));
        return rows, Threw(row.message);
      }
      DriveAdvance(first, outs, rounds, fuel, rows, cur, k, row.value);
      rows := rows + [row.value];
      cur := RunRedo(cur.stack, cur.mem, fuel);
      a := Redo(vm, heap, fuel);
      k := k - 1;
    }
    assert Drive(cur, outs, k, fuel) == Trace([], if a.Yes? then OutOfFuel else a);
    last := if a.Yes? then OutOfFuel else a;
  }
}
