/**
 * The `main` of src/module/sample.ts: cells B, E, S hold the input and N
 * starts at 0; `ForClass(B, E, S, N, success)` is called and then redone
 * until `redo` is false, recording N after each success. Unlike a nested For,
 * each `redo` here pops exactly once: the choice point it pops is the
 * `Method_2` registered by the round before, and `Method_2` registers nothing
 * itself, so the stack returns to the same depth every round.
 */
module SampleMain {
  import opened Base
  import opened Variables
  import opened Predicates
  import opened VM
  import opened Heaps
  import opened Engine
  import opened Enumeration
  import Sample

  /** B, E and S hold the numbers b, e and s; N is bound-able and is none of them. */
  predicate Inputs(m: Memory, env: ForClassEnv, b: int, e: int, s: int)
  {
    Cell(m, env.b) == Some(Num(b)) && Cell(m, env.e) == Some(Num(e)) && Cell(m, env.s) == Some(Num(s))
    && env.n < |m.cells| && env.n != env.b && env.n != env.e && env.n != env.s
  }

  /** `Method_2`'s two units run without a choice: B1 := B + S, then a fresh ForClass on B1. */
  lemma AltRuns(st: Stack, m: Memory, env: ForClassEnv, b1: Ref, b: int, s: int, fuel: nat)
    requires Cell(m, env.b) == Some(Num(b)) && Cell(m, env.s) == Some(Num(s)) && fuel >= 2
    ensures RunCall(st, m, Some(ForClassAlt(env, b1)), fuel)
            == RunCall(st, Bind(m, b1, Num(b + s)), Some(ForClassGoal(env.(b := b1))), fuel - 2)
  {
    var m2 := Bind(m, b1, Num(b + s));
    var g2 := ForClassAltNext(env, b1);
    assert Sample.AltStep(st, m, env, b1) == Next(st, m2, g2);
    assert ExecStep(st, m, ForClassAlt(env, b1)) == Next(st, m2, g2);
    CallPasses(st, m, ForClassAlt(env, b1), fuel);
    assert ExecStep(st, m2, g2) == Next(st, m2, ForClassGoal(env.(b := b1)));
    CallPasses(st, m2, g2, fuel - 1);
  }

  /** A ForClass step that returns the success sentinel makes `call` true. */
  lemma FreshSucceeds(st: Stack, m: Memory, env: ForClassEnv, fuel: nat)
    requires fuel > 0 && Sample.ExecStep(st, m, env).Next? && Sample.ExecStep(st, m, env).goal == Success
    ensures RunCall(st, m, Some(ForClassGoal(env)), fuel)
            == Run(Sample.ExecStep(st, m, env).stack, Sample.ExecStep(st, m, env).mem, Yes)
  {
    CallSucceeds(st, m, ForClassGoal(env), fuel);
  }

  /** The stack a successful ForClass step leaves: `Method_2` registered exactly when `B+S <= E`. */
  function StackAfter(st: Stack, env: ForClassEnv, b: int, e: int, s: int, b1: Ref): Stack
  {
    if b + s <= e then Push(st, ForClassAlt(env, b1)) else st
  }

  /**
   * A `redo` into the `Method_2` that a round with `b + s <= e` registered:
   * B1 := b + s in the private cell, then a fresh ForClass on B1 that again
   * succeeds with N := b + s.
   */
  lemma SampleRedo(st: Stack, m: Memory, env: ForClassEnv, b: int, e: int, s: int, fuel: nat)
    requires Inputs(m, env, b, e, s) && env.cont == Success && s > 0 && b + s <= e && fuel >= 3
    ensures var b1 := |m.cells|;
            var m1 := Bind(Alloc(m, None).0, env.n, Num(b));
            var m2 := Bind(m1, b1, Num(b + s));
            var env' := env.(b := b1);
            Inputs(m2, env', b + s, e, s)
            && RunRedo(Push(st, ForClassAlt(env, b1)), m1, fuel)
               == Run(StackAfter(Pop(Push(st, ForClassAlt(env, b1))), env', b + s, e, s, |m2.cells|),
                      Bind(Alloc(m2, None).0, env.n, Num(b + s)), Yes)
  {
    var b1 := |m.cells|;
    var p := Push(st, ForClassAlt(env, b1));
    var m1 := Bind(Alloc(m, None).0, env.n, Num(b));
    assert |m1.cells| == b1 + 1;
    assert Cell(m1, env.b) == Some(Num(b)) && Cell(m1, env.s) == Some(Num(s)) && Cell(m1, env.e) == Some(Num(e));
    var m2 := Bind(m1, b1, Num(b + s));
    var env' := env.(b := b1);
    assert Inputs(m2, env', b + s, e, s);
    var st1 := Pop(p);
    Sample.PositiveStepCases(st1, m2, env', b + s, e, s);
    AltRuns(st1, m1, env, b1, b, s, fuel);
    FreshSucceeds(st1, m2, env', fuel - 2);
    assert Top(p) == Some(ForClassAlt(env, b1));
  }

  /** The run a successful ForClass step on B = b leaves: N = b, and `Method_2` registered when `B+S <= E`. */
  function Entered(st: Stack, m: Memory, env: ForClassEnv, b: int, e: int, s: int): Run
  {
    Run(StackAfter(st, env, b, e, s, |m.cells|), Bind(Alloc(m, None).0, env.n, Num(b)), Yes)
  }

  /**
   * From a success of ForClass on B = b <= e (on a clear stack, with a positive
   * step), the successive `redo`s bind N to b, b+s, ... up to e, and then are false.
   */
  lemma {:induction false} SampleRounds(st: Stack, m: Memory, env: ForClassEnv, b: int, e: int, s: int, fuel: nat)
    requires Inputs(m, env, b, e, s) && env.cont == Success && s > 0 && b <= e && Clear(st) && fuel >= 3
    ensures Binds(Entered(st, m, env, b, e, s), env.n, Nums(Range(b, e, s)), fuel)
    decreases e - b
  {
    var r := Entered(st, m, env, b, e, s);
    NumsCons(b, Range(b + s, e, s));
    assert Nums(Range(b, e, s)) == [Num(b)] + Nums(Range(b + s, e, s));
    if b + s > e {
      ClearTop(st);
      assert Range(b + s, e, s) == [];
      assert RunRedo(r.stack, r.mem, fuel) == Run(st, r.mem, No);
    } else {
      var st1 := Pop(Push(st, ForClassAlt(env, |m.cells|)));
      var m2 := Bind(r.mem, |m.cells|, Num(b + s));
      var env2 := env.(b := |m.cells|);
      RedoKeepsClear(st, ForClassAlt(env, |m.cells|));
      SampleRedo(st, m, env, b, e, s, fuel);
      SampleRounds(st1, m2, env2, b + s, e, s, fuel);
      assert RunRedo(r.stack, r.mem, fuel) == Entered(st1, m2, env2, b + s, e, s);
    }
  }

  /**
   * `main` on a clear stack: with a positive step S the recorded N values are
   * B, B+S, B+2S, ... up to E in order, and the last `redo` is false; nothing
   * is recorded when B > E.
   */
  lemma SampleEnumerates(st: Stack, m: Memory, env: ForClassEnv, b: int, e: int, s: int, rounds: nat, fuel: nat)
    requires Inputs(m, env, b, e, s) && env.cont == Success && s > 0
    requires Clear(st) && rounds > |Range(b, e, s)| && fuel >= 3
    ensures Drive(RunCall(st, m, Some(ForClassGoal(env)), fuel), [env.n], rounds, fuel)
            == Trace(Rows(Nums(Range(b, e, s))), No)
  {
    Sample.PositiveStepCases(st, m, env, b, e, s);
    var t := Sample.ExecStep(st, m, env);
    CallStep(st, m, ForClassGoal(env), fuel);
    assert RunCall(st, m, Some(ForClassGoal(env)), fuel) == Resume(st, m, t, fuel);
    if b > e {
      ClearTop(st);
      CallFails(st, m, ForClassGoal(env), fuel);
    } else {
      FreshSucceeds(st, m, env, fuel);
      assert t == Next(StackAfter(st, env, b, e, s, |m.cells|), Bind(Alloc(m, None).0, env.n, Num(b)), Success);
      SampleRounds(st, m, env, b, e, s, fuel);
      NumsIndex(Range(b, e, s));
      BindsDrive(Entered(st, m, env, b, e, s), env.n, Nums(Range(b, e, s)), rounds, fuel);
    }
  }

  /** The memory `main` builds: B, E, S from the input and N = 0, at addresses 0..3. */
  function MainMemory(b: int, e: int, s: int): (m: Memory)
    ensures Inputs(m, MainEnv, b, e, s)
  {
    Memory([Some(Num(b)), Some(Num(e)), Some(Num(s)), Some(Num(0))], [])
  }

  const MainEnv := ForClassEnv(0, 1, 2, 3, Success)

  /** `main(input)`: the rows of N recorded by the `call`/`redo` loop, within the given budgets. */
  method RunSample(b: int, e: int, s: int, rounds: nat, fuel: nat) returns (rows: seq<seq<Value>>, last: Answer)
    ensures Trace(rows, last) == Drive(RunCall(Empty, MainMemory(b, e, s), Some(ForClassGoal(MainEnv)), fuel), [3], rounds, fuel)
    ensures s > 0 && rounds > |Range(b, e, s)| && fuel >= 3 ==> rows == Rows(Nums(Range(b, e, s))) && last == No
  {
    var vm := new VM();
    var heap := new Heap();
    var rb := heap.NewCell(Some(Num(b)));
    var re := heap.NewCell(Some(Num(e)));
    var rs := heap.NewCell(Some(Num(s)));
    var rn := heap.NewCell(Some(Num(0)));
    assert heap.Mem() == MainMemory(b, e, s);
    var goal := ForClassGoal(ForClassEnv(rb, re, rs, rn, Success));
    assert goal == ForClassGoal(MainEnv);
    rows, last := Enumerate(vm, heap, goal, [rn], rounds, fuel);
    if s > 0 && rounds > |Range(b, e, s)| && fuel >= 3 {
      EmptyIsClear();
      SampleEnumerates(Empty, MainMemory(b, e, s), MainEnv, b, e, s, rounds, fuel);
    }
  }
}
