/**
 * What the generators enumerate when driven by `call` and `redo`: a For
 * generator binds from, from+by, ... up to `to`; a Member generator binds the
 * list's elements in order. Both hold on a stack with nothing at or below the
 * current position (a fresh VM). Nested inside another generator, the extra
 * pop of the retry unit discards the outer choice point.
 */
module Enumeration {
  import opened Base
  import opened Variables
  import opened Predicates
  import opened VM
  import opened Heaps
  import opened Engine
  import For
  import Member

  /** Nothing is stored at or below `ccp`: no `getChoicePoint` finds anything, now or after pops. */
  predicate Clear(st: Stack)
  {
    forall k :: k in st.slots ==> k > st.ccp
  }

  /** A clear stack has no top choice point. */
  lemma ClearTop(st: Stack)
    requires Clear(st)
    ensures Top(st).None?
  {
  }

  /** Popping what was just pushed leaves a clear stack clear. */
  lemma RedoKeepsClear(st: Stack, g: Goal)
    requires Clear(st)
    ensures Clear(Pop(Push(st, g)))
  {
  }

  lemma EmptyIsClear()
    ensures Clear(Empty) && Top(Empty).None?
  {
  }

  /** lo, lo+step, ... while at most `hi`. */
  function Range(lo: int, hi: int, step: int): seq<int>
    requires step > 0
    decreases hi - lo
  {
    if lo > hi then [] else [lo] + Range(lo + step, hi, step)
  }

  lemma MulSucc(k: int, step: int)
    ensures (k - 1) * step + step == k * step
  {
  }

  /** The k-th value of a range is lo + k*step; all are at most `hi`, and the next one would not be. */
  lemma {:induction false} RangeValues(lo: int, hi: int, step: int)
    requires step > 0
    ensures forall k :: 0 <= k < |Range(lo, hi, step)| ==> Range(lo, hi, step)[k] == lo + k * step <= hi
    ensures lo + |Range(lo, hi, step)| * step > hi
    decreases hi - lo
  {
    if lo <= hi {
      RangeValues(lo + step, hi, step);
      var r := Range(lo + step, hi, step);
      var full := Range(lo, hi, step);
      assert full == [lo] + r;
      forall k | 0 <= k < |full|
        ensures full[k] == lo + k * step <= hi
      {
        if k > 0 {
          assert full[k] == r[k - 1] == lo + step + (k - 1) * step;
          MulSucc(k, step);
        }
      }
      MulSucc(|full|, step);
    }
  }

  /** A range is strictly increasing. */
  lemma RangeIncreasing(lo: int, hi: int, step: int)
    requires step > 0
    ensures forall k, l :: 0 <= k < l < |Range(lo, hi, step)| ==> Range(lo, hi, step)[k] < Range(lo, hi, step)[l]
  {
    RangeValues(lo, hi, step);
    var r := Range(lo, hi, step);
    forall k, l | 0 <= k < l < |r|
      ensures r[k] < r[l]
    {
      assert r[l] - r[k] == (l - k) * step;
    }
  }

  /** One recorded row per value, each a single field. */
  function Rows(vs: seq<Value>): seq<seq<Value>>
  {
    if vs == [] then [] else [[vs[0]]] + Rows(vs[1..])
  }

  function Nums(ns: seq<int>): seq<Value>
  {
    if ns == [] then [] else [Num(ns[0])] + Nums(ns[1..])
  }

  /** Row k records the k-th value. */
  lemma {:induction false} RowsIndex(vs: seq<Value>)
    ensures |Rows(vs)| == |vs| && forall k :: 0 <= k < |vs| ==> Rows(vs)[k] == [vs[k]]
  {
    if vs != [] {
      RowsIndex(vs[1..]);
    }
  }

  lemma {:induction false} NumsIndex(ns: seq<int>)
    ensures |Nums(ns)| == |ns| && forall k :: 0 <= k < |ns| ==> Nums(ns)[k] == Num(ns[k])
  {
    if ns != [] {
      NumsIndex(ns[1..]);
    }
  }

  /** Recording a single bound cell. */
  lemma ReadOne(m: Memory, r: Ref)
    requires Cell(m, r).Some?
    ensures ReadAll(m, [r]) == Ok([Cell(m, r).value])
  {
    assert [r][1..] == [];
    assert ReadAll(m, []) == Ok([]);
    assert [Cell(m, r).value] + [] == [Cell(m, r).value];
  }

  lemma NumsCons(n: int, ns: seq<int>)
    ensures Nums([n] + ns) == [Num(n)] + Nums(ns)
  {
    assert ([n] + ns)[1..] == ns;
  }

  /** Recording two bound cells. */
  lemma ReadTwo(m: Memory, a: Ref, b: Ref)
    requires Cell(m, a).Some? && Cell(m, b).Some?
    ensures ReadAll(m, [a, b]) == Ok([Cell(m, a).value, Cell(m, b).value])
  {
    ReadOne(m, b);
    assert [a, b][0] == a && [a, b][1..] == [b];
    assert ReadValue(Cell(m, a)) == Ok(Cell(m, a).value);
    assert [Cell(m, a).value] + [Cell(m, b).value] == [Cell(m, a).value, Cell(m, b).value];
  }

  /** A round that records the single cell `x`, bound to `v`. */
  lemma DriveOne(r: Run, x: Ref, v: Value, rounds: nat, fuel: nat)
    requires r.answer.Yes? && rounds > 0 && Cell(r.mem, x) == Some(v)
    ensures Drive(r, [x], rounds, fuel)
            == Trace([[v]] + Drive(RunRedo(r.stack, r.mem, fuel), [x], rounds - 1, fuel).rows,
                     Drive(RunRedo(r.stack, r.mem, fuel), [x], rounds - 1, fuel).last)
  {
    ReadOne(r.mem, x);
    DriveRound(r, [x], rounds, fuel, [v]);
  }

  /**
   * The run `r` and the runs after it, each the `redo` of the one before, are
   * successes that bind `x` to `vs` in order, and the `redo` after the last is false.
   */
  predicate Binds(r: Run, x: Ref, vs: seq<Value>, fuel: nat)
    decreases |vs|
  {
    if vs == [] then r.answer == No
    else r.answer == Yes && Cell(r.mem, x) == Some(vs[0]) && Binds(RunRedo(r.stack, r.mem, fuel), x, vs[1..], fuel)
  }

  /** A generated `main` recording `x` from such a run records the rows of `vs`, then stops on false. */
  lemma {:induction false} BindsDrive(r: Run, x: Ref, vs: seq<Value>, rounds: nat, fuel: nat)
    requires Binds(r, x, vs, fuel) && rounds > |vs|
    ensures Drive(r, [x], rounds, fuel) == Trace(Rows(vs), No)
    decreases |vs|
  {
    if vs != [] {
      BindsDrive(RunRedo(r.stack, r.mem, fuel), x, vs[1..], rounds - 1, fuel);
      DriveOne(r, x, vs[0], rounds, fuel);
    }
  }

  /**
   * The run after `cu1` bound `x := i` with the counter at `i`: the retry unit
   * is registered exactly when the next value still fits.
   */
  function ForEntered(st: Stack, m: Memory, env: ForEnv, frame: nat, i: int, hi: int, step: int): Run
  {
    Run(if i + step <= hi then Push(st, ForRetry(env, frame)) else st, Bind(m, env.x, Num(i)), Yes)
  }

  /** `cu1` with the counter at `i <= hi` succeeds as `ForEntered` says. */
  lemma ForEnters(st: Stack, m: Memory, env: ForEnv, frame: nat, i: int, hi: int, step: int)
    requires For.Operands(m, env, hi, step) && env.cont == Success
    requires frame < |m.counters| && Counter(m, frame) == i && i <= hi
    ensures var r := ForEntered(st, m, env, frame, i, hi, step);
            For.Cu1Step(st, m, env, frame) == Next(r.stack, r.mem, Success)
  {
  }

  /** A `redo` into a For retry unit that fits: it pops twice and binds the next value. */
  lemma ForRedo(st: Stack, m: Memory, env: ForEnv, frame: nat, i: int, hi: int, step: int, fuel: nat)
    requires For.Operands(m, env, hi, step) && env.cont == Success && env.x < |m.cells|
    requires frame < |m.counters| && Counter(m, frame) == i && i + step <= hi && fuel > 0
    ensures var m2 := StoreCounter(Bind(m, env.x, Num(i)), frame, i + step);
            var st2 := Pop(Pop(Push(st, ForRetry(env, frame))));
            For.Operands(m2, env, hi, step) && Counter(m2, frame) == i + step
            && RunRedo(Push(st, ForRetry(env, frame)), Bind(m, env.x, Num(i)), fuel)
               == ForEntered(st2, m2, env, frame, i + step, hi, step)
  {
    var p := Push(st, ForRetry(env, frame));
    var m1 := Bind(m, env.x, Num(i));
    assert For.Operands(m1, env, hi, step);
    var m2 := StoreCounter(m1, frame, i + step);
    assert For.Operands(m2, env, hi, step);
    var r2 := ForEntered(Pop(Pop(p)), m2, env, frame, i + step, hi, step);
    var t2 := For.Cu1Step(Pop(Pop(p)), m2, env, frame);
    assert t2 == Next(r2.stack, r2.mem, Success);
    assert Top(p) == Some(ForRetry(env, frame));
    assert ExecStep(Pop(p), m1, ForRetry(env, frame)) == t2;
    CallSucceeds(Pop(p), m1, ForRetry(env, frame), fuel);
  }

  /**
   * From the success that bound `x := i` (counter `i`, on a clear stack), the
   * successive `redo`s bind `x` to i, i+step, ... up to `hi`, and then are false.
   */
  lemma {:induction false} ForRounds(st: Stack, m: Memory, env: ForEnv, frame: nat, i: int, hi: int, step: int, fuel: nat)
    requires env.cont == Success && For.Operands(m, env, hi, step) && step > 0
    requires env.x < |m.cells| && frame < |m.counters| && Counter(m, frame) == i && i <= hi
    requires Clear(st) && fuel > 0
    ensures Binds(ForEntered(st, m, env, frame, i, hi, step), env.x, Nums(Range(i, hi, step)), fuel)
    decreases hi - i
  {
    var r := ForEntered(st, m, env, frame, i, hi, step);
    NumsCons(i, Range(i + step, hi, step));
    assert Nums(Range(i, hi, step)) == [Num(i)] + Nums(Range(i + step, hi, step));
    if i + step > hi {
      ClearTop(st);
      assert Range(i + step, hi, step) == [];
      assert RunRedo(r.stack, r.mem, fuel) == Run(st, r.mem, No);
    } else {
      var st1 := Pop(Pop(Push(st, ForRetry(env, frame))));
      var m2 := StoreCounter(r.mem, frame, i + step);
      ForRedo(st, m, env, frame, i, hi, step, fuel);
      assert Clear(st1);
      ForRounds(st1, m2, env, frame, i + step, hi, step, fuel);
    }
  }

  /**
   * A For goal whose continuation is the success sentinel, run on a clear stack
   * (a fresh VM) by `call` and then `redo` until it is false, binds `x` to
   * from, from+step, ..., each at most `to` and strictly increasing.
   */
  lemma ForEnumerates(st: Stack, m: Memory, env: ForEnv, from: int, hi: int, step: int, rounds: nat, fuel: nat)
    requires env.cont == Success && For.Operands(m, env, hi, step) && step > 0
    requires Cell(m, env.from) == Some(Num(from)) && env.x < |m.cells|
    requires Clear(st) && rounds > |Range(from, hi, step)| && fuel > 0
    ensures Drive(RunCall(st, m, Some(ForGoal(env)), fuel), [env.x], rounds, fuel)
            == Trace(Rows(Nums(Range(from, hi, step))), No)
  {
    var (m1, frame) := NewCounter(m, from);
    assert For.Operands(m1, env, hi, step);
    CallStep(st, m, ForGoal(env), fuel);
    assert RunCall(st, m, Some(ForGoal(env)), fuel) == Resume(st, m, For.Cu1Step(st, m1, env, frame), fuel);
    if from > hi {
      assert For.Cu1Step(st, m1, env, frame) == Next(st, m1, Failure);
      ClearTop(st);
      CallFails(st, m, ForGoal(env), fuel);
    } else {
      ForEnters(st, m1, env, frame, from, hi, step);
      ForRounds(st, m1, env, frame, from, hi, step, fuel);
      NumsIndex(Range(from, hi, step));
      BindsDrive(ForEntered(st, m1, env, frame, from, hi, step), env.x, Nums(Range(from, hi, step)), rounds, fuel);
    }
  }

  /** The list cells hold `vals`, and `x` is none of them. */
  predicate ListHolds(m: Memory, env: MemberEnv, vals: seq<Value>)
  {
    |vals| == |env.l| && env.x < |m.cells|
    && (forall k :: 0 <= k < |env.l| ==> Cell(m, env.l[k]) == Some(vals[k]))
    && (forall k :: 0 <= k < |env.l| ==> env.l[k] != env.x)
  }

  /** The run after `cu1` bound `x := vals[i]`: the retry unit is registered exactly when an element is left. */
  function MemberEntered(st: Stack, m: Memory, env: MemberEnv, frame: nat, i: nat, vals: seq<Value>): Run
    requires i < |vals|
  {
    Run(if i + 1 < |vals| then Push(st, MemberRetry(env, frame)) else st, Bind(m, env.x, vals[i]), Yes)
  }

  /** A `redo` into a Member retry unit with an element left: it pops twice and binds that element. */
  lemma MemberRedo(st: Stack, m: Memory, env: MemberEnv, frame: nat, i: nat, vals: seq<Value>, fuel: nat)
    requires env.cont == Success && ListHolds(m, env, vals)
    requires frame < |m.counters| && Counter(m, frame) == i && i + 1 < |vals| && fuel > 0
    ensures var m2 := StoreCounter(Bind(m, env.x, vals[i]), frame, i + 1);
            ListHolds(m2, env, vals) && Counter(m2, frame) == i + 1
            && RunRedo(Push(st, MemberRetry(env, frame)), Bind(m, env.x, vals[i]), fuel)
               == MemberEntered(Pop(Pop(Push(st, MemberRetry(env, frame)))), m2, env, frame, i + 1, vals)
  {
    var p := Push(st, MemberRetry(env, frame));
    var m1 := Bind(m, env.x, vals[i]);
    var m2 := StoreCounter(m1, frame, i + 1);
    assert ListHolds(m2, env, vals) by {
      assert forall k :: 0 <= k < |env.l| ==> Cell(m2, env.l[k]) == Cell(m, env.l[k]);
    }
    var r2 := MemberEntered(Pop(Pop(p)), m2, env, frame, i + 1, vals);
    var t2 := Member.Cu1Step(Pop(Pop(p)), m2, env, frame);
    assert t2 == Next(r2.stack, r2.mem, Success);
    assert Top(p) == Some(MemberRetry(env, frame));
    assert ExecStep(Pop(p), m1, MemberRetry(env, frame)) == t2;
    CallSucceeds(Pop(p), m1, MemberRetry(env, frame), fuel);
  }

  /**
   * From the success that bound `x := vals[i]` (index `i`, on a clear stack),
   * the successive `redo`s bind `x` to vals[i..] in order, and then are false.
   */
  lemma {:induction false} MemberRounds(st: Stack, m: Memory, env: MemberEnv, frame: nat, i: nat, vals: seq<Value>, fuel: nat)
    requires env.cont == Success && ListHolds(m, env, vals)
    requires frame < |m.counters| && Counter(m, frame) == i && i < |vals|
    requires Clear(st) && fuel > 0
    ensures Binds(MemberEntered(st, m, env, frame, i, vals), env.x, vals[i..], fuel)
    decreases |vals| - i
  {
    var r := MemberEntered(st, m, env, frame, i, vals);
    assert vals[i..][0] == vals[i] && vals[i..][1..] == vals[i + 1..];
    if i + 1 == |vals| {
      ClearTop(st);
      assert vals[i + 1..] == [];
      assert RunRedo(r.stack, r.mem, fuel) == Run(st, r.mem, No);
    } else {
      var st1 := Pop(Pop(Push(st, MemberRetry(env, frame))));
      var m2 := StoreCounter(r.mem, frame, i + 1);
      MemberRedo(st, m, env, frame, i, vals, fuel);
      assert Clear(st1);
      MemberRounds(st1, m2, env, frame, i + 1, vals, fuel);
    }
  }

  /**
   * A Member goal whose continuation is the success sentinel, run on a clear
   * stack by `call` and then `redo` until it is false, binds `x` to the
   * list's elements in list order, each once; an empty list yields nothing.
   */
  lemma MemberEnumerates(st: Stack, m: Memory, env: MemberEnv, vals: seq<Value>, rounds: nat, fuel: nat)
    requires env.cont == Success && ListHolds(m, env, vals)
    requires Clear(st) && rounds > |vals| && fuel > 0
    ensures Drive(RunCall(st, m, Some(MemberGoal(env)), fuel), [env.x], rounds, fuel) == Trace(Rows(vals), No)
  {
    var (m1, frame) := NewCounter(m, 0);
    assert ListHolds(m1, env, vals);
    CallStep(st, m, MemberGoal(env), fuel);
    assert RunCall(st, m, Some(MemberGoal(env)), fuel) == Resume(st, m, Member.Cu1Step(st, m1, env, frame), fuel);
    if vals == [] {
      ClearTop(st);
      assert Member.Cu1Step(st, m1, env, frame) == Next(st, m1, Failure);
      CallFails(st, m, MemberGoal(env), fuel);
    } else {
      var r := MemberEntered(st, m1, env, frame, 0, vals);
      assert Member.Cu1Step(st, m1, env, frame) == Next(r.stack, r.mem, Success);
      MemberRounds(st, m1, env, frame, 0, vals, fuel);
      assert vals[0..] == vals;
      BindsDrive(r, env.x, vals, rounds, fuel);
    }
  }

  /**
   * The nested-For scenario of the root sample.ts with integer bounds: cells
   * 0 (`x`) and 1 (`y`), the constants 0, 1 (the bound `R`) and 1 (the step) in
   * cells 2, 3 and 4; `x` and `y` both range over 0..1 and the inner
   * continuation is the success sentinel.
   */
  const NestedMem := Memory([Some(Num(0)), Some(Num(0)), Some(Num(0)), Some(Num(1)), Some(Num(1))], [])
  const Inner := ForEnv(1, 2, 3, 4, Success)
  const Outer := ForEnv(0, 2, 3, 4, ForGoal(Inner))

  /** The inner For of the first `call`: y := 0, its retry unit registered at slot 1. */
  lemma NestedInnerCall(fuel: nat)
    requires fuel >= 1
    ensures var s1 := Push(Empty, ForRetry(Outer, 0));
            RunCall(s1, Memory(NestedMem.cells, [0]), Some(ForGoal(Inner)), fuel)
            == Run(Push(s1, ForRetry(Inner, 1)), Memory(NestedMem.cells, [0, 0]), Yes)
  {
    var s1 := Push(Empty, ForRetry(Outer, 0));
    var m1 := Memory(NestedMem.cells, [0]);
    var m3 := Memory(NestedMem.cells, [0, 0]);
    assert NewCounter(m1, 0).0 == m3;
    var t2 := Next(Push(s1, ForRetry(Inner, 1)), m3, Success);
    assert For.ExecStep(s1, m1, Inner) == t2;
    assert ExecStep(s1, m1, ForGoal(Inner)) == t2;
    CallSucceeds(s1, m1, ForGoal(Inner), fuel);
  }

  /** The first `call`: x := 0 (retry at slot 0), then y := 0 (retry at slot 1). */
  lemma NestedFirstCall(fuel: nat)
    requires fuel >= 2
    ensures RunCall(Empty, NestedMem, Some(ForGoal(Outer)), fuel)
            == Run(Push(Push(Empty, ForRetry(Outer, 0)), ForRetry(Inner, 1)),
                   Memory([Some(Num(0)), Some(Num(0)), Some(Num(0)), Some(Num(1)), Some(Num(1))], [0, 0]), Yes)
  {
    var m1 := Memory(NestedMem.cells, [0]);
    var s1 := Push(Empty, ForRetry(Outer, 0));
    assert NewCounter(NestedMem, 0).0 == m1;
    assert For.ExecStep(Empty, NestedMem, Outer) == Next(s1, m1, ForGoal(Inner));
    assert ExecStep(Empty, NestedMem, ForGoal(Outer)) == Next(s1, m1, ForGoal(Inner));
    CallPasses(Empty, NestedMem, ForGoal(Outer), fuel);
    NestedInnerCall(fuel - 1);
  }

  /** The first `redo`: pop slot 1, y := 1, and the retry unit pops slot 0 as well. */
  lemma NestedRedo(fuel: nat)
    requires fuel >= 1
    ensures var s2 := Push(Push(Empty, ForRetry(Outer, 0)), ForRetry(Inner, 1));
            RunRedo(s2, Memory([Some(Num(0)), Some(Num(0)), Some(Num(0)), Some(Num(1)), Some(Num(1))], [0, 0]), fuel)
            == Run(Pop(Pop(s2)), Memory([Some(Num(0)), Some(Num(1)), Some(Num(0)), Some(Num(1)), Some(Num(1))], [0, 1]), Yes)
  {
    var s2 := Push(Push(Empty, ForRetry(Outer, 0)), ForRetry(Inner, 1));
    var m4 := Memory([Some(Num(0)), Some(Num(0)), Some(Num(0)), Some(Num(1)), Some(Num(1))], [0, 0]);
    var m5 := Memory(m4.cells, [0, 1]);
    assert StoreCounter(m4, 1, 1) == m5;
    var m6 := Memory([Some(Num(0)), Some(Num(1)), Some(Num(0)), Some(Num(1)), Some(Num(1))], [0, 1]);
    assert Bind(m5, 1, Num(1)) == m6;
    assert For.Cu1Step(Pop(Pop(s2)), m5, Inner, 1) == Next(Pop(Pop(s2)), m6, Success);
    var t := Next(Pop(Pop(s2)), m6, Success);
    assert For.Cu2Step(Pop(s2), m4, Inner, 1) == t;
    assert Top(s2) == Some(ForRetry(Inner, 1));
    assert ExecStep(Pop(s2), m4, ForRetry(Inner, 1)) == t;
    CallStep(Pop(s2), m4, ForRetry(Inner, 1), fuel);
    assert RunCall(Pop(s2), m4, Some(ForRetry(Inner, 1)), fuel) == Resume(Pop(s2), m4, t, fuel);
  }

  /**
   * Row-major order would record four rows; the machine records two. The
   * `redo` into the inner retry unit pops once and the unit pops again, which
   * discards the outer For's choice point, so `x` never takes 1.
   */
  lemma NestedForLosesOuterChoice(rounds: nat, fuel: nat)
    requires rounds >= 3 && fuel >= 2
    ensures Drive(RunCall(Empty, NestedMem, Some(ForGoal(Outer)), fuel), [0, 1], rounds, fuel)
            == Trace([[Num(0), Num(0)], [Num(0), Num(1)]], No)
  {
    var s2 := Push(Push(Empty, ForRetry(Outer, 0)), ForRetry(Inner, 1));
    var m4 := Memory([Some(Num(0)), Some(Num(0)), Some(Num(0)), Some(Num(1)), Some(Num(1))], [0, 0]);
    var m6 := Memory([Some(Num(0)), Some(Num(1)), Some(Num(0)), Some(Num(1)), Some(Num(1))], [0, 1]);
    NestedFirstCall(fuel);
    NestedRedo(fuel);
    ReadTwo(m4, 0, 1);
    ReadTwo(m6, 0, 1);
    var s3 := Pop(Pop(s2));
    assert Top(s3).None?;
    DriveRound(Run(s3, m6, Yes), [0, 1], rounds - 1, fuel, [Num(0), Num(1)]);
    DriveRound(Run(s2, m4, Yes), [0, 1], rounds, fuel, [Num(0), Num(0)]);
  }
}
