/**
 * Goals (src/module/Predicate.ts and the generator classes that implement it).
 *
 * Every object the generated code hands to the VM is a Predicate with an
 * `exec(vm)` method. The model closes that open family into one datatype: the
 * two sentinels, and one constructor per continuation unit of the runtime's
 * generators. A constructor's arguments are the unit's captured "outer"
 * environment (the generator object's fields) and, where the unit belongs to an
 * instantiated method with state, the index of that method instance's counter
 * in the heap. Cells are addressed by `Ref`.
 */
module Predicates {
  import opened Variables

  /** The address of a cell in the heap. */
  type Ref = nat

  datatype Goal =
    | Success
    | Failure
      /** A `new For(x, from, to, by, cont)` object, not yet executed. */
    | ForGoal(fenv: ForEnv)
      /** The `cu2` unit of the For `Method_1` instance whose counter is `frame`. */
    | ForRetry(fenv: ForEnv, frame: nat)
      /** A `new Member(x, l, cont)` object, not yet executed. */
    | MemberGoal(menv: MemberEnv)
      /** The `cu2` unit of the Member `Method_1` instance whose index is `frame`. */
    | MemberRetry(menv: MemberEnv, frame: nat)
      /** A `new Case(target, cases, cond)` object. */
    | CaseGoal(target: Ref, cases: seq<CaseArm>, cont: Goal)
      /** A `new Test(condition, cont, result)` object. */
    | TestGoal(condition: bool, cont: Goal, result: Ref)
      /** A `new ForClass(B, E, S, N, cont)` object (src/module/sample.ts). */
    | ForClassGoal(cenv: ForClassEnv)
      /** The `Method_2` instance of a ForClass execution, whose private cell is `b1`. */
    | ForClassAlt(cenv: ForClassEnv, b1: Ref)
      /** The `Method_2_cu2` unit of that instance. */
    | ForClassAltNext(cenv: ForClassEnv, b1: Ref)

  /** `step` is the field the source calls `by` (a reserved word in Dafny). */
  datatype ForEnv = ForEnv(x: Ref, from: Ref, to: Ref, step: Ref, cont: Goal)

  /** `l` is the list's cells, in order. */
  datatype MemberEnv = MemberEnv(x: Ref, l: seq<Ref>, cont: Goal)

  /** One case: its condition arrives evaluated. */
  datatype CaseArm = CaseArm(cond: bool, expr: Value)

  datatype ForClassEnv = ForClassEnv(b: Ref, e: Ref, s: Ref, n: Ref, cont: Goal)

  /** `Success.exec` and `Failure.exec` return the very sentinel they were called on. */
  function SentinelExec(g: Goal): (r: Goal)
    requires g.Success? || g.Failure?
    ensures r == g
  {
    g
  }

  /** `toString` of the two sentinels. */
  function SentinelName(g: Goal): (r: string)
    requires g.Success? || g.Failure?
    ensures g.Success? ==> r == "Success"
    ensures g.Failure? ==> r == "Failure"
  {
    if g.Success? then "Success" else "Failure"
  }
}
