/**
 * The choice-point stack of the VM (src/module/VM.ts). `choicePoints` is a
 * JavaScript array indexed by `ccp`; `popChoicePoint` decrements `ccp` with no
 * lower bound, so negative indices are reachable and are ordinary properties of
 * the array object. The model therefore keeps the slots as a map from int.
 * The driver loops `call` and `redo` are in module Engine.
 */
module VM {
  import opened Base
  import opened Predicates

  datatype Stack = Stack(slots: map<int, Goal>, ccp: int)

  /** A fresh VM: no slot written, `ccp` = -1. */
  const Empty: Stack := Stack(map[], -1)

  /** `getChoicePoint`: slot `ccp`, undefined (None) if it was never written. */
  function Top(s: Stack): (r: Option<Goal>)
    ensures r.Some? <==> s.ccp in s.slots
    ensures r.Some? ==> r.value == s.slots[s.ccp]
  {
    if s.ccp in s.slots then Some(s.slots[s.ccp]) else None
  }

  /** `popChoicePoint`: only `ccp` moves; the slot keeps its goal. */
  function Pop(s: Stack): (r: Stack)
    ensures r.ccp == s.ccp - 1 && r.slots == s.slots
  {
    Stack(s.slots, s.ccp - 1)
  }

  /** `setChoicePoint`: increment `ccp`, then store. Push then pop restores the top (LIFO). */
  function Push(s: Stack, g: Goal): (r: Stack)
    ensures r.ccp == s.ccp + 1
    ensures Top(r) == Some(g)
    ensures Pop(r).ccp == s.ccp && Top(Pop(r)) == Top(s)
  {
    Stack(s.slots[s.ccp + 1 := g], s.ccp + 1)
  }

  /** A push writes only the slot above `ccp`. */
  lemma PushKeepsOthers(s: Stack, g: Goal, j: int)
    requires j in s.slots && j != s.ccp + 1
    ensures j in Push(s, g).slots && Push(s, g).slots[j] == s.slots[j]
  {
  }

  /** Two pushes come back in reverse order. */
  lemma PushPushPop(s: Stack, a: Goal, b: Goal)
    ensures Top(Push(Push(s, a), b)) == Some(b)
    ensures Top(Pop(Push(Push(s, a), b))) == Some(a)
    ensures Top(Pop(Pop(Push(Push(s, a), b)))) == Top(s)
  {
  }

  class VM {
    var choicePoints: map<int, Goal>
    var ccp: int

    function State(): Stack
      reads this
    {
      Stack(choicePoints, ccp)
    }

    /** The array starts with holes only (its initial size bounds nothing in JavaScript). */
    constructor ()
      ensures State() == Empty
    {
      choicePoints := map[];
      ccp := -1;
    }

    method SetChoicePoint(c: Goal)
      modifies this
      ensures State() == Push(old(State()), c)
    {
      ccp := ccp + 1;
      choicePoints := choicePoints[ccp := c];
    }

    function GetChoicePoint(): (r: Option<Goal>)
      reads this
      ensures r == Top(State())
    {
      if ccp in choicePoints then Some(choicePoints[ccp]) else None
    }

    method PopChoicePoint()
      modifies this
      ensures State() == Pop(old(State()))
    {
      ccp := ccp - 1;
    }

    /** Pushes `second` and returns `first`, which is to run now. */
    method Jtry(first: Goal, second: Goal) returns (r: Goal)
      modifies this
      ensures r == first
      ensures State() == Push(old(State()), second)
    {
      SetChoicePoint(second);
      r := first;
    }

    /** Returns `next` unchanged and leaves the stack alone. */
    method Trust(next: Goal) returns (r: Goal)
      ensures r == next
      ensures State() == old(State())
    {
      r := next;
    }
  }
}
