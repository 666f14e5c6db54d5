/**
 * The part of the JavaScript heap that the generators reach: the `Variable`
 * cells they bind and read, and the counters (`i`) of their instantiated
 * `Method_1` objects. The search machine is stated over the value `Memory`;
 * class `Heap` is the same state updated in place, which the generator methods
 * change. An address that was never allocated reads as unbound, and a write
 * to it is dropped: code that allocates its cells through `Heap` never makes one.
 */
module Heaps {
  import opened Base
  import opened Variables
  import opened Predicates
  import opened VM

  datatype Memory = Memory(cells: seq<Option<Value>>, counters: seq<int>)

  /** The contents of cell `r` (None: unbound). */
  function Cell(m: Memory, r: Ref): (c: Option<Value>)
    ensures r < |m.cells| ==> c == m.cells[r]
    ensures r >= |m.cells| ==> c.None?
  {
    if r < |m.cells| then m.cells[r] else None
  }

  /** `setValue` on cell `r`: only that cell changes. */
  function Bind(m: Memory, r: Ref, v: Value): (m': Memory)
    ensures |m'.cells| == |m.cells| && m'.counters == m.counters
    ensures r < |m.cells| ==> Cell(m', r) == Some(v)
    ensures forall q: Ref :: q != r ==> Cell(m', q) == Cell(m, q)
  {
    if r < |m.cells| then Memory(m.cells[r := Some(v)], m.counters) else m
  }

  /** `new Variable(...)`: the next address, holding `c`; nothing else changes. */
  function Alloc(m: Memory, c: Option<Value>): (res: (Memory, Ref))
    ensures res.1 == |m.cells| && |res.0.cells| == |m.cells| + 1
    ensures Cell(res.0, res.1) == c
    ensures forall q: Ref :: q != res.1 ==> Cell(res.0, q) == Cell(m, q)
    ensures res.0.counters == m.counters
  {
    (Memory(m.cells + [c], m.counters), |m.cells|)
  }

  /** The counter of method instance `f`. */
  function Counter(m: Memory, f: nat): (i: int)
    ensures f < |m.counters| ==> i == m.counters[f]
  {
    if f < |m.counters| then m.counters[f] else 0
  }

  /** Assigns the counter of instance `f`; cells and the other counters are untouched. */
  function StoreCounter(m: Memory, f: nat, i: int): (m': Memory)
    ensures m'.cells == m.cells && |m'.counters| == |m.counters|
    ensures f < |m.counters| ==> Counter(m', f) == i
    ensures forall g: nat :: g != f ==> Counter(m', g) == Counter(m, g)
  {
    if f < |m.counters| then Memory(m.cells, m.counters[f := i]) else m
  }

  /** Instantiates a method object whose counter starts at `i`. */
  function NewCounter(m: Memory, i: int): (res: (Memory, nat))
    ensures res.1 == |m.counters| && |res.0.counters| == |m.counters| + 1
    ensures Counter(res.0, res.1) == i
    ensures forall g: nat :: g != res.1 ==> Counter(res.0, g) == Counter(m, g)
    ensures res.0.cells == m.cells
  {
    (Memory(m.cells, m.counters + [i]), |m.counters|)
  }

  /** What one `exec` does: the new stack and memory and the goal it returns, or a throw. */
  datatype Transition = Next(stack: Stack, mem: Memory, goal: Goal) | Raised(message: string)

  /** Pairs a method's outcome with the state it left, for comparison with a `Transition`. */
  function Settled(st: Stack, m: Memory, t: Result<Goal>): (r: Transition)
    ensures t.Ok? ==> r == Next(st, m, t.value)
    ensures t.Throw? ==> r == Raised(t.message)
  {
    if t.Ok? then Next(st, m, t.value) else Raised(t.message)
  }

  class Heap {
    var cells: seq<Option<Value>>
    var counters: seq<int>

    function Mem(): Memory
      reads this
    {
      Memory(cells, counters)
    }

    constructor ()
      ensures Mem() == Memory([], [])
    {
      cells := [];
      counters := [];
    }

    method NewCell(c: Option<Value>) returns (r: Ref)
      modifies this
      ensures (Mem(), r) == Alloc(old(Mem()), c)
    {
      r := |cells|;
      cells := cells + [c];
    }

    function GetCell(r: Ref): (c: Option<Value>)
      reads this
      ensures c == Cell(Mem(), r)
    {
      if r < |cells| then cells[r] else None
    }

    method SetValue(r: Ref, v: Value)
      modifies this
      ensures Mem() == Bind(old(Mem()), r, v)
    {
      if r < |cells| {
        cells := cells[r := Some(v)];
      }
    }

    method NewFrame(i: int) returns (f: nat)
      modifies this
      ensures (Mem(), f) == NewCounter(old(Mem()), i)
    {
      f := |counters|;
      counters := counters + [i];
    }

    function GetCounter(f: nat): (i: int)
      reads this
      ensures i == Counter(Mem(), f)
    {
      if f < |counters| then counters[f] else 0
    }

    method SetCounter(f: nat, i: int)
      modifies this
      ensures Mem() == StoreCounter(old(Mem()), f, i)
    {
      if f < |counters| {
        counters := counters[f := i];
      }
    }
  }
}
