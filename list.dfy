/**
 * A list of cells (src/module/List.ts). The cells are shared: `GetByIndex`
 * hands out the cell itself, so binding it changes the list.
 */
module Lists {
  import opened Base
  import opened Variables

  /** The cells' strings joined with ", ". */
  function JoinComma(parts: seq<string>): (r: string)
    ensures parts == [] ==> r == ""
    ensures |parts| == 1 ==> r == parts[0]
    decreases |parts|
  {
    if parts == [] then ""
    else if |parts| == 1 then parts[0]
    else JoinComma(parts[..|parts| - 1]) + ", " + parts[|parts| - 1]
  }

  /** Joining one more part adds exactly one separator and that part. */
  lemma JoinCommaLength(parts: seq<string>)
    ensures |JoinComma(parts)| == (if parts == [] then 0 else 2 * (|parts| - 1)) + SumLengths(parts)
    decreases |parts|
  {
    if |parts| > 1 {
      JoinCommaLength(parts[..|parts| - 1]);
      assert SumLengths(parts) == SumLengths(parts[..|parts| - 1]) + |parts[|parts| - 1]|;
    }
  }

  /**
   * Joining two non-empty runs of parts is joining each and putting one ", "
   * between them; with the cases of no part and one part this fixes the text.
   */
  lemma {:induction false} JoinCommaAppend(a: seq<string>, b: seq<string>)
    requires a != [] && b != []
    ensures JoinComma(a + b) == JoinComma(a) + ", " + JoinComma(b)
    decreases |b|
  {
    var ab := a + b;
    assert ab[..|ab| - 1] == a + b[..|b| - 1];
    assert ab[|ab| - 1] == b[|b| - 1];
    if |b| > 1 {
      JoinCommaAppend(a, b[..|b| - 1]);
    }
  }

  function SumLengths(parts: seq<string>): nat
    decreases |parts|
  {
    if parts == [] then 0 else SumLengths(parts[..|parts| - 1]) + |parts[|parts| - 1]|
  }

  class List {
    var cells: seq<Variable>

    /**
     * One fresh cell per element, in order; `new List()` (None) has no cells.
     * The cells are pairwise distinct objects.
     */
    constructor (val: Option<seq<Value>>)
      ensures val.None? ==> cells == []
      ensures val.Some? ==> |cells| == |val.value|
      ensures val.Some? ==> forall i :: 0 <= i < |cells| ==> cells[i].value == Some(val.value[i])
      ensures forall i :: 0 <= i < |cells| ==> fresh(cells[i])
      ensures forall i, j :: 0 <= i < j < |cells| ==> cells[i] != cells[j]
    {
      var cs: seq<Variable> := [];
      if val.Some? {
        var i := 0;
        while i < |val.value|
          invariant 0 <= i <= |val.value|
          invariant |cs| == i
          invariant forall k :: 0 <= k < i ==> cs[k].value == Some(val.value[k])
          invariant forall k :: 0 <= k < i ==> fresh(cs[k])
          invariant forall k, l :: 0 <= k < l < i ==> cs[k] != cs[l]
        {
          var c := new Variable(Some(val.value[i]));
          cs := cs + [c];
          i := i + 1;
        }
      }
      cells := cs;
    }

    function GetLength(): (r: nat)
      reads this
      ensures r == |cells|
    {
      |cells|
    }

    /** The i-th cell itself; JavaScript yields undefined outside 0..length-1. */
    function GetByIndex(i: int): (r: Option<Variable>)
      reads this
      ensures r.Some? <==> 0 <= i < |cells|
      ensures r.Some? ==> r.value == cells[i]
    {
      if 0 <= i < |cells| then Some(cells[i]) else None
    }

    function CellStrings(): (r: seq<string>)
      reads this, cells
      ensures |r| == |cells|
      ensures forall i :: 0 <= i < |cells| ==> r[i] == cells[i].ToString()
    {
      seq(|cells|, i reads this, cells requires 0 <= i < |cells| => cells[i].ToString())
    }

    /** The cells' strings joined with ", ". */
    function ToString(): (r: string)
      reads this, cells
      ensures cells == [] ==> r == ""
      ensures |cells| == 1 ==> r == cells[0].ToString()
    {
      JoinComma(CellStrings())
    }
  }
}
