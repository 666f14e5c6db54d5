/**
 * A record of cells keyed by name (src/module/Object.ts). A JavaScript record
 * argument is a sequence of (key, value) pairs in its insertion order, which is
 * the order `for...in` visits it; its keys are distinct.
 */
module Objects {
  import opened Base
  import opened Variables

  type Record = seq<(string, Value)>

  /** The argument of `setValueByKey`: a plain value or a cell. */
  datatype Argument = Plain(v: Value) | CellArg(cell: Variable)

  predicate DistinctKeys(val: Record)
  {
    forall i, j :: 0 <= i < j < |val| ==> val[i].0 != val[j].0
  }

  /** The TypeError of `this.o[key].setValue(...)` on a key that has no cell. */
  const MissingCellSet := "Cannot read properties of undefined (reading 'setValue')"

  /** The TypeError of `this.o[key].getValue()` on a key that has no cell. */
  const MissingCellGet := "Cannot read properties of undefined (reading 'getValue')"

  /** How many pairs of `val`, from the front, name a key that `o` has. */
  function PresentPrefix(o: map<string, Variable>, val: Record): (n: nat)
    ensures n <= |val|
    ensures forall i :: 0 <= i < n ==> val[i].0 in o
    ensures n < |val| ==> val[n].0 !in o
    decreases |val|
  {
    if val == [] || val[0].0 !in o then 0 else 1 + PresentPrefix(o, val[1..])
  }

  /**
   * The value the last pair of `val` that reaches cell `c` writes into it
   * (None if no pair does). Two keys may share a cell after `SetValueByKey`.
   */
  function LastWrite(o: map<string, Variable>, val: Record, c: Variable): Option<Value>
    decreases |val|
  {
    if val == [] then None
    else
      var last := val[|val| - 1];
      if last.0 in o && o[last.0] == c then Some(last.1) else LastWrite(o, val[..|val| - 1], c)
  }

  /** A cell reached by no key of `val` is not written. */
  lemma LastWriteUnreached(o: map<string, Variable>, val: Record, c: Variable)
    requires forall i :: 0 <= i < |val| ==> !(val[i].0 in o && o[val[i].0] == c)
    ensures LastWrite(o, val, c) == None
    decreases |val|
  {
    if val != [] {
      LastWriteUnreached(o, val[..|val| - 1], c);
    }
  }

  /** With no sharing, a key's cell receives exactly the value paired with that key. */
  lemma {:induction false} LastWriteOwnKey(o: map<string, Variable>, val: Record, i: nat)
    requires i < |val| && val[i].0 in o && DistinctKeys(val)
    requires forall k :: k in o && o[k] == o[val[i].0] ==> k == val[i].0
    ensures LastWrite(o, val, o[val[i].0]) == Some(val[i].1)
    decreases |val|
  {
    var last := val[|val| - 1];
    if i < |val| - 1 {
      assert last.0 != val[i].0;
      LastWriteOwnKey(o, val[..|val| - 1], i);
    }
  }

  class VObject {
    var o: map<string, Variable>

    /** One fresh, unshared cell per key of the given record (none for `new VObject()`). */
    constructor (val: Option<Record>)
      requires val.Some? ==> DistinctKeys(val.value)
      ensures val.None? ==> o == map[]
      ensures val.Some? ==> o.Keys == set i | 0 <= i < |val.value| :: val.value[i].0
      ensures val.Some? ==> forall i :: 0 <= i < |val.value| ==> o[val.value[i].0].value == Some(val.value[i].1)
      ensures forall k :: k in o ==> fresh(o[k])
      ensures forall k, l :: k in o && l in o && k != l ==> o[k] != o[l]
    {
      var m: map<string, Variable> := map[];
      if val.Some? {
        var i := 0;
        while i < |val.value|
          invariant 0 <= i <= |val.value|
          invariant m.Keys == set j | 0 <= j < i :: val.value[j].0
          invariant forall j :: 0 <= j < i ==> m[val.value[j].0].value == Some(val.value[j].1)
          invariant forall k :: k in m ==> fresh(m[k])
          invariant forall k, l :: k in m && l in m && k != l ==> m[k] != m[l]
        {
          var c := new Variable(Some(val.value[i].1));
          assert val.value[i].0 !in m;
          m := m[val.value[i].0 := c];
          i := i + 1;
        }
      }
      o := m;
    }

    /**
     * Writes each pair's value into the existing cell of its key, in record
     * order. A key without a cell raises a TypeError; the pairs before it have
     * been written by then.
     */
    method SetValue(val: Record) returns (r: Result<()>)
      requires DistinctKeys(val)
      modifies o.Values
      ensures r.Ok? <==> PresentPrefix(o, val) == |val|
      ensures r.Throw? ==> r.message == MissingCellSet
      ensures forall c :: c in old(o.Values) ==>
                c.value == (var w := LastWrite(o, val[..PresentPrefix(o, val)], c);
                            if w.Some? then w else old(c.value))
    {
      var n := PresentPrefix(o, val);
      var i := 0;
      while i < |val| && val[i].0 in o
        invariant 0 <= i <= n
        invariant forall c :: c in o.Values ==>
                    c.value == (var w := LastWrite(o, val[..i], c); if w.Some? then w else old(c.value))
      {
        o[val[i].0].value := Some(val[i].1);
        assert val[..i + 1][..i] == val[..i];
        i := i + 1;
      }
      r := if i == |val| then Ok(()) else Throw(MissingCellSet);
    }

    /** A cell argument replaces (aliases) the key's cell; a value updates the existing cell. */
    method SetValueByKey(key: string, val: Argument) returns (r: Result<()>)
      modifies this, o.Values
      ensures val.CellArg? ==> r.Ok? && o == old(o)[key := val.cell]
      ensures val.CellArg? ==> forall c :: c in old(o.Values) ==> c.value == old(c.value)
      ensures val.Plain? ==> o == old(o)
      ensures val.Plain? ==> (r.Ok? <==> key in o)
      ensures val.Plain? && key in o ==> o[key].value == Some(val.v)
      ensures val.Plain? ==> forall c :: c in o.Values && (key !in o || c != o[key]) ==> c.value == old(c.value)
      ensures r.Throw? ==> r.message == MissingCellSet
    {
      if val.CellArg? {
        o := o[key := val.cell];
        r := Ok(());
      } else if key in o {
        o[key].value := Some(val.v);
        r := Ok(());
      } else {
        r := Throw(MissingCellSet);
      }
    }

    /** A record of every cell's value; throws "null value" if any cell is unbound. */
    method GetValue() returns (r: Result<map<string, Value>>)
      ensures r.Ok? <==> forall k :: k in o ==> o[k].value.Some?
      ensures r.Ok? ==> r.value.Keys == o.Keys && forall k :: k in o ==> r.value[k] == o[k].value.value
      ensures r.Throw? ==> r.message == "null value"
    {
      var obj: map<string, Value> := map[];
      var todo := o.Keys;
      while todo != {}
        invariant todo <= o.Keys
        invariant obj.Keys == o.Keys - todo
        invariant forall k :: k in obj ==> o[k].value == Some(obj[k])
        decreases |todo|
      {
        var k :| k in todo;
        var v := o[k].GetValue();
        if v.Throw? {
          return Throw(v.message);
        }
        obj := obj[k := v.value];
        todo := todo - {k};
      }
      r := Ok(obj);
    }

    function GetLength(): (r: nat)
      reads this
      ensures r == |o.Keys|
    {
      |o.Keys|
    }

    /** Cell k's value; a missing key raises a TypeError, an unbound cell "null value". */
    function GetByKey(key: string): (r: Result<Value>)
      reads this, o.Values
      ensures key !in o ==> r == Throw(MissingCellGet)
      ensures key in o ==> r == ReadValue(o[key].value)
    {
      if key in o then o[key].GetValue() else Throw(MissingCellGet)
    }
  }
}
