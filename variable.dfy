/**
 * The runtime cell (src/module/Variable.ts): an optional value that generated
 * code binds and reads, plus the arithmetic that combines two cells into a
 * fresh one. Numbers are integers here (see README, "Left out").
 */
module Variables {
  import opened Base

  /** The JavaScript values a cell can hold: number, string or boolean. */
  datatype Value = Num(n: int) | Str(s: string) | Bool(b: bool)

  datatype ArithOp = Addition | Subtraction | Multiplication | Division | Modulo

  /** The operator name quoted in the "Incompatible types for ..." error. */
  function OperatorName(op: ArithOp): string
  {
    match op
    case Addition => "addition"
    case Subtraction => "subtraction"
    case Multiplication => "multiplication"
    case Division => "division"
    case Modulo => "modulo"
  }

  /** JavaScript's `%` on integers: the remainder takes the sign of the dividend. */
  function TruncRem(a: int, b: int): (r: int)
    ensures b != 0 ==> (if a >= 0 then 0 <= r else r <= 0)
    ensures b != 0 ==> -(if b < 0 then -b else b) < r < (if b < 0 then -b else b)
  {
    if b == 0 then 0
    else
      var m := if b < 0 then -b else b;
      if a >= 0 then a % m else -((-a) % m)
  }

  /** Integer quotient truncated toward zero (see TruncDivRem). */
  function TruncDiv(a: int, b: int): (q: int)
    ensures b != 0 ==> (if (a >= 0) == (b > 0) then q >= 0 else q <= 0)
  {
    if b == 0 then 0
    else
      var m := if b < 0 then -b else b;
      var qm := if a >= 0 then a / m else -((-a) / m);
      if b < 0 then -qm else qm
  }

  /** Quotient and remainder recombine to the dividend. */
  lemma TruncDivRem(a: int, b: int)
    requires b != 0
    ensures a == b * TruncDiv(a, b) + TruncRem(a, b)
  {
    var m := if b < 0 then -b else b;
    var qm := if a >= 0 then a / m else -((-a) / m);
    if a >= 0 {
      assert a == m * (a / m) + a % m;
      assert a == m * qm + TruncRem(a, b);
    } else {
      assert -a == m * ((-a) / m) + (-a) % m;
      assert a == m * qm + TruncRem(a, b);
    }
    if b < 0 {
      assert b * TruncDiv(a, b) == (-m) * (-qm) == m * qm;
    }
  }

  function Apply(op: ArithOp, a: int, b: int): int
  {
    match op
    case Addition => a + b
    case Subtraction => a - b
    case Multiplication => a * b
    case Division => TruncDiv(a, b)
    case Modulo => TruncRem(a, b)
  }

  /** `toString` of a bound value. */
  function ValueToString(v: Value): string
  {
    match v
    case Num(n) => IntToString(n)
    case Str(s) => s
    case Bool(b) => if b then "true" else "false"
  }

  // ---------------------------------------------------------------------------
  // The cell operations as functions of the cell's contents (None = unbound).

  /** `getValue`: the bound value, or "null value" thrown on an unbound cell. */
  function ReadValue(c: Option<Value>): (r: Result<Value>)
    ensures r.Ok? <==> c.Some?
    ensures r.Ok? ==> r.value == c.value
    ensures r.Throw? ==> r.message == "null value"
  {
    if c.None? then Throw("null value") else Ok(c.value)
  }

  /** `getNumberValue`: the number, or a throw when the cell holds anything else. */
  function ReadNumber(c: Option<Value>): (r: Result<int>)
    ensures r.Ok? <==> (c.Some? && c.value.Num?)
    ensures r.Ok? ==> c == Some(Num(r.value))
    ensures r.Throw? ==> r.message == "Value is not a number"
  {
    if c.Some? && c.value.Num? then Ok(c.value.n) else Throw("Value is not a number")
  }

  /** `getStringValue`: the string, or a throw when the cell holds anything else. */
  function ReadString(c: Option<Value>): (r: Result<string>)
    ensures r.Ok? <==> (c.Some? && c.value.Str?)
    ensures r.Ok? ==> c == Some(Str(r.value))
    ensures r.Throw? ==> r.message == "Value is not a string"
  {
    if c.Some? && c.value.Str? then Ok(c.value.s) else Throw("Value is not a string")
  }

  /** `toString`: "null" for an unbound cell. */
  function CellToString(c: Option<Value>): (r: string)
    ensures c.None? ==> r == "null"
    ensures c.Some? ==> r == ValueToString(c.value)
  {
    if c.None? then "null" else ValueToString(c.value)
  }

  /** `performOperation`: both cells bound, both numbers, else the matching throw. */
  function Perform(a: Option<Value>, b: Option<Value>, op: ArithOp): (r: Result<Value>)
    ensures r.Ok? <==> (a.Some? && a.value.Num? && b.Some? && b.value.Num?)
    ensures r.Ok? ==> r.value == Num(Apply(op, a.value.n, b.value.n))
    ensures (a.None? || b.None?) ==> r == Throw("null value")
    ensures (a.Some? && b.Some? && !(a.value.Num? && b.value.Num?)) ==>
              r == Throw("Incompatible types for " + OperatorName(op))
  {
    if a.None? || b.None? then Throw("null value")
    else if a.value.Num? && b.value.Num? then Ok(Num(Apply(op, a.value.n, b.value.n)))
    else Throw("Incompatible types for " + OperatorName(op))
  }

  /** `add`: two strings concatenate; everything else goes through `performOperation`. */
  function AddValues(a: Option<Value>, b: Option<Value>): (r: Result<Value>)
    ensures (a.Some? && a.value.Str? && b.Some? && b.value.Str?) ==> r == Ok(Str(a.value.s + b.value.s))
    ensures !(a.Some? && a.value.Str? && b.Some? && b.value.Str?) ==> r == Perform(a, b, Addition)
  {
    if a.Some? && a.value.Str? && b.Some? && b.value.Str? then Ok(Str(a.value.s + b.value.s))
    else Perform(a, b, Addition)
  }

  /** Subtracting what was added gives the original number back. */
  lemma AddThenSub(x: int, y: int)
    ensures AddValues(Some(Num(x)), Some(Num(y))).Ok?
    ensures Perform(Some(AddValues(Some(Num(x)), Some(Num(y))).value), Some(Num(y)), Subtraction) == Ok(Num(x))
  {
  }

  /** Division and modulo of the model recombine to the dividend for a non-zero divisor. */
  lemma DivModRecombine(x: int, y: int)
    requires y != 0
    ensures Perform(Some(Num(x)), Some(Num(y)), Division).Ok?
    ensures Perform(Some(Num(x)), Some(Num(y)), Modulo).Ok?
    ensures x == y * Perform(Some(Num(x)), Some(Num(y)), Division).value.n
               + Perform(Some(Num(x)), Some(Num(y)), Modulo).value.n
  {
    TruncDivRem(x, y);
  }

  // ---------------------------------------------------------------------------

  /** A cell. `value` is None while the cell is unbound (JavaScript null). */
  class Variable {
    var value: Option<Value>

    /** `new Variable()` is unbound; `new Variable(v)` is bound to v. */
    constructor (val: Option<Value>)
      ensures value == val
    {
      value := val;
    }

    /** Overwrites the cell. */
    method SetValue(v: Value)
      modifies this
      ensures value == Some(v)
      ensures GetValue() == Ok(v)
    {
      value := Some(v);
    }

    function GetValue(): (r: Result<Value>)
      reads this
      ensures r == ReadValue(value)
    {
      ReadValue(value)
    }

    function GetNumberValue(): (r: Result<int>)
      reads this
      ensures r == ReadNumber(value)
    {
      ReadNumber(value)
    }

    function GetStringValue(): (r: Result<string>)
      reads this
      ensures r == ReadString(value)
    {
      ReadString(value)
    }

    function ToString(): (r: string)
      reads this
      ensures r == CellToString(value)
    {
      CellToString(value)
    }

    /** `add`, `sub`, `mul`, `div`, `mod`: a fresh cell holding the result; operands untouched. */
    method Add(v: Variable) returns (r: Result<Variable>)
      ensures r.Ok? <==> AddValues(value, v.value).Ok?
      ensures r.Ok? ==> fresh(r.value) && r.value.value == Some(AddValues(value, v.value).value)
      ensures r.Throw? ==> r.message == AddValues(value, v.value).message
      ensures value == old(value) && v.value == old(v.value)
    {
      var res := AddValues(value, v.value);
      if res.Ok? {
        var c := new Variable(Some(res.value));
        r := Ok(c);
      } else {
        r := Throw(res.message);
      }
    }

    method Operate(v: Variable, op: ArithOp) returns (r: Result<Variable>)
      ensures r.Ok? <==> Perform(value, v.value, op).Ok?
      ensures r.Ok? ==> fresh(r.value) && r.value.value == Some(Perform(value, v.value, op).value)
      ensures r.Throw? ==> r.message == Perform(value, v.value, op).message
      ensures value == old(value) && v.value == old(v.value)
    {
      var res := Perform(value, v.value, op);
      if res.Ok? {
        var c := new Variable(Some(res.value));
        r := Ok(c);
      } else {
        r := Throw(res.message);
      }
    }
  }
}
