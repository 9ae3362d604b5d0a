/** `isNaNorUndefined`: the test the runner and the sort builder apply to numeric request parameters. */
module ParamCheck {
  import opened JsNumbers
  import opened JsValues

  /** The per-argument test: `isNaN(arg) || (!arg && arg !== 0)`. */
  predicate Rejects(arg: Value)
  {
    IsNaN(arg) || (Falsy(arg) && !IsZero(arg))
  }

  /** True when some argument is NaN, or falsy without being the number zero. */
  function IsNaNOrUndefined(args: seq<Value>): (r: bool)
    ensures r <==> exists i :: 0 <= i < |args| && Rejects(args[i])
  {
    if args == [] then false
    else Rejects(args[0]) || IsNaNOrUndefined(args[1..])
  }

  /** The values that fail the test are exactly those that convert to NaN, and null, false and the empty string. */
  lemma RejectedValues(args: seq<Value>)
    ensures IsNaNOrUndefined(args) <==>
      exists i :: 0 <= i < |args| && (ToNumber(args[i]).NaN? || args[i] == Null || args[i] == Boolean(false) || args[i] == Text(""))
  {
    forall i | 0 <= i < |args|
      ensures Rejects(args[i]) <==>
        (ToNumber(args[i]).NaN? || args[i] == Null || args[i] == Boolean(false) || args[i] == Text(""))
    {
      RejectsValue(args[i]);
    }
  }

  lemma RejectsValue(v: Value)
    ensures Rejects(v) <==> (ToNumber(v).NaN? || v == Null || v == Boolean(false) || v == Text(""))
  {
    if v == Text("") {
      assert StringToNumber("") == Finite(0.0) by {
        assert Trim("") == "";
      }
    }
  }

  /** A single number fails the test exactly when it is NaN. */
  lemma NumberRejectedOnlyWhenNaN(n: Num)
    ensures IsNaNOrUndefined([Numeric(n)]) <==> n.NaN?
  {
    assert [Numeric(n)][0] == Numeric(n);
  }
}
