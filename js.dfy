/** JavaScript values as the services and routers handle them: the rows the
    statistics store returns, the records the services build from them, the
    GeoJSON bodies the routers receive and the parameter objects handed to
    the query templates.  An object is a map from property names to values,
    so a property that is absent (not a key) is distinguished from one that
    holds `undefined`. */
module Js {
  import opened Wrappers
  import Text

  datatype JsValue =
    | Undefined
    | Null
    | Bool(b: bool)
    | Num(n: real)
    | NaN
    | Str(s: string)
    | Arr(items: seq<JsValue>)
    | Obj(props: map<string, JsValue>)

  type Props = map<string, JsValue>

  /** What a handler can throw. */
  datatype JsError =
    | TypeError                               // property read on undefined or null, call of a non-function
    | ReferenceError(name: string)            // read of, or strict-mode write to, an undeclared identifier
    | NotFound(message: string)               // the services' own "not found" error
    | HttpError(status: int, message: string) // ctx.throw / ctx.assert of the routers

  /** The result of a computation that may throw. */
  datatype Outcome<T> = Ok(value: T) | Throws(error: JsError) {
    predicate IsFailure() {
      Throws?
    }

    function PropagateFailure<U>(): Outcome<U>
      requires Throws?
    {
      Throws(error)
    }

    function Extract(): T
      requires Ok?
    {
      value
    }
  }

  /** JavaScript truthiness (ToBoolean). */
  predicate Truthy(v: JsValue) {
    match v
    case Undefined => false
    case Null => false
    case Bool(b) => b
    case Num(n) => n != 0.0
    case NaN => false
    case Str(s) => s != ""
    case Arr(_) => true
    case Obj(_) => true
  }

  /** `o.k` on a plain object: a missing property reads as `undefined`. */
  function Get(o: Props, k: string): JsValue {
    if k in o then o[k] else Undefined
  }

  /** `a || b`. */
  function Or(a: JsValue, b: JsValue): (r: JsValue)
    ensures r == a || r == b
    ensures Truthy(r) <==> Truthy(a) || Truthy(b)
    ensures Truthy(a) ==> r == a
  {
    if Truthy(a) then a else b
  }

  /** The array index a property name denotes: a canonical decimal numeral. */
  function CanonicalIndex(key: string): (r: Option<nat>)
    ensures r.Some? ==> key == Text.NatToDigits(r.value)
  {
    if key != [] && Text.AllDigits(key) && (key == "0" || key[0] != '0')
    then
      var n := Text.DigitsValue(key);
      CanonicalNumeral(key);
      Some(n)
    else None
  }

  /** A canonical numeral is the numeral of its own value. */
  lemma {:induction false} CanonicalNumeral(key: string)
    requires key != [] && Text.AllDigits(key) && (key == "0" || key[0] != '0')
    ensures key == Text.NatToDigits(Text.DigitsValue(key))
    decreases |key|
  {
    var n := Text.DigitsValue(key);
    var init := key[..|key| - 1];
    if |key| == 1 {
      assert init == [];
    } else {
      assert init[0] == key[0];
      assert Text.AllDigits(init);
      CanonicalNumeral(init);
      var m := Text.DigitsValue(init);
      assert n == m * 10 + Text.DigitValue(key[|key| - 1]);
      assert n / 10 == m && n % 10 == Text.DigitValue(key[|key| - 1]);
      assert key == init + [key[|key| - 1]];
    }
  }

  lemma IndexOfNumeral(i: nat)
    ensures CanonicalIndex(Text.NatToDigits(i)) == Some(i)
  {
    var key := Text.NatToDigits(i);
    Text.DigitsRoundTrip(i);
    assert key == "0" || key[0] != '0';
  }

  /** `v[key]`: reading a property.  Reading from `undefined` or `null`
      throws; a missing property, or any property of a number or boolean
      other than those below, reads as `undefined`. */
  function Member(v: JsValue, key: string): (r: Outcome<JsValue>)
    ensures r.Throws? <==> v.Undefined? || v.Null?
    ensures r.Throws? ==> r.error == TypeError
    ensures v.Obj? ==> r == Ok(Get(v.props, key))
  {
    match v
    case Undefined => Throws(TypeError)
    case Null => Throws(TypeError)
    case Obj(props) => Ok(Get(props, key))
    case Arr(items) =>
      if key == "length" then Ok(Num(|items| as real))
      else (match CanonicalIndex(key)
            case Some(i) => if i < |items| then Ok(items[i]) else Ok(Undefined)
            case None => Ok(Undefined))
    case Str(s) =>
      if key == "length" then Ok(Num(|s| as real))
      else (match CanonicalIndex(key)
            case Some(i) => if i < |s| then Ok(Str([s[i]])) else Ok(Undefined)
            case None => Ok(Undefined))
    case _ => Ok(Undefined)
  }

  /** Reading element `i` of an array gives that element. */
  lemma MemberOfArray(items: seq<JsValue>, i: nat)
    requires i < |items|
    ensures Member(Arr(items), Text.NatToDigits(i)) == Ok(items[i])
  {
    IndexOfNumeral(i);
    var key := Text.NatToDigits(i);
    assert key != "length" by {
      assert Text.IsDigit(key[0]);
    }
  }
}
