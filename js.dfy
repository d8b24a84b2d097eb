/**
 * JavaScript values and conventions shared by the whole model: optional values
 * (`undefined`), the outcome of a call that may throw, truthiness, string
 * prefixes, `String(n)` for naturals, and the behaviour of a plain object
 * literal used as a dictionary.
 */
module Js {

  /** `undefined` (None) or a present value. */
  datatype Option<T> = None | Some(value: T)

  /**
   * The completion of a JavaScript call: the value it returned or the message
   * of the Error it threw. Used both for the model's own operations and for the
   * calls into SDKs, the network or the database, which the model takes as inputs.
   */
  datatype Result<T> = Ok(value: T) | Err(message: string)

  /** A JSON value as it arrives in a request body (objects and arrays are opaque). */
  datatype JsValue = Undefined | Null | Bool(b: bool) | Num(n: int) | Str(s: string) | Composite

  /** An HTTP response as the controllers send it: the status code and the JSON `message`. */
  datatype Response = Response(status: nat, message: string)

  /** `Boolean(v)`: undefined, null, false, 0 and "" are falsy; everything else is truthy. */
  predicate Truthy(v: JsValue)
  {
    match v
    case Undefined => false
    case Null => false
    case Bool(b) => b
    case Num(n) => n != 0
    case Str(s) => s != ""
    case Composite => true
  }

  /** Truthiness of an optional string: undefined and the empty string are falsy. */
  predicate Present(s: Option<string>)
  {
    s.Some? && s.value != ""
  }

  /** `a || b` on optional strings. */
  function Or(a: Option<string>, b: Option<string>): (r: Option<string>)
    ensures Present(a) ==> r == a
    ensures !Present(a) ==> r == b
  {
    if Present(a) then a else b
  }

  /** `a || b` on JavaScript values. */
  function OrValue(a: JsValue, b: JsValue): (r: JsValue)
    ensures Truthy(a) ==> r == a
    ensures !Truthy(a) ==> r == b
  {
    if Truthy(a) then a else b
  }

  /** `s.indexOf(c)`: the index of the first occurrence of c in s. */
  function IndexOf(s: string, c: char): (r: Option<nat>)
    ensures r.Some? ==> r.value < |s| && s[r.value] == c && forall j :: 0 <= j < r.value ==> s[j] != c
    ensures r.None? ==> forall j :: 0 <= j < |s| ==> s[j] != c
  {
    if s == [] then None
    else if s[0] == c then Some(0)
    else
      match IndexOf(s[1..], c)
      case None => None
      case Some(i) => Some(i + 1)
  }

  /** `s.lastIndexOf(c)`: the index of the last occurrence of c in s. */
  function LastIndexOf(s: string, c: char): (r: Option<nat>)
    ensures r.Some? ==> r.value < |s| && s[r.value] == c && forall j :: r.value < j < |s| ==> s[j] != c
    ensures r.None? ==> forall j :: 0 <= j < |s| ==> s[j] != c
  {
    if s == [] then None
    else if s[|s| - 1] == c then Some(|s| - 1)
    else
      var r := LastIndexOf(s[..|s| - 1], c);
      assert forall j :: 0 <= j < |s| - 1 ==> s[..|s| - 1][j] == s[j];
      r
  }

  /** `s.startsWith(p)`. */
  predicate StartsWith(s: string, p: string)
  {
    |p| <= |s| && s[..|p|] == p
  }

  predicate IsDigit(c: char)
  {
    '0' <= c <= '9'
  }

  predicate AllDigits(s: string)
  {
    forall i :: 0 <= i < |s| ==> IsDigit(s[i])
  }

  /** The digit character for 0 <= d < 10. */
  function DigitChar(d: nat): (c: char)
    requires d < 10
    ensures IsDigit(c)
  {
    ['0', '1', '2', '3', '4', '5', '6', '7', '8', '9'][d]
  }

  /** `String(n)` for a natural number: its decimal digits, without leading zeros. */
  function DecimalString(n: nat): (s: string)
    ensures |s| >= 1 && AllDigits(s)
    ensures n >= 10 ==> s[0] != '0'
  {
    if n < 10 then [DigitChar(n)] else DecimalString(n / 10) + [DigitChar(n % 10)]
  }

  /** Concatenation is associative. */
  lemma ConcatAssoc<T>(a: seq<T>, b: seq<T>, c: seq<T>)
    ensures (a + b) + c == a + (b + c)
  {
  }

  /** Appending a digit to a number appends its character to the decimal string. */
  lemma DecimalAppend(n: nat, d: nat, s: string, c: char)
    requires n >= 1 && d < 10 && DecimalString(n) == s && DigitChar(d) == c
    ensures DecimalString(10 * n + d) == s + [c]
  {
    assert (10 * n + d) / 10 == n;
    assert (10 * n + d) % 10 == d;
  }

  /** The value of a string of decimal digits (the inverse of `DecimalString`). */
  function DigitsValue(s: string): nat
    requires AllDigits(s)
  {
    if s == [] then 0 else 10 * DigitsValue(s[..|s| - 1]) + (s[|s| - 1] - '0') as nat
  }

  lemma {:induction false} DigitsValueOfDecimalString(n: nat)
    ensures DigitsValue(DecimalString(n)) == n
  {
    var s := DecimalString(n);
    if n < 10 {
      assert s[..|s| - 1] == [];
    } else {
      assert s[..|s| - 1] == DecimalString(n / 10);
      DigitsValueOfDecimalString(n / 10);
    }
  }

  /** At least k + 1 digits are needed to write a number that is at least 10^k. */
  function Pow10(k: nat): (p: nat)
    ensures p >= 1
  {
    if k == 0 then 1 else 10 * Pow10(k - 1)
  }

  lemma {:induction false} DecimalStringLength(n: nat, k: nat)
    requires n >= Pow10(k)
    ensures |DecimalString(n)| >= k + 1
  {
    if k > 0 {
      assert n >= 10;
      assert n / 10 >= Pow10(k - 1);
      DecimalStringLength(n / 10, k - 1);
    }
  }

  /** `s.slice(-k)`: the last k characters, or all of s when it is shorter. */
  function LastChars(s: string, k: nat): (r: string)
    ensures |r| == if |s| < k then |s| else k
    ensures r == s[|s| - |r|..]
  {
    if |s| <= k then s else s[|s| - k..]
  }

  /**
   * The members every plain object literal inherits from Object.prototype.
   * Reading one of these names from a dictionary object yields a truthy value
   * even though the dictionary has no such own key.
   */
  predicate ObjectPrototypeKey(key: string)
  {
    key in {
      "constructor", "__proto__", "__defineGetter__", "__defineSetter__",
      "__lookupGetter__", "__lookupSetter__", "hasOwnProperty", "isPrototypeOf",
      "propertyIsEnumerable", "toString", "toLocaleString", "valueOf"
    }
  }

  /**
   * `obj[key] = v` on a plain object used as a dictionary, for a primitive v:
   * the key "__proto__" reaches the inherited accessor, which ignores primitive
   * values, so the object is left unchanged; every other key becomes an own key.
   */
  function SetProperty<V>(obj: map<string, V>, key: string, v: V): (r: map<string, V>)
    ensures key != "__proto__" ==> r.Keys == obj.Keys + {key} && r[key] == v
    ensures key == "__proto__" ==> r == obj
    ensures forall k :: k in obj && k != key ==> k in r && r[k] == obj[k]
  {
    if key == "__proto__" then obj else obj[key := v]
  }
}
