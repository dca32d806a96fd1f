/** The subset of Python and JavaScript values the modelled code moves around:
    pipe payloads, worker replies, session records and browser messages. */
module Values {

  datatype Option<+T> = None | Some(value: T)

  /** A result, or the name of the Python (or JavaScript) exception raised instead. */
  datatype Outcome<+T> = Done(value: T) | Raised(exception: string)

  /** A Python value. `Nil` is Python's `None`; dictionaries have string keys. */
  datatype Value =
    | Nil
    | Bool(b: bool)
    | Int(i: int)
    | Real(r: real)
    | Str(s: string)
    | List(items: seq<Value>)
    | Tuple(items: seq<Value>)
    | Dict(entries: map<string, Value>)

  /** Python truthiness (`if v:`). */
  predicate Truthy(v: Value)
  {
    match v
    case Nil => false
    case Bool(b) => b
    case Int(i) => i != 0
    case Real(r) => r != 0.0
    case Str(s) => s != ""
    case List(items) => items != []
    case Tuple(items) => items != []
    case Dict(entries) => entries != map[]
  }

  /** Whether `x[key]` finds an entry: `x` is a dict holding `key`. */
  predicate HasKey(x: Value, key: string)
  {
    x.Dict? && key in x.entries
  }

  /** Python `x[key]` with a string key: KeyError for a dict without the key, TypeError for
      a value that is not a dict. */
  function Item(x: Value, key: string): (r: Outcome<Value>)
    ensures r.Done? <==> HasKey(x, key)
    ensures r.Done? ==> r.value == x.entries[key]
    ensures r.Raised? ==> r.exception == (if x.Dict? then "KeyError" else "TypeError")
  {
    if !x.Dict? then Raised("TypeError")
    else if key !in x.entries then Raised("KeyError")
    else Done(x.entries[key])
  }

  /** Python subscripting of a list of length `n` by the int `i`: negative
      indices count from the end; anything else outside the list is an IndexError (None). */
  function PyIndex(i: int, n: nat): (r: Option<nat>)
    ensures r.Some? <==> -(n as int) <= i < n
    ensures r.Some? ==> r.value < n && (r.value == i || r.value == i + n)
  {
    if 0 <= i < n then Some(i)
    else if -(n as int) <= i < 0 then Some(i + n)
    else None
  }

  /** Python slice `s[lo:hi]` for non-negative bounds: both ends are clamped to the length. */
  function PySlice<T>(s: seq<T>, lo: nat, hi: nat): (r: seq<T>)
    ensures hi <= |s| && lo <= hi ==> r == s[lo..hi]
    ensures |s| <= lo || hi <= lo ==> r == []
    ensures |r| <= |s|
  {
    var a := if lo < |s| then lo else |s|;
    var b := if hi < |s| then hi else |s|;
    if a <= b then s[a..b] else []
  }
}

/** Decimal rendering and parsing of integers, as JavaScript's `toString()`,
    template literals and Python's f-strings print them. */
module Decimal {

  predicate IsDigit(c: char)
  {
    '0' <= c <= '9'
  }

  predicate AllDigits(s: string)
  {
    forall k :: 0 <= k < |s| ==> IsDigit(s[k])
  }

  function DigitChar(d: nat): (c: char)
    requires d < 10
    ensures IsDigit(c) && (c as int) - ('0' as int) == d
  {
    (('0' as int) + d) as char
  }

  /** The shortest decimal numeral of `n`. */
  function NatToString(n: nat): (s: string)
    ensures |s| >= 1 && AllDigits(s)
    decreases n
  {
    if n < 10 then [DigitChar(n)] else NatToString(n / 10) + [DigitChar(n % 10)]
  }

  /** `String(i)` for an integer `i`. */
  function IntToString(i: int): (s: string)
    ensures |s| >= 1
    ensures i >= 0 ==> s == NatToString(i)
    ensures i < 0 ==> s[0] == '-'
  {
    if i < 0 then "-" + NatToString(-i) else NatToString(i)
  }

  /** The value of a string of decimal digits (empty string reads as 0). */
  function DigitsValue(s: string): (n: nat)
    requires AllDigits(s)
  {
    if s == [] then 0
    else
      var last := s[|s| - 1];
      assert IsDigit(last);
      10 * DigitsValue(s[..|s| - 1]) + ((last as int) - ('0' as int))
  }

  /** Parsing a rendered number gives the number back. */
  lemma {:induction false} DigitsValueOfNatToString(n: nat)
    ensures DigitsValue(NatToString(n)) == n
    decreases n
  {
    var s := NatToString(n);
    if n >= 10 {
      DigitsValueOfNatToString(n / 10);
      assert s[..|s| - 1] == NatToString(n / 10);
    }
  }

  /** Distinct numbers render differently. */
  lemma NatToStringInjective(a: nat, b: nat)
    ensures NatToString(a) == NatToString(b) ==> a == b
  {
    if NatToString(a) == NatToString(b) {
      DigitsValueOfNatToString(a);
      DigitsValueOfNatToString(b);
    }
  }
}
