/**
 * The JSON values that the client configuration file holds once `json.load`
 * has read it, and the few Python operations the server applies to them:
 * truthiness, `d.get(k, default)`, `d[k]`, `k in x` and f-string rendering.
 * Each operation that Python can raise on is total here and returns the
 * exception as a `PyError`.
 */
module PyJson {
  import opened Wrappers

  /** A decoded JSON value. Numbers are integers (fractional numbers are not modelled). */
  datatype Json =
    | JNull
    | JBool(b: bool)
    | JNum(n: int)
    | JStr(s: string)
    | JArr(items: seq<Json>)
    | JObj(fields: map<string, Json>)

  /** The Python exceptions the server's dictionary code can raise. */
  datatype PyError =
    | KeyError(key: string)          // d[key] on a dict without key
    | NotSubscriptable(key: string)  // TypeError: x[key] on a list, string, number, bool or None
    | NotIterable(needle: string)    // TypeError: `needle in x` on a number, bool or None
    | NoGet(key: string)             // AttributeError: x.get(key, ...) on anything but a dict

  const EmptyObject: Json := JObj(map[])

  /** Python's truth value of a decoded JSON value (`bool(x)`). */
  predicate Truthy(j: Json) {
    match j
    case JNull => false
    case JBool(b) => b
    case JNum(n) => n != 0
    case JStr(s) => s != []
    case JArr(items) => items != []
    case JObj(fields) => fields != map[]
  }

  /** `j.get(key, default)` */
  function Get(j: Json, key: string, default: Json): Result<Json, PyError> {
    match j
    case JObj(fields) => Ok(if key in fields then fields[key] else default)
    case _ => Err(NoGet(key))
  }

  /** `j[key]` with a string key */
  function Subscript(j: Json, key: string): Result<Json, PyError> {
    match j
    case JObj(fields) => if key in fields then Ok(fields[key]) else Err(KeyError(key))
    case _ => Err(NotSubscriptable(key))
  }

  /**
   * `needle in j` with a string needle: a key test on a dict, an element test
   * on a list (a string equals only an equal string), a substring test on a
   * string; anything else raises.
   */
  function Contains(j: Json, needle: string): Result<bool, PyError> {
    match j
    case JObj(fields) => Ok(needle in fields)
    case JArr(items) => Ok(JStr(needle) in items)
    case JStr(s) => Ok(IsSubstring(needle, s))
    case _ => Err(NotIterable(needle))
  }

  /** Python's substring test `needle in hay`, by scanning the start positions. */
  predicate IsSubstring(needle: string, hay: string)
    decreases |hay|
  {
    needle <= hay || (hay != [] && IsSubstring(needle, hay[1..]))
  }

  /** Reference definition: `needle` occurs in `hay` starting at index `i`. */
  ghost predicate OccursAt(needle: string, hay: string, i: nat) {
    i + |needle| <= |hay| && hay[i..i + |needle|] == needle
  }

  lemma {:induction false} OccursAtShift(needle: string, hay: string, i: nat)
    requires hay != []
    ensures OccursAt(needle, hay, i + 1) <==> OccursAt(needle, hay[1..], i)
  {
  }

  /** The scan agrees with the reference definition, in both directions. */
  lemma {:induction false} SubstringIff(needle: string, hay: string)
    ensures IsSubstring(needle, hay) <==> exists i: nat :: OccursAt(needle, hay, i)
    decreases |hay|
  {
    assert OccursAt(needle, hay, 0) <==> needle <= hay;
    if needle <= hay {
      assert OccursAt(needle, hay, 0);
    } else if hay == [] {
      forall i: nat ensures !OccursAt(needle, hay, i) {
      }
    } else {
      SubstringIff(needle, hay[1..]);
      if IsSubstring(needle, hay[1..]) {
        var i: nat :| OccursAt(needle, hay[1..], i);
        OccursAtShift(needle, hay, i);
        assert OccursAt(needle, hay, i + 1);
      } else {
        forall i: nat ensures !OccursAt(needle, hay, i) {
          if i > 0 {
            OccursAtShift(needle, hay, i - 1);
          }
        }
      }
    }
  }

  predicate IsDigit(c: char) {
    '0' <= c <= '9'
  }

  function DigitChar(d: nat): (c: char)
    requires d < 10
    ensures IsDigit(c)
  {
    ('0' as int + d) as char
  }

  /** The decimal digits of `n`, most significant first, as `str(n)` writes them. */
  function Digits(n: nat): (r: string)
    ensures r != []
    ensures forall i | 0 <= i < |r| :: IsDigit(r[i])
    ensures r[0] == '0' ==> n == 0 && r == "0"
    decreases n
  {
    if n < 10 then [DigitChar(n)] else Digits(n / 10) + [DigitChar(n % 10)]
  }

  /** The number a string of decimal digits denotes (the inverse of `Digits`). */
  function DigitsValue(s: string): nat
    requires forall i | 0 <= i < |s| :: IsDigit(s[i])
  {
    if s == [] then 0
    else
      var last := s[|s| - 1];
      assert IsDigit(last);
      10 * DigitsValue(s[..|s| - 1]) + (last as int - '0' as int)
  }

  lemma {:induction false} DigitsRoundTrip(n: nat)
    ensures DigitsValue(Digits(n)) == n
    decreases n
  {
    if n >= 10 {
      DigitsRoundTrip(n / 10);
      var s := Digits(n);
      assert s[..|s| - 1] == Digits(n / 10);
    }
  }

  /**
   * `str(j)` as an f-string interpolates it. A list or a dict is printed
   * through `repr` of its elements, which is not modelled: `None`.
   */
  function Str(j: Json): Option<string> {
    match j
    case JNull => Some("None")
    case JBool(b) => Some(if b then "True" else "False")
    case JNum(n) => Some(if n < 0 then "-" + Digits(-n) else Digits(n))
    case JStr(s) => Some(s)
    case JArr(_) => None
    case JObj(_) => None
  }
}
