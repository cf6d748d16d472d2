/**
 * The slice of PHP's own semantics that the plugin relies on: loosely typed
 * values and `empty()`, the scalar casts, `preg_replace('/\D/', '', ...)`,
 * `trim`, `implode`, and the byte-wise string order that `ksort` uses on the
 * plugin's (non-numeric) array keys.
 *
 * Parsing a numeric string and printing a float are not modelled: they are
 * the fields of `Casts`, and every property below holds whatever they do.
 */
module Php {

  datatype Option<T> = None | Some(value: T)

  /** A PHP value as the plugin meets it: scalars, null and list arrays. */
  datatype Value =
    | Null
    | Bool(b: bool)
    | Int(i: int)
    | Num(r: real)
    | Str(s: string)
    | Arr(items: seq<Value>)

  /** PHP's `empty()`: null, false, 0, 0.0, "", "0" and the empty array. */
  predicate Empty(v: Value)
  {
    match v
    case Null => true
    case Bool(b) => !b
    case Int(i) => i == 0
    case Num(r) => r == 0.0
    case Str(s) => s == "" || s == "0"
    case Arr(xs) => xs == []
  }

  /** A value that `if ($v)` accepts. */
  predicate Truthy(v: Value)
  {
    !Empty(v)
  }

  /** The conversions PHP performs on strings, left uninterpreted. */
  datatype Casts = Casts(
    parseFloat: string -> real,        // (float) "..." and floatval()
    parseInt: string -> int,           // (int) "..." and intval()
    formatFloat: real -> string,       // (string) of a float
    isNumericString: string -> bool    // is_numeric() of a string
  )

  /** `(float) $v`. */
  function ToFloat(c: Casts, v: Value): real
  {
    match v
    case Null => 0.0
    case Bool(b) => if b then 1.0 else 0.0
    case Int(i) => i as real
    case Num(r) => r
    case Str(s) => c.parseFloat(s)
    case Arr(xs) => if xs == [] then 0.0 else 1.0
  }

  /** `(int) $v`: floats are truncated toward zero. */
  function ToInt(c: Casts, v: Value): int
  {
    match v
    case Null => 0
    case Bool(b) => if b then 1 else 0
    case Int(i) => i
    case Num(r) => if r >= 0.0 then r.Floor else -((-r).Floor)
    case Str(s) => c.parseInt(s)
    case Arr(xs) => if xs == [] then 0 else 1
  }

  /** WordPress's `absint()`: the absolute value of `(int) $v`. */
  function AbsInt(c: Casts, v: Value): (n: nat)
    ensures ToInt(c, v) >= 0 ==> n == ToInt(c, v)
    ensures ToInt(c, v) < 0 ==> n == -ToInt(c, v)
  {
    var i := ToInt(c, v);
    if i < 0 then -i else i
  }

  /** `is_numeric($v)`. */
  predicate IsNumeric(c: Casts, v: Value)
  {
    match v
    case Int(_) => true
    case Num(_) => true
    case Str(s) => c.isNumericString(s)
    case _ => false
  }

  function DigitChar(d: nat): char
    requires d < 10
  {
    (48 + d) as char
  }

  function NatToString(n: nat): string
  {
    if n < 10 then [DigitChar(n)] else NatToString(n / 10) + [DigitChar(n % 10)]
  }

  /** `(string) $v`. */
  function ToStr(c: Casts, v: Value): string
  {
    match v
    case Null => ""
    case Bool(b) => if b then "1" else ""
    case Int(i) => if i < 0 then "-" + NatToString(-i) else NatToString(i)
    case Num(r) => c.formatFloat(r)
    case Str(s) => s
    case Arr(_) => "Array"
  }

  // ---------------------------------------------------------------------------
  // Digits: preg_replace('/\D/', '', $s) (and the same /\D/g in JavaScript)
  // ---------------------------------------------------------------------------

  predicate IsDigit(ch: char)
  {
    '0' <= ch <= '9'
  }

  predicate AllDigits(s: string)
  {
    forall i :: 0 <= i < |s| ==> IsDigit(s[i])
  }

  /** Every character that is not an ASCII digit removed. */
  function Digits(s: string): (r: string)
    ensures AllDigits(r)
    ensures |r| <= |s|
  {
    if s == [] then [] else (if IsDigit(s[0]) then [s[0]] else []) + Digits(s[1..])
  }

  /** Removing non-digits commutes with concatenation. */
  lemma {:induction false} DigitsAppend(s: string, t: string)
    ensures Digits(s + t) == Digits(s) + Digits(t)
  {
    if s == [] {
      assert s + t == t;
    } else {
      assert (s + t)[1..] == s[1..] + t;
      DigitsAppend(s[1..], t);
    }
  }

  /** A string of digits is left as it is. */
  lemma {:induction false} DigitsOfDigits(s: string)
    requires AllDigits(s)
    ensures Digits(s) == s
  {
    if s != [] {
      DigitsOfDigits(s[1..]);
    }
  }

  /** Removing non-digits twice is removing them once. */
  lemma DigitsIdempotent(s: string)
    ensures Digits(Digits(s)) == Digits(s)
  {
    DigitsOfDigits(Digits(s));
  }

  // ---------------------------------------------------------------------------
  // trim()
  // ---------------------------------------------------------------------------

  /** The characters PHP's `trim` strips: " \t\n\r\0\x0B". */
  predicate IsTrimSpace(ch: char)
  {
    ch == ' ' || ch == '\t' || ch == '\n' || ch == '\r' || ch == '\0' || ch == '\U{000B}'
  }

  function TrimLeft(s: string): (r: string)
    ensures |r| <= |s| && r == s[|s| - |r|..]
    ensures forall i :: 0 <= i < |s| - |r| ==> IsTrimSpace(s[i])
    ensures r == [] || !IsTrimSpace(r[0])
  {
    if s != [] && IsTrimSpace(s[0]) then
      var r := TrimLeft(s[1..]);
      assert s[1..][|s| - 1 - |r|..] == s[|s| - |r|..];
      assert forall i :: 1 <= i < |s| - |r| ==> s[i] == s[1..][i - 1];
      r
    else s
  }

  function TrimRight(s: string): (r: string)
    ensures |r| <= |s| && r == s[..|r|]
    ensures forall i :: |r| <= i < |s| ==> IsTrimSpace(s[i])
    ensures r == [] || !IsTrimSpace(r[|r| - 1])
  {
    if s != [] && IsTrimSpace(s[|s| - 1]) then
      var r := TrimRight(s[..|s| - 1]);
      assert s[..|s| - 1][..|r|] == s[..|r|];
      assert forall i :: |r| <= i < |s| - 1 ==> s[i] == s[..|s| - 1][i];
      r
    else s
  }

  /** How many trim spaces `trim` removes from the front of `s`. */
  function LeadingSpaces(s: string): nat
  {
    |s| - |TrimLeft(s)|
  }

  /** `trim($s)`: the infix of `s` left when trim spaces are cut from both ends. */
  function Trim(s: string): (r: string)
    ensures r == [] || (!IsTrimSpace(r[0]) && !IsTrimSpace(r[|r| - 1]))
    ensures LeadingSpaces(s) + |r| <= |s| && r == s[LeadingSpaces(s)..LeadingSpaces(s) + |r|]
    ensures forall i :: 0 <= i < LeadingSpaces(s) ==> IsTrimSpace(s[i])
    ensures forall i :: LeadingSpaces(s) + |r| <= i < |s| ==> IsTrimSpace(s[i])
  {
    var l := TrimLeft(s);
    var r := TrimRight(l);
    var k := |s| - |l|;
    assert r == s[k..k + |r|];
    r
  }

  /** Trimming is idempotent. */
  lemma TrimIdempotent(s: string)
    ensures Trim(Trim(s)) == Trim(s)
  {
  }

  /** `trim($s) === ''` exactly when `s` consists of trim spaces only. */
  lemma TrimEmptyIffBlank(s: string)
    ensures Trim(s) == "" <==> forall i :: 0 <= i < |s| ==> IsTrimSpace(s[i])
  {
  }

  /** `implode($sep, $parts)`. */
  function Implode(sep: string, parts: seq<string>): string
  {
    if |parts| == 0 then "" else if |parts| == 1 then parts[0] else parts[0] + sep + Implode(sep, parts[1..])
  }

  // ---------------------------------------------------------------------------
  // Byte-wise string order (strcmp), used by ksort on the plugin's keys
  // ---------------------------------------------------------------------------

  predicate StrLt(a: string, b: string)
  {
    if a == [] then b != []
    else if b == [] then false
    else if a[0] < b[0] then true
    else if a[0] == b[0] then StrLt(a[1..], b[1..])
    else false
  }

  lemma {:induction false} StrLtIrreflexive(a: string)
    ensures !StrLt(a, a)
  {
    if a != [] {
      StrLtIrreflexive(a[1..]);
    }
  }

  lemma {:induction false} StrLtTransitive(a: string, b: string, c: string)
    requires StrLt(a, b) && StrLt(b, c)
    ensures StrLt(a, c)
  {
    if a != [] && b != [] && c != [] && a[0] == b[0] && b[0] == c[0] {
      StrLtTransitive(a[1..], b[1..], c[1..]);
    }
  }

  lemma {:induction false} StrLtTotal(a: string, b: string)
    requires a != b
    ensures StrLt(a, b) || StrLt(b, a)
  {
    if a != [] && b != [] && a[0] == b[0] {
      StrLtTotal(a[1..], b[1..]);
    }
  }

  /** `StrLt` or equal: the order `ksort` leaves adjacent keys in. */
  predicate StrLe(a: string, b: string)
  {
    !StrLt(b, a)
  }

  lemma StrLeTransitive(a: string, b: string, c: string)
    requires StrLe(a, b) && StrLe(b, c)
    ensures StrLe(a, c)
  {
    if a != b && b != c && StrLt(c, a) {
      StrLtTotal(a, b);
      StrLtTotal(b, c);
      StrLtTransitive(a, b, c);
      StrLtTransitive(a, c, a);
      StrLtIrreflexive(a);
    }
  }

  lemma StrLeReflexive(a: string)
    ensures StrLe(a, a)
  {
    StrLtIrreflexive(a);
  }

  /** A strictly smaller key is not also larger or equal. */
  lemma StrLtAsymmetric(a: string, b: string)
    requires StrLt(a, b)
    ensures !StrLt(b, a)
  {
    if StrLt(b, a) {
      StrLtTransitive(a, b, a);
      StrLtIrreflexive(a);
    }
  }

  lemma StrLeAntisymmetric(a: string, b: string)
    requires StrLe(a, b) && StrLe(b, a)
    ensures a == b
  {
    if a != b {
      StrLtTotal(a, b);
    }
  }

  // ---------------------------------------------------------------------------
  // Associative arrays: an ordered list of key/value pairs
  // ---------------------------------------------------------------------------

  type Assoc = seq<(string, Value)>

  /** A PHP array never holds a key twice. */
  predicate DistinctKeys(a: Assoc)
  {
    forall i, j :: 0 <= i < j < |a| ==> a[i].0 != a[j].0
  }

  predicate HasKey(a: Assoc, k: string)
  {
    exists i :: 0 <= i < |a| && a[i].0 == k
  }

  /** `$a[$k]`, or none when the key is absent. */
  function Lookup(a: Assoc, k: string): (r: Option<Value>)
    ensures r.None? <==> !HasKey(a, k)
  {
    if a == [] then None
    else if a[0].0 == k then Some(a[0].1)
    else Lookup(a[1..], k)
  }

  /** In an array without repeated keys, the value found under a key is the one stored beside it. */
  lemma {:induction false} LookupAt(a: Assoc, i: nat)
    requires DistinctKeys(a) && i < |a|
    ensures Lookup(a, a[i].0) == Some(a[i].1)
  {
    if i > 0 {
      assert a[1..][i - 1] == a[i];
      LookupAt(a[1..], i - 1);
    }
  }

  /** `isset($a[$k])`: present and not null. */
  predicate IsSet(a: Assoc, k: string)
  {
    Lookup(a, k).Some? && Lookup(a, k).value != Null
  }

  /** `$a[$k]`, read where a missing key counts as null. */
  function Get(a: Assoc, k: string): Value
  {
    if Lookup(a, k).Some? then Lookup(a, k).value else Null
  }

  /** `$a[$k] = $v`: an existing key keeps its position, a new one is appended. */
  function Put(a: Assoc, k: string, v: Value): (r: Assoc)
    ensures DistinctKeys(a) ==> DistinctKeys(r)
    ensures Lookup(r, k) == Some(v)
    ensures forall j :: j != k ==> Lookup(r, j) == Lookup(a, j)
    ensures |r| == (if HasKey(a, k) then |a| else |a| + 1)
  {
    if a == [] then [(k, v)]
    else if a[0].0 == k then [(k, v)] + a[1..]
    else
      var rest := Put(a[1..], k, v);
      var r := [a[0]] + rest;
      assert r[1..] == rest;
      assert HasKey(a, k) == HasKey(a[1..], k) by {
        if HasKey(a, k) {
          var i :| 0 <= i < |a| && a[i].0 == k;
          assert a[1..][i - 1].0 == k;
        }
        if HasKey(a[1..], k) {
          var i :| 0 <= i < |a[1..]| && a[1..][i].0 == k;
          assert a[i + 1].0 == k;
        }
      }
      assert DistinctKeys(a) ==> DistinctKeys(r) by {
        if DistinctKeys(a) {
          assert !HasKey(a[1..], a[0].0) by {
            forall i | 0 <= i < |a[1..]|
              ensures a[1..][i].0 != a[0].0
            {
              assert a[1..][i] == a[i + 1];
            }
          }
          assert Lookup(rest, a[0].0) == Lookup(a[1..], a[0].0);
          forall i, j | 0 <= i < j < |r|
            ensures r[i].0 != r[j].0
          {
            if i == 0 {
              assert r[j] == rest[j - 1];
            } else {
              assert r[i] == rest[i - 1] && r[j] == rest[j - 1];
            }
          }
        }
      }
      r
  }

  /**
   * `array_merge($a, $b)` for string keys: the pairs of `b` are written into
   * `a` in order, so on a shared key `b` wins and `a`'s position is kept.
   */
  function ArrayMerge(a: Assoc, b: Assoc): (r: Assoc)
    ensures DistinctKeys(a) ==> DistinctKeys(r)
    ensures forall k :: Lookup(b, k).None? ==> Lookup(r, k) == Lookup(a, k)
    ensures DistinctKeys(b) ==> forall k :: Lookup(b, k).Some? ==> Lookup(r, k) == Lookup(b, k)
    decreases |b|
  {
    if b == [] then a
    else
      var r := ArrayMerge(Put(a, b[0].0, b[0].1), b[1..]);
      assert forall k :: Lookup(b, k).None? ==> k != b[0].0 && Lookup(b[1..], k).None?;
      assert DistinctKeys(b) ==> DistinctKeys(b[1..]) && Lookup(b[1..], b[0].0).None?;
      r
  }

  /** `array_filter($a)`: the pairs whose value is truthy, keys and order kept. */
  function ArrayFilter(a: Assoc): (r: Assoc)
    ensures |r| <= |a|
    ensures forall i :: 0 <= i < |r| ==> Truthy(r[i].1) && r[i] in a
    ensures (forall i :: 0 <= i < |a| ==> Truthy(a[i].1)) ==> r == a
    ensures (forall i :: 0 <= i < |a| ==> Empty(a[i].1)) ==> r == []
  {
    if a == [] then [] else (if Truthy(a[0].1) then [a[0]] else []) + ArrayFilter(a[1..])
  }

  /** The values of an array, in order. */
  function Values(a: Assoc): (r: seq<Value>)
    ensures |r| == |a| && forall i :: 0 <= i < |a| ==> r[i] == a[i].1
  {
    if a == [] then [] else [a[0].1] + Values(a[1..])
  }
}
