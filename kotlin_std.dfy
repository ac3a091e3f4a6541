/** The parts of the Kotlin standard library that the diary core relies on,
    written out as Dafny functions: nullable values, exceptions, `filter`,
    `take`, `takeLast`/`dropLast`, the stable `sortedBy`, substring search
    (case-sensitive and ASCII case-insensitive), decimal rendering and
    parsing of integers, and `joinToString`. */
module KotlinStd {

  /** A Kotlin nullable value `T?`. */
  datatype Option<+T> = None | Some(value: T)

  datatype ExceptionKind = IllegalArgument | IO | Other

  /** A thrown Kotlin exception: its class (as far as the core tells classes
      apart) and its message. */
  datatype Exception = Exception(kind: ExceptionKind, message: string)

  /** The outcome of a standard-library call that may throw. */
  datatype Result<+T> = Ok(value: T) | Err(error: Exception)

  // ---------------------------------------------------------------------
  // filter

  /** `Iterable.filter`: the elements satisfying `p`, in their order. */
  function Filter<T(==,!new)>(s: seq<T>, p: T -> bool): (r: seq<T>)
    ensures |r| <= |s|
    ensures forall x :: x in r <==> x in s && p(x)
  {
    if s == [] then []
    else
      assert s == [s[0]] + s[1..];
      (if p(s[0]) then [s[0]] else []) + Filter(s[1..], p)
  }

  /** Filtering distributes over concatenation, so it keeps the relative
      order of the elements it keeps. */
  lemma {:induction false} FilterConcat<T(!new)>(s: seq<T>, t: seq<T>, p: T -> bool)
    ensures Filter(s + t, p) == Filter(s, p) + Filter(t, p)
  {
    if s == [] {
      assert s + t == t;
    } else {
      assert (s + t)[1..] == s[1..] + t;
      FilterConcat(s[1..], t, p);
    }
  }

  /** Filtering keeps every occurrence of a kept element and drops every
      occurrence of the others. */
  lemma {:induction false} FilterMultiset<T(!new)>(s: seq<T>, p: T -> bool)
    ensures forall x :: multiset(Filter(s, p))[x] == if p(x) then multiset(s)[x] else 0
  {
    if s != [] {
      FilterMultiset(s[1..], p);
      assert s == [s[0]] + s[1..];
    }
  }

  /** Filtering keeps a relation that holds between every earlier and
      later element: the kept elements stay in their relative order. */
  lemma {:induction false} FilterKeepsOrder<T(!new)>(s: seq<T>, p: T -> bool, before: (T, T) -> bool)
    requires forall i, j :: 0 <= i < j < |s| ==> before(s[i], s[j])
    ensures forall i, j :: 0 <= i < j < |Filter(s, p)| ==> before(Filter(s, p)[i], Filter(s, p)[j])
  {
    if s != [] {
      FilterKeepsOrder(s[1..], p, before);
      var rest := Filter(s[1..], p);
      forall x | x in rest
        ensures before(s[0], x)
      {
        var k :| 0 <= k < |s[1..]| && s[1..][k] == x;
        assert s[k + 1] == x;
      }
    }
  }

  /** A predicate that holds everywhere keeps the whole sequence. */
  lemma {:induction false} FilterAll<T(!new)>(s: seq<T>, p: T -> bool)
    requires forall x :: x in s ==> p(x)
    ensures Filter(s, p) == s
  {
    if s != [] {
      FilterAll(s[1..], p);
    }
  }

  // ---------------------------------------------------------------------
  // take, takeLast, dropLast

  /** `Iterable.take(n)` for a non-negative `n`. */
  function Take<T>(s: seq<T>, n: nat): (r: seq<T>)
    ensures |r| == if n < |s| then n else |s|
    ensures r == s[..|r|]
  {
    if n < |s| then s[..n] else s
  }

  /** `takeLast(n)`: the last `n` elements, or all of them; a negative count
      throws `IllegalArgumentException`. */
  function TakeLast<T>(s: seq<T>, n: int): (r: Result<seq<T>>)
    ensures n < 0 <==> r.Err?
    ensures r.Err? ==> r.error.kind == IllegalArgument
    ensures r.Ok? ==> r.value == s[|s| - (if n < |s| then n else |s|)..]
  {
    if n < 0 then Err(Exception(IllegalArgument, "Requested element count " + IntToString(n) + " is less than zero."))
    else if n < |s| then Ok(s[|s| - n..])
    else Ok(s)
  }

  /** `dropLast(n)`: all but the last `n` elements, or none; a negative count
      throws `IllegalArgumentException`. */
  function DropLast<T>(s: seq<T>, n: int): (r: Result<seq<T>>)
    ensures n < 0 <==> r.Err?
    ensures r.Err? ==> r.error.kind == IllegalArgument
    ensures r.Ok? ==> r.value == s[..|s| - (if n < |s| then n else |s|)]
  {
    if n < 0 then Err(Exception(IllegalArgument, "Requested element count " + IntToString(n) + " is less than zero."))
    else if n < |s| then Ok(s[..|s| - n])
    else Ok([])
  }

  // ---------------------------------------------------------------------
  // sortedBy (stable)

  ghost predicate SortedBy<T>(s: seq<T>, key: T -> int) {
    forall i, j :: 0 <= i < j < |s| ==> key(s[i]) <= key(s[j])
  }

  /** Inserts `x` in front of the first element whose key is not smaller,
      so that `x` goes before the elements it ties with. */
  function InsertBy<T>(x: T, s: seq<T>, key: T -> int): (r: seq<T>)
    ensures |r| == |s| + 1
    ensures multiset(r) == multiset(s) + multiset{x}
  {
    if s == [] || key(x) <= key(s[0]) then [x] + s
    else
      assert s == [s[0]] + s[1..];
      [s[0]] + InsertBy(x, s[1..], key)
  }

  lemma {:induction false} InsertBySorted<T>(x: T, s: seq<T>, key: T -> int)
    requires SortedBy(s, key)
    ensures SortedBy(InsertBy(x, s, key), key)
  {
    if s != [] && key(x) > key(s[0]) {
      var rest := InsertBy(x, s[1..], key);
      InsertBySorted(x, s[1..], key);
      forall y | y in rest
        ensures key(s[0]) <= key(y)
      {
        assert y in multiset(rest);
        assert y == x || y in multiset(s[1..]);
      }
      var r := [s[0]] + rest;
      forall i, j | 0 <= i < j < |r|
        ensures key(r[i]) <= key(r[j])
      {
        if i == 0 {
          assert r[j] in rest;
        } else {
          assert r[i] == rest[i - 1] && r[j] == rest[j - 1];
        }
      }
    }
  }

  /** `sortedBy(key)`: a stable ascending sort. `sortedByDescending(key)`
      is `sortedBy` with the key negated, ties included. */
  function SortBy<T>(s: seq<T>, key: T -> int): (r: seq<T>)
    ensures |r| == |s|
    ensures multiset(r) == multiset(s)
    ensures SortedBy(r, key)
  {
    if s == [] then []
    else
      assert s == [s[0]] + s[1..];
      InsertBySorted(s[0], SortBy(s[1..], key), key);
      InsertBy(s[0], SortBy(s[1..], key), key)
  }

  /** The elements whose key is exactly `k`. */
  function KeyIs<T>(key: T -> int, k: int): T -> bool {
    x => key(x) == k
  }

  lemma {:induction false} InsertByKeepsTies<T(!new)>(x: T, s: seq<T>, key: T -> int, k: int)
    ensures Filter(InsertBy(x, s, key), KeyIs(key, k))
         == (if key(x) == k then [x] else []) + Filter(s, KeyIs(key, k))
  {
    var p := KeyIs(key, k);
    if s == [] || key(x) <= key(s[0]) {
      FilterConcat([x], s, p);
    } else {
      InsertByKeepsTies(x, s[1..], key, k);
      FilterConcat([s[0]], InsertBy(x, s[1..], key), p);
    }
  }

  /** Stability: elements with equal keys keep their original relative order. */
  lemma {:induction false} SortByIsStable<T(!new)>(s: seq<T>, key: T -> int, k: int)
    ensures Filter(SortBy(s, key), KeyIs(key, k)) == Filter(s, KeyIs(key, k))
  {
    if s != [] {
      SortByIsStable(s[1..], key, k);
      InsertByKeepsTies(s[0], SortBy(s[1..], key), key, k);
    }
  }

  // ---------------------------------------------------------------------
  // String.contains

  predicate StartsWith(s: string, prefix: string) {
    |prefix| <= |s| && s[..|prefix|] == prefix
  }

  /** `String.contains(other, ignoreCase = false)`. */
  predicate Contains(s: string, sub: string)
    decreases |s|
  {
    StartsWith(s, sub) || (|s| > 0 && Contains(s[1..], sub))
  }

  /** `sub` occurs in `s` starting at index `i`. */
  predicate OccursAt(s: string, sub: string, i: int) {
    0 <= i <= |s| - |sub| && s[i..i + |sub|] == sub
  }

  /** `contains` holds exactly when `sub` occurs at some position of `s`. */
  lemma {:induction false} ContainsIffOccurs(s: string, sub: string)
    ensures Contains(s, sub) <==> exists i :: OccursAt(s, sub, i)
  {
    if StartsWith(s, sub) {
      assert OccursAt(s, sub, 0);
    } else if |s| > 0 {
      ContainsIffOccurs(s[1..], sub);
      if exists i :: OccursAt(s, sub, i) {
        var i :| OccursAt(s, sub, i);
        assert i > 0;
        assert s[1..][i - 1..i - 1 + |sub|] == s[i..i + |sub|];
        assert OccursAt(s[1..], sub, i - 1);
      }
      if Contains(s[1..], sub) {
        var j :| OccursAt(s[1..], sub, j);
        assert s[j + 1..j + 1 + |sub|] == s[1..][j..j + |sub|];
        assert OccursAt(s, sub, j + 1);
      }
    }
  }

  /** Lower-cases ASCII letters and leaves every other character alone. */
  function LowerChar(c: char): (r: char)
    ensures 'A' <= c <= 'Z' ==> 'a' <= r <= 'z'
    ensures !('A' <= c <= 'Z') ==> r == c
  {
    if 'A' <= c <= 'Z' then (c as int + 32) as char else c
  }

  function Lower(s: string): (r: string)
    ensures |r| == |s|
    ensures forall i :: 0 <= i < |s| ==> r[i] == LowerChar(s[i])
  {
    if s == [] then [] else [LowerChar(s[0])] + Lower(s[1..])
  }

  /** `String.contains(other, ignoreCase = true)`, for ASCII case. */
  predicate ContainsIgnoreCase(s: string, sub: string) {
    Contains(Lower(s), Lower(sub))
  }

  // ---------------------------------------------------------------------
  // Decimal rendering and parsing

  function DigitChar(d: nat): char
    requires d < 10
  {
    "0123456789"[d]
  }

  predicate IsDigit(c: char) {
    '0' <= c <= '9'
  }

  /** The decimal rendering of a natural number (string templates, `toString`). */
  function NatToString(n: nat): (r: string)
    ensures |r| > 0
    ensures forall i :: 0 <= i < |r| ==> IsDigit(r[i])
    ensures |r| > 1 ==> r[0] != '0'
  {
    if n < 10 then [DigitChar(n)] else NatToString(n / 10) + [DigitChar(n % 10)]
  }

  /** `Long.toString`: an optional minus sign, then the digits. */
  function IntToString(x: int): string {
    if x < 0 then "-" + NatToString(-x) else NatToString(x)
  }

  /** The value of a string of digits. */
  function DigitsValue(s: string): nat
    requires forall i :: 0 <= i < |s| ==> IsDigit(s[i])
  {
    if s == [] then 0
    else
      assert IsDigit(s[|s| - 1]);
      10 * DigitsValue(s[..|s| - 1]) + (s[|s| - 1] as int - '0' as int)
  }

  /** `String.toLong`: a non-empty run of digits with an optional leading
      minus sign; anything else throws `NumberFormatException`. */
  function ParseInt(s: string): (r: Result<int>)
    ensures r.Ok? ==> |s| > 0
  {
    var digits := if |s| > 0 && s[0] == '-' then s[1..] else s;
    if |digits| > 0 && forall i :: 0 <= i < |digits| ==> IsDigit(digits[i]) then
      var magnitude: int := DigitsValue(digits);
      Ok(if |s| > 0 && s[0] == '-' then -magnitude else magnitude)
    else
      Err(Exception(Other, "NumberFormatException"))
  }

  lemma {:induction false} DigitsOfNat(n: nat)
    ensures DigitsValue(NatToString(n)) == n
  {
    if n >= 10 {
      DigitsOfNat(n / 10);
      var r := NatToString(n);
      assert r[..|r| - 1] == NatToString(n / 10);
    }
  }

  /** Parsing undoes rendering, for every integer. */
  lemma ParseRendered(x: int)
    ensures ParseInt(IntToString(x)) == Ok(x)
  {
    var s := IntToString(x);
    if x < 0 {
      var n := NatToString(-x);
      DigitsOfNat(-x);
      assert s == "-" + n;
      assert s[0] == '-' && s[1..] == n;
    } else {
      var n := NatToString(x);
      DigitsOfNat(x);
      assert s == n && IsDigit(s[0]);
      assert s[0] != '-';
    }
  }

  // ---------------------------------------------------------------------
  // joinToString

  /** `joinToString(separator)`. */
  function Join(parts: seq<string>, separator: string): (r: string)
    ensures parts == [] ==> r == ""
    ensures |parts| == 1 ==> r == parts[0]
  {
    if parts == [] then ""
    else if |parts| == 1 then parts[0]
    else parts[0] + separator + Join(parts[1..], separator)
  }

  // ---------------------------------------------------------------------
  // String concatenation

  /** `String?.plus(other)`: a null receiver is rendered as "null". */
  function NullableConcat(s: Option<string>, other: string): (r: string)
    ensures s.Some? ==> r == s.value + other
    ensures s.None? ==> r == "null" + other
    ensures |r| >= |other|
  {
    (if s.Some? then s.value else "null") + other
  }

  /** The parts joined in order with nothing between them. */
  function Concat(parts: seq<string>): (r: string) {
    if parts == [] then "" else Concat(parts[..|parts| - 1]) + parts[|parts| - 1]
  }
}
