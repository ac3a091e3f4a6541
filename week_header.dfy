/** The weekday header of the calendar component, which rotates the days of
    the week so that the configured first day comes first. */
module WeekHeader {
  import opened KotlinStd

  /** `Array.rotateRight(n)`: the last `n` elements followed by the others.
      A negative `n` throws from `takeLast`; an `n` past the length keeps
      the order. */
  function RotateRight<T>(a: seq<T>, n: int): (r: Result<seq<T>>)
    ensures n < 0 <==> r.Err?
    ensures r.Err? ==> r.error.kind == IllegalArgument
    ensures 0 <= n <= |a| ==> r == Ok(a[|a| - n..] + a[..|a| - n])
    ensures n >= |a| ==> r == Ok(a)
  {
    match TakeLast(a, n)
    case Err(e) => Err(e)
    case Ok(last) =>
      match DropLast(a, n)
      case Err(e) => Err(e)
      case Ok(rest) =>
        assert n >= |a| ==> last == a && rest == [];
        assert last + rest == if n >= |a| then a else a[|a| - n..] + a[..|a| - n];
        Ok(last + rest)
  }

  /** Rotating keeps every element: same length, same elements, and the
      element at position `i` moves `n` places to the right, wrapping
      around at the end. */
  lemma RotateRightIsPermutation<T>(a: seq<T>, n: int)
    requires 0 <= n
    ensures RotateRight(a, n).Ok?
    ensures |RotateRight(a, n).value| == |a|
    ensures multiset(RotateRight(a, n).value) == multiset(a)
    ensures n <= |a| ==> forall i :: 0 <= i < |a| - n ==> RotateRight(a, n).value[i + n] == a[i]
    ensures n <= |a| ==> forall i :: |a| - n <= i < |a| ==> RotateRight(a, n).value[i - (|a| - n)] == a[i]
  {
    if n <= |a| {
      var k := |a| - n;
      var r := a[k..] + a[..k];
      assert RotateRight(a, n).value == r;
      assert a == a[..k] + a[k..];
      assert multiset(a) == multiset(a[..k]) + multiset(a[k..]);
      assert multiset(r) == multiset(a[k..]) + multiset(a[..k]);
    }
  }

  /** Rotating by one moves the last day to the front. */
  lemma RotateRightByOne<T>(a: seq<T>)
    requires |a| > 0
    ensures RotateRight(a, 1) == Ok([a[|a| - 1]] + a[..|a| - 1])
  {
    assert a[|a| - 1..] == [a[|a| - 1]];
    if |a| == 1 {
      assert a == [a[0]] + a[..0];
    }
  }
}
