/** `awaitUntil`, the test helper that reads items off a flow under test
    until one satisfies a predicate. The items the flow delivers are given
    in order; when none is left, `awaitItem` throws, and so does
    `awaitUntil`, which is modelled by an absent result. */
module TestUtils {
  import opened KotlinStd

  /** Returns the first delivered item that satisfies the predicate, and how
      many items were taken from the flow to reach it. Items before it are
      consumed and dropped; items after it are left. */
  method AwaitUntil<T>(items: seq<T>, matches: T -> bool) returns (value: Option<T>, received: nat)
    ensures received <= |items|
    ensures value.Some? ==> 1 <= received && value.value == items[received - 1] && matches(value.value)
    ensures value.Some? ==> forall k :: 0 <= k < received - 1 ==> !matches(items[k])
    ensures value.None? ==> received == |items| && forall k :: 0 <= k < |items| ==> !matches(items[k])
  {
    if |items| == 0 {
      return None, 0;
    }
    var current := items[0];
    received := 1;
    while !matches(current)
      invariant 1 <= received <= |items|
      invariant current == items[received - 1]
      invariant forall k :: 0 <= k < received - 1 ==> !matches(items[k])
      decreases |items| - received
    {
      if received == |items| {
        return None, received;
      }
      current := items[received];
      received := received + 1;
    }
    value := Some(current);
  }
}
