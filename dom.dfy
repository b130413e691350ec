/**
 * Helpers over element collections. The model keeps a class list as one
 * `bool` per element (does it carry the marker class or not).
 */
module Dom {

  /**
   * What `Array.prototype.findIndex` answers for "carries the marker":
   * the first position whose entry is true, or -1 when there is none.
   */
  function IndexOfFirst(s: seq<bool>): (r: int)
    ensures -1 <= r < |s|
    ensures r == -1 <==> forall k :: 0 <= k < |s| ==> !s[k]
    ensures 0 <= r ==> s[r] && forall k :: 0 <= k < r ==> !s[k]
  {
    if |s| == 0 then -1
    else if s[0] then 0
    else
      var r := IndexOfFirst(s[1..]);
      assert forall k :: 1 <= k < |s| ==> s[k] == s[1..][k - 1];
      if r == -1 then -1 else r + 1
  }

  /** The scan over the live collection, one element at a time. */
  method FindIndex(a: array<bool>) returns (r: int)
    ensures r == IndexOfFirst(a[..])
  {
    r := 0;
    while r < a.Length && !a[r]
      invariant 0 <= r <= a.Length
      invariant forall k :: 0 <= k < r ==> !a[k]
    {
      r := r + 1;
    }
    if r == a.Length {
      r := -1;
    }
  }
}
