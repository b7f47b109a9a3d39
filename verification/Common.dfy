/** Small definitions shared by every component. */
module Common {

  datatype Option<+T> = None | Some(value: T)

  /** One octet, as PTYs and binary WebSocket frames carry them. */
  newtype byte = x: int | 0 <= x < 256

  function Min(a: nat, b: nat): nat {
    if a <= b then a else b
  }

  /** The last `n` elements of `s`, or all of `s` when it is shorter. */
  function Last<T>(s: seq<T>, n: nat): (r: seq<T>)
    ensures |r| == Min(|s|, n)
    ensures r == s[|s| - |r|..]
  {
    if |s| <= n then s else s[|s| - n..]
  }

  /** Trimming before an append does not change what is kept after it. */
  lemma LastOfAppend<T>(s: seq<T>, d: seq<T>, n: nat)
    ensures Last(Last(s, n) + d, n) == Last(s + d, n)
  {
    var kept, all := Last(s, n) + d, s + d;
    var gone := |all| - |kept|;
    assert forall i :: 0 <= i < |kept| ==> kept[i] == all[gone + i];
    var a, b := Last(kept, n), Last(all, n);
    assert |a| == |b| && forall i :: 0 <= i < |a| ==> a[i] == b[i];
  }
}
