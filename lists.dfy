/** The Kotlin collection helpers the core leans on (`indexOfFirst`, `find`,
    `indexOf`, `MutableList.remove`), with the contracts their documentation
    promises, plus the `Option` type that stands for Kotlin's nullable `T?`. */
module Lists {

  datatype Option<+T> = None | Some(value: T)

  /** `indexOfFirst { p(it) }`: the index of the first element satisfying `p`,
      or -1 when there is none. */
  function IndexWhere<T>(s: seq<T>, p: T -> bool): (i: int)
    ensures -1 <= i < |s|
    ensures i == -1 <==> forall k :: 0 <= k < |s| ==> !p(s[k])
    ensures 0 <= i ==> p(s[i]) && forall k :: 0 <= k < i ==> !p(s[k])
    decreases |s|
  {
    if s == [] then -1
    else if p(s[0]) then 0
    else
      var j := IndexWhere(s[1..], p);
      if j == -1 then -1 else j + 1
  }

  /** `find { p(it) }`: the first element satisfying `p`, or null. */
  function Find<T>(s: seq<T>, p: T -> bool): (r: Option<T>)
    ensures r.None? <==> forall k :: 0 <= k < |s| ==> !p(s[k])
    ensures r.Some? <==> IndexWhere(s, p) != -1
    ensures r.Some? ==> r.value == s[IndexWhere(s, p)] && p(r.value) && r.value in s
  {
    var i := IndexWhere(s, p);
    if i == -1 then None else Some(s[i])
  }

  /** `s.indexOf(x)`: the first index holding an element equal to `x`, or -1. */
  function IndexOf<T(==)>(s: seq<T>, x: T): (i: int)
    ensures -1 <= i < |s|
    ensures i == -1 <==> x !in s
    ensures 0 <= i ==> s[i] == x && x !in s[..i]
  {
    var i := IndexWhere(s, y => y == x);
    assert 0 <= i ==> forall k :: 0 <= k < i ==> s[..i][k] == s[k];
    i
  }

  /** Removing the element at index `i`, keeping the order of the rest. */
  function RemoveAt<T>(s: seq<T>, i: nat): (r: seq<T>)
    requires i < |s|
    ensures |r| == |s| - 1
    ensures forall k :: 0 <= k < i ==> r[k] == s[k]
    ensures forall k :: i <= k < |r| ==> r[k] == s[k + 1]
  {
    s[..i] + s[i + 1..]
  }

  /** `MutableList.remove(x)`: drops the first element equal to `x`, if any. */
  function Remove<T(==)>(s: seq<T>, x: T): (r: seq<T>)
    ensures x !in s ==> r == s
    ensures x in s ==> |r| == |s| - 1 && multiset(r) == multiset(s) - multiset{x}
  {
    var i := IndexOf(s, x);
    if i == -1 then s
    else
      assert s == s[..i] + [x] + s[i + 1..];
      RemoveAt(s, i)
  }

  /** The first element matching `p` is found again by `indexOf` at the index
      `indexOfFirst` gives, whatever `p` is: an equal element met earlier would
      have matched `p` too. */
  lemma IndexOfFound<T>(s: seq<T>, p: T -> bool)
    requires IndexWhere(s, p) != -1
    ensures IndexOf(s, s[IndexWhere(s, p)]) == IndexWhere(s, p)
  {
  }
}
