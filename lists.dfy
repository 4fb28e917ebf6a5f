/** The two Python list operations the core relies on. */
module Lists {
  import opened Wrappers

  /** Python's `list.index(x)`: the position of the first element equal to `x`;
      `None` stands for the ValueError raised when there is none. */
  function IndexOf<T(==)>(s: seq<T>, x: T): (r: Option<nat>)
    ensures r.Some? ==> r.value < |s| && s[r.value] == x
    ensures r.Some? ==> forall j :: 0 <= j < r.value ==> s[j] != x
    ensures r.None? <==> x !in s
  {
    if |s| == 0 then None
    else if s[0] == x then Some(0)
    else match IndexOf(s[1..], x)
      case None => None
      case Some(k) => Some(k + 1)
  }

  /** `s` without its trailing run of `blank` elements. */
  function DropTrailing<T(==)>(s: seq<T>, blank: T): (t: seq<T>)
    ensures |t| <= |s| && forall k :: 0 <= k < |t| ==> t[k] == s[k]
    ensures forall k :: |t| <= k < |s| ==> s[k] == blank
    ensures |t| > 0 ==> t[|t| - 1] != blank
  {
    if |s| == 0 then []
    else if s[|s| - 1] == blank then DropTrailing(s[..|s| - 1], blank)
    else s
  }

  /** An element whose earlier elements all differ from it is found at its own position. */
  lemma FirstIndex<T>(s: seq<T>, x: T, i: nat)
    requires i < |s| && s[i] == x
    requires forall j :: 0 <= j < i ==> s[j] != x
    ensures IndexOf(s, x) == Some(i)
  {
  }
}
