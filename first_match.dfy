/**
 * The first-match search that every keyed store of the system performs with
 * lodash's `_.find`: walk the list in insertion order and stop at the first
 * element the predicate accepts.
 */
module FirstMatch {
  import opened Wrappers

  /** Index of the first element of `s` that satisfies `p`, if there is one. */
  function FirstIndex<T>(s: seq<T>, p: T -> bool): (r: Option<nat>)
    ensures r.Some? ==> r.value < |s| && p(s[r.value])
    ensures r.Some? ==> forall j :: 0 <= j < r.value ==> !p(s[j])
    ensures r.None? ==> forall j :: 0 <= j < |s| ==> !p(s[j])
  {
    if s == [] then None
    else if p(s[0]) then Some(0)
    else match FirstIndex(s[1..], p)
      case None => None
      case Some(i) => Some(i + 1)
  }

  /** `_.find(s, p)`: the first element accepted by `p`, or nothing. */
  function Find<T>(s: seq<T>, p: T -> bool): (r: Option<T>)
    ensures r.Some? ==> exists i :: 0 <= i < |s| && s[i] == r.value && p(s[i]) &&
                                    forall j :: 0 <= j < i ==> !p(s[j])
    ensures r.None? <==> forall j :: 0 <= j < |s| ==> !p(s[j])
  {
    match FirstIndex(s, p)
    case None => None
    case Some(i) => Some(s[i])
  }

  /** The first-match index is the unique index that is accepted and has no accepted predecessor. */
  lemma FirstIndexUnique<T>(s: seq<T>, p: T -> bool, i: nat)
    requires i < |s| && p(s[i])
    requires forall j :: 0 <= j < i ==> !p(s[j])
    ensures FirstIndex(s, p) == Some(i)
  {
  }

  /**
   * Appending an element never changes an existing first match; when there was
   * none, the appended element is found exactly when `p` accepts it.
   */
  lemma FirstIndexAppend<T>(s: seq<T>, x: T, p: T -> bool)
    ensures FirstIndex(s + [x], p) ==
      match FirstIndex(s, p)
      case Some(i) => Some(i)
      case None => if p(x) then Some(|s|) else None
  {
    var t := s + [x];
    assert forall j :: 0 <= j < |s| ==> t[j] == s[j];
    match FirstIndex(s, p)
    case Some(i) =>
      FirstIndexUnique(t, p, i);
    case None =>
      if p(x) {
        FirstIndexUnique(t, p, |s|);
      }
  }
}
