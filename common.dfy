/** Small shared vocabulary: an optional value and the ordered search that
    `Array.prototype.find` performs. */
module Common {

  /** A value that may be absent: a storage key that was never written, a
      `find` that matched nothing, a field that a record does not carry. */
  datatype Option<+T> = None | Some(value: T)

  /** Index of the first element of `s` that satisfies `p`, looking at the
      elements in order: the index behind `s.find(p)` (`None` when `find`
      returns `undefined`). */
  function FindFirst<T>(s: seq<T>, p: T -> bool): (r: Option<nat>)
    ensures r.Some? ==> r.value < |s| && p(s[r.value])
    ensures r.Some? ==> forall j :: 0 <= j < r.value ==> !p(s[j])
    ensures r.None? <==> forall j :: 0 <= j < |s| ==> !p(s[j])
  {
    FindFrom(s, p, 0)
  }

  /** The search of `FindFirst`, started at position `from`. */
  function FindFrom<T>(s: seq<T>, p: T -> bool, from: nat): (r: Option<nat>)
    requires from <= |s|
    ensures r.Some? ==> from <= r.value < |s| && p(s[r.value])
    ensures r.Some? ==> forall j :: from <= j < r.value ==> !p(s[j])
    ensures r.None? <==> forall j :: from <= j < |s| ==> !p(s[j])
    decreases |s| - from
  {
    if from == |s| then None
    else if p(s[from]) then Some(from)
    else FindFrom(s, p, from + 1)
  }

  /** Whether some element satisfies `p`: `s.some(p)`. */
  predicate Any<T>(s: seq<T>, p: T -> bool)
  {
    FindFirst(s, p).Some?
  }

  lemma AnyIff<T>(s: seq<T>, p: T -> bool)
    ensures Any(s, p) <==> exists i :: 0 <= i < |s| && p(s[i])
  {
  }
}
