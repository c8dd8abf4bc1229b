/** The two JavaScript array operations the calculator uses to look things up
    in the formulary: `Array.prototype.find` and `Array.prototype.filter`. */
module Lists {
  import opened Wrappers

  /** `xs.find(p)`: the first element satisfying `p`, or nothing. */
  function Find<T>(xs: seq<T>, p: T -> bool): (r: Option<T>)
    ensures r.None? <==> forall i :: 0 <= i < |xs| ==> !p(xs[i])
    ensures r.Some? ==> exists i :: 0 <= i < |xs| && xs[i] == r.value && p(xs[i])
                                    && forall j :: 0 <= j < i ==> !p(xs[j])
  {
    if xs == [] then None
    else if p(xs[0]) then Some(xs[0])
    else
      var r := Find(xs[1..], p);
      assert forall i :: 0 < i < |xs| ==> xs[1..][i - 1] == xs[i];
      r
  }

  /** `xs.filter(p)`: the elements satisfying `p`. */
  function Filter<T>(xs: seq<T>, p: T -> bool): (r: seq<T>)
    ensures |r| <= |xs|
    ensures forall x :: x in r ==> x in xs && p(x)
    ensures forall x :: x in xs && p(x) ==> x in r
  {
    if xs == [] then []
    else if p(xs[0]) then [xs[0]] + Filter(xs[1..], p)
    else Filter(xs[1..], p)
  }

  /** The head of a filtered list is what `find` returns for the same test,
      so "the first element of the filtered list" and "the first element
      that passes" are one and the same. */
  lemma {:induction false} FilterHeadIsFind<T>(xs: seq<T>, p: T -> bool)
    ensures Filter(xs, p) == [] <==> Find(xs, p) == None
    ensures Filter(xs, p) != [] ==> Find(xs, p) == Some(Filter(xs, p)[0])
  {
    if xs != [] && !p(xs[0]) {
      FilterHeadIsFind(xs[1..], p);
    }
  }

  /** The head of a non-empty filtered list is the first element of the
      original list that passes. */
  lemma FilterHeadIsFirst<T>(xs: seq<T>, p: T -> bool)
    requires Filter(xs, p) != []
    ensures exists i ::
              && 0 <= i < |xs| && xs[i] == Filter(xs, p)[0] && p(xs[i])
              && forall j :: 0 <= j < i ==> !p(xs[j])
  {
    FilterHeadIsFind(xs, p);
  }
}
