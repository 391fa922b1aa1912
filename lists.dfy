/**
 * `Array.prototype.filter` on sequences, and the laws the views built from it
 * rely on.
 */
module Lists {

  /** The elements of `s` that satisfy `keep`, in their original order. */
  function Filter<T>(s: seq<T>, keep: T -> bool): (r: seq<T>)
    ensures |r| <= |s|
    ensures forall i :: 0 <= i < |r| ==> r[i] in s && keep(r[i])
    ensures forall i :: 0 <= i < |s| && keep(s[i]) ==> s[i] in r
    decreases |s|
  {
    if |s| == 0 then []
    else (if keep(s[0]) then [s[0]] else []) + Filter(s[1..], keep)
  }

  /** Filtering a concatenation filters each part and keeps them in order. */
  lemma {:induction false} FilterAppend<T>(a: seq<T>, b: seq<T>, keep: T -> bool)
    ensures Filter(a + b, keep) == Filter(a, keep) + Filter(b, keep)
    decreases |a|
  {
    if |a| > 0 {
      assert (a + b)[1..] == a[1..] + b;
      FilterAppend(a[1..], b, keep);
    } else {
      assert a + b == b;
    }
  }

  /** Putting `x` in front puts it in front of the filtered list too, when it is kept. */
  lemma FilterCons<T>(x: T, s: seq<T>, keep: T -> bool)
    ensures Filter([x] + s, keep) == if keep(x) then [x] + Filter(s, keep) else Filter(s, keep)
  {
    FilterAppend([x], s, keep);
  }

  /** A weaker test keeps at least as many elements. */
  lemma {:induction false} FilterWeakerKeepsMore<T>(s: seq<T>, strong: T -> bool, weak: T -> bool)
    requires forall x :: x in s && strong(x) ==> weak(x)
    ensures |Filter(s, strong)| <= |Filter(s, weak)|
    decreases |s|
  {
    if |s| > 0 {
      FilterWeakerKeepsMore(s[1..], strong, weak);
    }
  }

  /**
   * Two tests that agree except that the weaker one also keeps some element:
   * then it keeps strictly more.
   */
  lemma {:induction false} FilterStrictlyMore<T>(s: seq<T>, strong: T -> bool, weak: T -> bool, y: T)
    requires forall x :: x in s && strong(x) ==> weak(x)
    requires y in s && weak(y) && !strong(y)
    ensures |Filter(s, strong)| < |Filter(s, weak)|
    decreases |s|
  {
    if s[0] == y {
      FilterWeakerKeepsMore(s[1..], strong, weak);
    } else {
      FilterStrictlyMore(s[1..], strong, weak, y);
    }
  }

  /** Two tests that agree on every element of `s` filter it alike. */
  lemma {:induction false} FilterSameOn<T>(s: seq<T>, p: T -> bool, q: T -> bool)
    requires forall i :: 0 <= i < |s| ==> p(s[i]) == q(s[i])
    ensures Filter(s, p) == Filter(s, q)
    decreases |s|
  {
    if |s| > 0 {
      FilterSameOn(s[1..], p, q);
    }
  }
}
