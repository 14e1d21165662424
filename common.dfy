/** Small wrapper types and sequence helpers shared by the server and the client model. */
module Common {

  /** A value that may be absent: Go's nil pointer, or a lookup that found nothing. */
  datatype Option<+T> = None | Some(value: T)

  /**
   * The elements of `xs` that satisfy `p`, in their original order: the
   * shape of every Go loop that appends the matching elements to a slice.
   * Defined on the prefix so that such a loop's invariant is `Filter(xs[..i], p)`.
   */
  function Filter<T(!new)>(xs: seq<T>, p: T -> bool): (r: seq<T>)
    ensures |r| <= |xs|
    ensures forall x :: x in r <==> x in xs && p(x)
    decreases |xs|
  {
    if xs == [] then []
    else
      assert xs == xs[..|xs| - 1] + [xs[|xs| - 1]];
      Filter(xs[..|xs| - 1], p) + (if p(xs[|xs| - 1]) then [xs[|xs| - 1]] else [])
  }

  /** The position of the first element satisfying `p`. */
  function FirstWhere<T>(xs: seq<T>, p: T -> bool): (r: Option<nat>)
    ensures r.Some? ==> r.value < |xs| && p(xs[r.value]) && forall j :: 0 <= j < r.value ==> !p(xs[j])
    ensures r.None? ==> forall j :: 0 <= j < |xs| ==> !p(xs[j])
  {
    if xs == [] then None
    else if p(xs[0]) then Some(0)
    else match FirstWhere(xs[1..], p)
      case None => None
      case Some(i) => Some(i + 1)
  }

  /** `f` applied to every element of `xs`, in order. */
  function MapSeq<T, U>(xs: seq<T>, f: T -> U): (r: seq<U>)
    ensures |r| == |xs| && forall i :: 0 <= i < |xs| ==> r[i] == f(xs[i])
  {
    seq(|xs|, i requires 0 <= i < |xs| => f(xs[i]))
  }

  /** Filtering keeps every relation that held between earlier and later elements. */
  lemma {:induction false} FilterPairwise<T(!new)>(xs: seq<T>, p: T -> bool, rel: (T, T) -> bool)
    requires forall i, j :: 0 <= i < j < |xs| ==> rel(xs[i], xs[j])
    ensures forall i, j :: 0 <= i < j < |Filter(xs, p)| ==> rel(Filter(xs, p)[i], Filter(xs, p)[j])
    decreases |xs|
  {
    if xs != [] {
      var n := |xs| - 1;
      var pre := xs[..n];
      FilterPairwise(pre, p, rel);
      var f := Filter(pre, p);
      forall k | 0 <= k < |f| ensures rel(f[k], xs[n]) {
        assert f[k] in pre;
        var m :| 0 <= m < n && pre[m] == f[k];
        assert xs[m] == f[k];
      }
      if p(xs[n]) {
        var r := f + [xs[n]];
        assert Filter(xs, p) == r;
        forall i, j | 0 <= i < j < |r| ensures rel(r[i], r[j]) {
          if j < |f| {
            assert r[i] == f[i] && r[j] == f[j];
          } else {
            assert r[i] == f[i] && r[j] == xs[n];
          }
        }
      } else {
        assert Filter(xs, p) == f;
      }
    }
  }

  /** Everything satisfies `p`: filtering keeps the whole sequence. */
  lemma {:induction false} FilterAll<T(!new)>(xs: seq<T>, p: T -> bool)
    requires forall k :: 0 <= k < |xs| ==> p(xs[k])
    ensures Filter(xs, p) == xs
    decreases |xs|
  {
    if xs != [] {
      var n := |xs| - 1;
      var init := xs[..n];
      assert Filter(init, p) == init by {
        forall k | 0 <= k < |init|
          ensures p(init[k])
        {
          assert init[k] == xs[k];
        }
        FilterAll(init, p);
      }
      assert Filter(xs, p) == Filter(init, p) + [xs[n]] by {
        FilterPrefixStep(xs, n, p);
        assert xs[..n + 1] == xs;
      }
      LastSplit(xs);
    }
  }

  /** Nothing satisfies `p`: filtering yields nothing. */
  lemma {:induction false} FilterNone<T(!new)>(xs: seq<T>, p: T -> bool)
    requires forall k :: 0 <= k < |xs| ==> !p(xs[k])
    ensures Filter(xs, p) == []
    decreases |xs|
  {
    if xs != [] {
      var n := |xs| - 1;
      FilterNone(xs[..n], p);
      assert !p(xs[n]);
    }
  }

  /** One more element: it is kept exactly when it satisfies `p`. */
  lemma FilterSnoc<T(!new)>(xs: seq<T>, x: T, p: T -> bool)
    ensures Filter(xs + [x], p) == Filter(xs, p) + (if p(x) then [x] else [])
  {
    assert (xs + [x])[..|xs|] == xs;
  }

  /** The filter of a longer prefix: the next element is kept exactly when it satisfies `p`. */
  lemma FilterPrefixStep<T(!new)>(xs: seq<T>, i: int, p: T -> bool)
    requires 0 <= i < |xs|
    ensures Filter(xs[..i + 1], p) == Filter(xs[..i], p) + (if p(xs[i]) then [xs[i]] else [])
  {
    assert xs[..i + 1][..i] == xs[..i];
  }

  /**
   * One turn of a filtering loop: `kept` filters the first `i` elements, and
   * the next one, `x`, is appended exactly when `keep` says `p` holds of it.
   */
  lemma FilterLoopStep<T(!new)>(xs: seq<T>, i: int, p: T -> bool, x: T, keep: bool, kept: seq<T>)
    requires 0 <= i < |xs| && xs[i] == x && keep == p(x) && kept == Filter(xs[..i], p)
    ensures (if keep then kept + [x] else kept) == Filter(xs[..i + 1], p)
  {
    FilterPrefixStep(xs, i, p);
  }

  /** Filtering a concatenation filters each part. */
  lemma {:induction false} FilterConcat<T(!new)>(a: seq<T>, b: seq<T>, p: T -> bool)
    ensures Filter(a + b, p) == Filter(a, p) + Filter(b, p)
    decreases |b|
  {
    if b != [] {
      var n := |b| - 1;
      FilterConcat(a, b[..n], p);
      assert (a + b)[..|a + b| - 1] == a + b[..n];
    } else {
      assert a + b == a;
    }
  }

  /**
   * Appending regrouped. Stated over plain variables so that a caller can
   * regroup printed lines without the solver comparing their text.
   */
  lemma AppendAssociates<T>(a: seq<T>, b: seq<T>, c: seq<T>)
    ensures (a + b) + c == a + (b + c)
  {
  }

  /** Printing the next line of `xs` after its first `i` extends the printed prefix by one. */
  lemma PrintedStep<T>(o: seq<T>, xs: seq<T>, i: nat, x: T)
    requires i < |xs| && xs[i] == x
    ensures o + xs[..i] + [x] == o + xs[..i + 1]
  {
    assert xs[..i + 1] == xs[..i] + [x];
  }

  /** Overwriting the element just appended is appending the new one. */
  lemma UpdateLast<T>(xs: seq<T>, a: T, b: T)
    ensures (xs + [a])[|xs| := b] == xs + [b]
  {
  }

  lemma AppendFour<T>(o: seq<T>, a: seq<T>, b: seq<T>, c: seq<T>, d: seq<T>)
    ensures o + a + b + c + d == o + (a + b + c + d)
  {
  }

  /** A nonempty sequence is its front followed by its last element. */
  lemma LastSplit<T>(xs: seq<T>)
    requires xs != []
    ensures xs[..|xs| - 1] + [xs[|xs| - 1]] == xs
  {
  }

  /** The prefix as long as the sequence is the sequence. */
  lemma WholePrefix<T>(xs: seq<T>)
    ensures xs[..|xs|] == xs
  {
  }

  lemma AppendEmpty<T>(a: seq<T>)
    ensures a + [] == a
  {
  }

  /** Go's `time.Second`: a Duration counts nanoseconds. */
  const Second: int := 1_000_000_000
}
