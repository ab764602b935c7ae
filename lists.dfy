/** Generic list operations shared by the job sources: converting every
    element with a conversion that may fail (the whole list fails), and
    keeping the images of the elements that have one. */
module Lists {
  import opened Text

  /** The images of `xs` under `f`, one per element in order; `None` as soon
      as one element has none. */
  function CollectAll<A, B>(xs: seq<A>, f: A -> Option<B>): (r: Option<seq<B>>)
    ensures r.Some? ==> |r.value| == |xs|
  {
    if xs == [] then Some([])
    else
      match CollectAll(xs[..|xs| - 1], f)
      case None => None
      case Some(ys) =>
        match f(Last(xs))
        case None => None
        case Some(y) => Some(ys + [y])
  }

  /** The collection exists exactly when every element has an image, and its
      element `k` is the image of element `k`. */
  lemma {:induction false} CollectAllSpec<A, B>(xs: seq<A>, f: A -> Option<B>)
    ensures CollectAll(xs, f).Some? <==> forall k :: 0 <= k < |xs| ==> f(xs[k]).Some?
    ensures CollectAll(xs, f).Some? ==>
              forall k :: 0 <= k < |xs| ==> CollectAll(xs, f).value[k] == f(xs[k]).value
    decreases |xs|
  {
    if xs != [] {
      var init := xs[..|xs| - 1];
      CollectAllSpec(init, f);
      assert forall k :: 0 <= k < |init| ==> init[k] == xs[k];
    }
  }

  /** A prefix without a collection leaves the whole list without one. */
  lemma {:induction false} CollectAllPrefixFails<A, B>(xs: seq<A>, f: A -> Option<B>, n: nat)
    requires n <= |xs|
    requires CollectAll(xs[..n], f).None?
    ensures CollectAll(xs, f).None?
    decreases |xs| - n
  {
    if n < |xs| {
      assert xs[..n + 1][..n] == xs[..n];
      CollectAllPrefixFails(xs, f, n + 1);
    } else {
      assert xs[..n] == xs;
    }
  }

  /** The loop that converts each element in turn, stopping at the first one
      without an image. */
  method CollectEach<A, B>(xs: seq<A>, f: A -> Option<B>) returns (r: Option<seq<B>>)
    ensures r == CollectAll(xs, f)
  {
    var ys: seq<B> := [];
    var i := 0;
    while i < |xs|
      invariant 0 <= i <= |xs|
      invariant CollectAll(xs[..i], f) == Some(ys)
    {
      assert xs[..i + 1][..i] == xs[..i];
      var y := f(xs[i]);
      if y.None? {
        CollectAllPrefixFails(xs, f, i + 1);
        return None;
      }
      ys := ys + [y.value];
      i := i + 1;
    }
    assert xs[..|xs|] == xs;
    return Some(ys);
  }

  /** The image of `x` under `f` as a list: one element when there is one. */
  function Kept<A, B>(f: A -> Option<B>, x: A): (r: seq<B>)
    ensures |r| <= 1
  {
    match f(x)
    case Some(y) => [y]
    case None => []
  }

  /** The images under `f` of the elements that have one, in order. */
  function FilterMap<A, B>(xs: seq<A>, f: A -> Option<B>): (r: seq<B>)
    ensures |r| <= |xs|
  {
    if xs == [] then [] else FilterMap(xs[..|xs| - 1], f) + Kept(f, Last(xs))
  }

  /** Filtering distributes over concatenation: kept elements stay in order. */
  lemma {:induction false} FilterMapAppend<A, B>(a: seq<A>, b: seq<A>, f: A -> Option<B>)
    ensures FilterMap(a + b, f) == FilterMap(a, f) + FilterMap(b, f)
    decreases |b|
  {
    if b == [] {
      assert a + b == a;
    } else {
      var b' := b[..|b| - 1];
      var t := Kept(f, Last(b));
      assert (a + b)[..|a + b| - 1] == a + b';
      assert Last(a + b) == Last(b);
      assert FilterMap(a + b, f) == FilterMap(a + b', f) + t;
      FilterMapAppend(a, b', f);
      assert FilterMap(a, f) + FilterMap(b', f) + t == FilterMap(a, f) + (FilterMap(b', f) + t);
    }
  }

  /** One more element adds its image, if any, at the end. */
  lemma FilterMapStep<A, B>(xs: seq<A>, i: nat, f: A -> Option<B>)
    requires i < |xs|
    ensures FilterMap(xs[..i + 1], f) == FilterMap(xs[..i], f) + Kept(f, xs[i])
  {
    assert xs[..i + 1][..i] == xs[..i];
  }

  /** Every element of the output is the image of some element of the input. */
  lemma {:induction false} FilterMapOrigin<A, B>(xs: seq<A>, f: A -> Option<B>)
    ensures forall y :: y in FilterMap(xs, f) ==> exists k :: 0 <= k < |xs| && f(xs[k]) == Some(y)
    decreases |xs|
  {
    if xs != [] {
      var init := xs[..|xs| - 1];
      FilterMapOrigin(init, f);
      forall y | y in FilterMap(xs, f) ensures exists k :: 0 <= k < |xs| && f(xs[k]) == Some(y) {
        if y in FilterMap(init, f) {
          var k :| 0 <= k < |init| && f(init[k]) == Some(y);
          assert xs[k] == init[k];
        } else {
          assert f(xs[|xs| - 1]) == Some(y);
        }
      }
    }
  }

  /** When every element has an image, the output is the image of each
      element, in order. */
  lemma {:induction false} FilterMapAll<A, B>(xs: seq<A>, f: A -> Option<B>)
    requires forall k :: 0 <= k < |xs| ==> f(xs[k]).Some?
    ensures |FilterMap(xs, f)| == |xs|
    ensures forall k :: 0 <= k < |xs| ==> FilterMap(xs, f)[k] == f(xs[k]).value
    decreases |xs|
  {
    if xs != [] {
      var init := xs[..|xs| - 1];
      assert forall k :: 0 <= k < |init| ==> init[k] == xs[k];
      FilterMapAll(init, f);
    }
  }

  /** Two conversions defined on the same elements keep the same number of
      them. */
  lemma {:induction false} FilterMapSameLength<A, B, C>(xs: seq<A>, f: A -> Option<B>, g: A -> Option<C>)
    requires forall x :: f(x).Some? <==> g(x).Some?
    ensures |FilterMap(xs, f)| == |FilterMap(xs, g)|
    decreases |xs|
  {
    if xs != [] {
      FilterMapSameLength(xs[..|xs| - 1], f, g);
    }
  }

  /** The images of the first `i` elements grow by the image of the next
      element when it has one. */
  lemma FilterMapGrow<A, B>(acc: seq<B>, xs: seq<A>, i: nat, f: A -> Option<B>, y: B)
    requires i < |xs| && acc == FilterMap(xs[..i], f) && f(xs[i]) == Some(y)
    ensures acc + [y] == FilterMap(xs[..i + 1], f)
  {
    FilterMapStep(xs, i, f);
  }

  /** ... and stay as they are when the next element has none. */
  lemma FilterMapSkip<A, B>(acc: seq<B>, xs: seq<A>, i: nat, f: A -> Option<B>)
    requires i < |xs| && acc == FilterMap(xs[..i], f) && f(xs[i]).None?
    ensures acc == FilterMap(xs[..i + 1], f)
  {
    FilterMapStep(xs, i, f);
    assert acc + [] == acc;
  }

  /** The loop that converts each element in turn, skipping those without an
      image. */
  method FilterEach<A, B>(xs: seq<A>, f: A -> Option<B>) returns (r: seq<B>)
    ensures r == FilterMap(xs, f)
  {
    r := [];
    var i := 0;
    while i < |xs|
      invariant 0 <= i <= |xs|
      invariant r == FilterMap(xs[..i], f)
    {
      var y := f(xs[i]);
      if y.Some? {
        FilterMapGrow(r, xs, i, f, y.value);
        r := r + [y.value];
      } else {
        FilterMapSkip(r, xs, i, f);
      }
      i := i + 1;
    }
    assert xs[..|xs|] == xs;
  }
}
