/** The shape every rule's `analyze` shares: walk the slides in order, collect
    each slide's findings, and stop at the first slide whose reading raises;
    inside a slide, concatenate what each shape or run contributes. */
module Scan {
  import opened Results
  import opened Document

  /** The value of an optional finding as a list of zero or one findings. */
  function OptionToSeq<T>(o: Option<T>): (s: seq<T>)
    ensures |s| <= 1
    ensures |s| == 1 <==> o.Some?
    ensures o.Some? ==> s[0] == o.value
  {
    if o.Some? then [o.value] else []
  }

  /** What `f` contributes for each element of `xs`, concatenated in order. */
  function FlatMap<X, Y>(xs: seq<X>, f: X -> seq<Y>): seq<Y> {
    if |xs| == 0 then [] else FlatMap(xs[..|xs| - 1], f) + f(xs[|xs| - 1])
  }

  /** Processing one more element appends its contribution. */
  lemma {:induction false} FlatMapStep<X, Y>(xs: seq<X>, k: nat, f: X -> seq<Y>)
    requires k < |xs|
    ensures FlatMap(xs[..k + 1], f) == FlatMap(xs[..k], f) + f(xs[k])
  {
    assert xs[..k + 1][..k] == xs[..k];
  }

  /** Concatenating the inputs concatenates the contributions. */
  lemma {:induction false} FlatMapAppend<X, Y>(xs: seq<X>, ys: seq<X>, f: X -> seq<Y>)
    ensures FlatMap(xs + ys, f) == FlatMap(xs, f) + FlatMap(ys, f)
    decreases |ys|
  {
    if |ys| == 0 {
      assert xs + ys == xs;
    } else {
      var init := ys[..|ys| - 1];
      assert (xs + ys)[..|xs + ys| - 1] == xs + init;
      FlatMapAppend(xs, init, f);
    }
  }

  /** When every item of every contribution satisfies `p`, so does every item
      of the whole. */
  lemma {:induction false} FlatMapAll<X, Y>(xs: seq<X>, f: X -> seq<Y>, p: Y -> bool)
    requires forall x :: x in xs ==> forall y :: y in f(x) ==> p(y)
    ensures forall y :: y in FlatMap(xs, f) ==> p(y)
  {
    if |xs| > 0 {
      var init := xs[..|xs| - 1];
      assert forall x :: x in init ==> x in xs;
      FlatMapAll(init, f, p);
      assert xs[|xs| - 1] in xs;
    }
  }

  /** The findings of the first `n` slides: `perSlide` gives those of one slide
      (with its 0-based index) or the error its reading raised; the first error
      ends the walk. */
  function ScanSlides<T>(slides: seq<Slide>, perSlide: (Slide, nat) -> Result<seq<T>>, n: nat): Result<seq<T>>
    requires n <= |slides|
  {
    if n == 0 then Ok([])
    else
      match ScanSlides(slides, perSlide, n - 1)
      case Error(e) => Error(e)
      case Ok(earlier) =>
        match perSlide(slides[n - 1], n - 1)
        case Error(e) => Error(e)
        case Ok(here) => Ok(earlier + here)
  }

  /** Once a slide has raised, later slides change nothing. */
  lemma {:induction false} ErrorPersists<T>(slides: seq<Slide>, perSlide: (Slide, nat) -> Result<seq<T>>, n: nat, m: nat)
    requires n <= m <= |slides|
    requires ScanSlides(slides, perSlide, n).Error?
    ensures ScanSlides(slides, perSlide, m) == ScanSlides(slides, perSlide, n)
    decreases m - n
  {
    if n < m {
      ErrorPersists(slides, perSlide, n, m - 1);
    }
  }

  /** The walk raises exactly when one of the slides raises, and then with the
      error of the first such slide. */
  lemma {:induction false} ScanFails<T>(slides: seq<Slide>, perSlide: (Slide, nat) -> Result<seq<T>>, n: nat)
    requires n <= |slides|
    ensures ScanSlides(slides, perSlide, n).Error? <==> exists i :: 0 <= i < n && perSlide(slides[i], i).Error?
    ensures ScanSlides(slides, perSlide, n).Error? ==>
              exists i :: 0 <= i < n && perSlide(slides[i], i) == ScanSlides(slides, perSlide, n)
                          && forall j :: 0 <= j < i ==> perSlide(slides[j], j).Ok?
  {
    if n > 0 {
      ScanFails(slides, perSlide, n - 1);
    }
  }

  /** When no slide raises, the walk's result is the concatenation of every
      slide's findings. */
  lemma {:induction false} ScanSucceeds<T>(slides: seq<Slide>, perSlide: (Slide, nat) -> Result<seq<T>>, n: nat)
    requires n <= |slides|
    requires forall i :: 0 <= i < n ==> perSlide(slides[i], i).Ok?
    ensures ScanSlides(slides, perSlide, n).Ok?
    ensures n > 0 ==> ScanSlides(slides, perSlide, n).value
                        == ScanSlides(slides, perSlide, n - 1).value + perSlide(slides[n - 1], n - 1).value
  {
    if n > 0 {
      ScanSucceeds(slides, perSlide, n - 1);
    }
  }

  /** When each slide's findings all carry that slide's number (its index + 1)
      and satisfy `p`, so do the findings of the walk, which are then ordered
      by slide number. */
  lemma {:induction false} ScanOrdered<T>(slides: seq<Slide>, perSlide: (Slide, nat) -> Result<seq<T>>, n: nat,
                                          key: T -> int, p: T -> bool)
    requires n <= |slides|
    requires ScanSlides(slides, perSlide, n).Ok?
    requires forall i :: 0 <= i < n && perSlide(slides[i], i).Ok? ==>
               forall y :: y in perSlide(slides[i], i).value ==> p(y) && key(y) == i + 1
    ensures var fs := ScanSlides(slides, perSlide, n).value;
      && (forall y :: y in fs ==> p(y) && 1 <= key(y) <= n)
      && (forall i, j :: 0 <= i < j < |fs| ==> key(fs[i]) <= key(fs[j]))
  {
    if n > 0 {
      ScanOrdered(slides, perSlide, n - 1, key, p);
      var earlier := ScanSlides(slides, perSlide, n - 1).value;
      var here := perSlide(slides[n - 1], n - 1).value;
      var fs := earlier + here;
      assert ScanSlides(slides, perSlide, n).value == fs;
      forall i, j | 0 <= i < j < |fs|
        ensures key(fs[i]) <= key(fs[j])
      {
        if j < |earlier| {
        } else if i < |earlier| {
          assert fs[i] in earlier && fs[j] in here;
        } else {
          assert fs[i] in here && fs[j] in here;
        }
      }
    }
  }

  /** When no slide gives more than `bound` findings, the walk gives at most
      `bound` per slide. */
  lemma {:induction false} ScanBound<T>(slides: seq<Slide>, perSlide: (Slide, nat) -> Result<seq<T>>, n: nat, bound: nat)
    requires n <= |slides|
    requires ScanSlides(slides, perSlide, n).Ok?
    requires forall i :: 0 <= i < n && perSlide(slides[i], i).Ok? ==> |perSlide(slides[i], i).value| <= bound
    ensures |ScanSlides(slides, perSlide, n).value| <= bound * n
  {
    if n > 0 {
      ScanBound(slides, perSlide, n - 1, bound);
    }
  }
}
