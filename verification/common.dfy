/** Small shared vocabulary: optional values, error results, fetch outcomes,
    and the order-preserving filter that `Array.prototype.filter` performs. */
module Common {

  /** A value that may be absent (`null` in the storefront's state). */
  datatype Option<+T> = None | Some(value: T)

  /** Either a value or an error message (a thrown `Error`). */
  datatype Result<+T> = Ok(value: T) | Err(message: string)

  /** What a remote request hands back to the component that issued it:
      the parsed payload, or a rejection that the component only logs. */
  datatype Fetched<+T> = Loaded(data: T) | FetchFailed

  /** The elements of `xs` that satisfy `f`, in their original order. */
  function Keep<T>(f: T -> bool, xs: seq<T>): (r: seq<T>)
    ensures |r| <= |xs|
    ensures forall x :: x in r ==> x in xs && f(x)
  {
    if |xs| == 0 then []
    else (if f(xs[0]) then [xs[0]] else []) + Keep(f, xs[1..])
  }

  /** `a` can be obtained from `b` by deleting elements. */
  predicate SubsequenceOf<T(==)>(a: seq<T>, b: seq<T>)
    decreases |b|
  {
    if |a| == 0 then true
    else if |b| == 0 then false
    else (a[0] == b[0] && SubsequenceOf(a[1..], b[1..])) || SubsequenceOf(a, b[1..])
  }

  /** Filtering only deletes elements: the kept ones stay in their original order. */
  lemma {:induction false} KeepIsSubsequence<T>(f: T -> bool, xs: seq<T>)
    ensures SubsequenceOf(Keep(f, xs), xs)
  {
    if |xs| > 0 {
      KeepIsSubsequence(f, xs[1..]);
      var rest := Keep(f, xs[1..]);
      if f(xs[0]) {
        assert Keep(f, xs) == [xs[0]] + rest;
        assert ([xs[0]] + rest)[1..] == rest;
      } else {
        assert Keep(f, xs) == rest;
      }
    }
  }

  /** Every occurrence of an element that satisfies `f` is kept, and no other element is. */
  lemma {:induction false} KeepCounts<T>(f: T -> bool, xs: seq<T>, x: T)
    ensures multiset(Keep(f, xs))[x] == if f(x) then multiset(xs)[x] else 0
  {
    if |xs| > 0 {
      KeepCounts(f, xs[1..], x);
      assert xs == [xs[0]] + xs[1..];
    }
  }

  /** An element is kept exactly when it occurs in the input and satisfies `f`. */
  lemma KeepMembership<T>(f: T -> bool, xs: seq<T>, x: T)
    ensures x in Keep(f, xs) <==> x in xs && f(x)
  {
    KeepCounts(f, xs, x);
  }

  /** When every element satisfies `f`, filtering returns the input itself. */
  lemma {:induction false} KeepAll<T>(f: T -> bool, xs: seq<T>)
    requires forall i :: 0 <= i < |xs| ==> f(xs[i])
    ensures Keep(f, xs) == xs
  {
    if |xs| > 0 {
      KeepAll(f, xs[1..]);
      assert xs == [xs[0]] + xs[1..];
    }
  }

  /** Filters that agree on every element give the same result. */
  lemma {:induction false} KeepExtensional<T>(f: T -> bool, g: T -> bool, xs: seq<T>)
    requires forall x :: f(x) == g(x)
    ensures Keep(f, xs) == Keep(g, xs)
  {
    if |xs| > 0 {
      KeepExtensional(f, g, xs[1..]);
    }
  }

  /** Two filters in sequence are one filter by the conjunction of their predicates. */
  lemma {:induction false} KeepFuse<T>(f: T -> bool, g: T -> bool, h: T -> bool, xs: seq<T>)
    requires forall x :: h(x) == (f(x) && g(x))
    ensures Keep(g, Keep(f, xs)) == Keep(h, xs)
  {
    if |xs| > 0 {
      KeepFuse(f, g, h, xs[1..]);
      var rest := Keep(f, xs[1..]);
      if f(xs[0]) {
        assert Keep(f, xs) == [xs[0]] + rest;
        assert ([xs[0]] + rest)[1..] == rest;
      } else {
        assert Keep(f, xs) == rest;
      }
    }
  }

  /** Filtering twice by the same predicate is filtering once. */
  lemma KeepIdempotent<T>(f: T -> bool, xs: seq<T>)
    ensures Keep(f, Keep(f, xs)) == Keep(f, xs)
  {
    KeepFuse(f, f, f, xs);
  }
}
