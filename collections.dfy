/** The two array/collection queries the handlers use: `find` and `filter`. */
module Collections {
  import opened Wrappers

  /** `find(p)`: an element satisfying `p`, or nothing when none does (FindFirst: it is the first one). */
  function Find<T>(s: seq<T>, p: T -> bool): (r: Option<T>)
    ensures r.None? <==> forall i :: 0 <= i < |s| ==> !p(s[i])
    ensures r.Some? ==> r.value in s && p(r.value)
  {
    if s == [] then None
    else if p(s[0]) then Some(s[0])
    else Find(s[1..], p)
  }

  /** `find` returns the first element satisfying `p`: every element before it fails `p`. */
  lemma {:induction false} FindFirst<T>(s: seq<T>, p: T -> bool) returns (i: nat)
    requires Find(s, p).Some?
    ensures i < |s| && s[i] == Find(s, p).value
    ensures forall j :: 0 <= j < i ==> !p(s[j])
  {
    if p(s[0]) {
      i := 0;
    } else {
      var i' := FindFirst(s[1..], p);
      i := i' + 1;
      forall j | 0 <= j < i ensures !p(s[j]) {
        if j > 0 { assert s[j] == s[1..][j - 1]; }
      }
    }
  }

  /** `filter(p)`: the elements satisfying `p`, in their original order. */
  function Filter<T(!new)>(s: seq<T>, p: T -> bool): (r: seq<T>)
    ensures |r| <= |s|
    ensures forall x :: x in r <==> x in s && p(x)
  {
    if s == [] then []
    else
      assert s == [s[0]] + s[1..];
      Keep(s[0], p) + Filter(s[1..], p)
  }

  /** Filtering keeps every element satisfying `p` as often as it occurs, and drops every other. */
  lemma {:induction false} FilterCount<T(!new)>(s: seq<T>, p: T -> bool)
    ensures forall x :: multiset(Filter(s, p))[x] == if p(x) then multiset(s)[x] else 0
  {
    if s != [] {
      FilterCount(s[1..], p);
      assert s == [s[0]] + s[1..];
    }
  }

  /** `[x]` when `x` satisfies `p`, otherwise `[]`. */
  function Keep<T>(x: T, p: T -> bool): seq<T> {
    if p(x) then [x] else []
  }

  /** Filtering distributes over concatenation, so it keeps relative order. */
  lemma {:induction false} FilterAppend<T(!new)>(a: seq<T>, b: seq<T>, p: T -> bool)
    ensures Filter(a + b, p) == Filter(a, p) + Filter(b, p)
  {
    if a == [] {
      assert a + b == b;
    } else {
      assert (a + b)[0] == a[0];
      assert (a + b)[1..] == a[1..] + b;
      FilterAppend(a[1..], b, p);
      calc {
        Filter(a + b, p);
        Keep(a[0], p) + Filter(a[1..] + b, p);
        Keep(a[0], p) + (Filter(a[1..], p) + Filter(b, p));
        (Keep(a[0], p) + Filter(a[1..], p)) + Filter(b, p);
      }
    }
  }

  /** Apply `f` to each element and keep the results that are present, in order. */
  function FilterMap<A, B>(s: seq<A>, f: A -> Option<B>): (r: seq<B>)
    ensures |r| <= |s|
  {
    if s == [] then [] else ToSeq(f(s[0])) + FilterMap(s[1..], f)
  }

  /** The value of `o` as a sequence of at most one element. */
  function ToSeq<B>(o: Option<B>): seq<B> {
    if o.Some? then [o.value] else []
  }

  lemma {:induction false} FilterMapAppend<A, B>(a: seq<A>, b: seq<A>, f: A -> Option<B>)
    ensures FilterMap(a + b, f) == FilterMap(a, f) + FilterMap(b, f)
  {
    if a == [] {
      assert a + b == b;
    } else {
      assert (a + b)[0] == a[0];
      assert (a + b)[1..] == a[1..] + b;
      FilterMapAppend(a[1..], b, f);
      calc {
        FilterMap(a + b, f);
        ToSeq(f(a[0])) + FilterMap(a[1..] + b, f);
        ToSeq(f(a[0])) + (FilterMap(a[1..], f) + FilterMap(b, f));
        (ToSeq(f(a[0])) + FilterMap(a[1..], f)) + FilterMap(b, f);
      }
    }
  }

  /**
   * The k-th result comes from the idx[k]-th element, and the indices
   * strictly increase: results keep the order of the elements they come from.
   */
  lemma {:induction false} FilterMapInOrder<A, B>(s: seq<A>, f: A -> Option<B>) returns (idx: seq<nat>)
    ensures |idx| == |FilterMap(s, f)|
    ensures forall k :: 0 <= k < |idx| ==> idx[k] < |s| && f(s[idx[k]]) == Some(FilterMap(s, f)[k])
    ensures forall k, l :: 0 <= k < l < |idx| ==> idx[k] < idx[l]
  {
    if s == [] {
      idx := [];
    } else {
      var rest := FilterMapInOrder(s[1..], f);
      var tail := FilterMap(s[1..], f);
      var head := ToSeq(f(s[0]));
      var r := FilterMap(s, f);
      assert r == head + tail;
      var shifted := seq(|rest|, k requires 0 <= k < |rest| => rest[k] + 1);
      idx := (if head == [] then [] else [0]) + shifted;
      forall k | 0 <= k < |idx|
        ensures idx[k] < |s| && f(s[idx[k]]) == Some(r[k])
      {
        var off := |head|;
        if k >= off {
          assert idx[k] == rest[k - off] + 1;
          assert s[idx[k]] == s[1..][rest[k - off]];
          assert r[k] == tail[k - off];
        }
      }
    }
  }

  /** Every element whose image is present contributes that image. */
  lemma {:induction false} FilterMapComplete<A, B>(s: seq<A>, f: A -> Option<B>, i: nat)
    requires i < |s| && f(s[i]).Some?
    ensures f(s[i]).value in FilterMap(s, f)
  {
    if i > 0 {
      assert s[1..][i - 1] == s[i];
      FilterMapComplete(s[1..], f, i - 1);
    }
  }
}
