/** The JavaScript array built-ins the components rely on: `slice` and `filter`. */
module JsArray {

  function Min(a: int, b: int): int {
    if a <= b then a else b
  }

  function Max(a: int, b: int): int {
    if a <= b then b else a
  }

  /**
   * `s.slice(start, end)` for non-negative bounds: the elements from `start` up to,
   * not including, `end`, with both bounds clipped to the length of `s`.
   */
  function Slice<T>(s: seq<T>, start: nat, end: nat): (r: seq<T>)
    ensures |r| == Max(0, Min(end, |s|) - start)
    ensures forall k :: 0 <= k < |r| ==> r[k] == s[start + k]
  {
    if start < end && start < |s| then s[start..Min(end, |s|)] else []
  }

  /** `s.slice(0, n)` is the prefix of `s` of length `min(n, |s|)`. */
  lemma SlicePrefix<T>(s: seq<T>, n: nat)
    ensures Slice(s, 0, n) == s[..Min(n, |s|)]
  {
  }

  /** `s.filter(keep)`: the elements of `s` that satisfy `keep`, in their original order. */
  function Filter<T>(s: seq<T>, keep: T -> bool): (r: seq<T>)
    ensures |r| <= |s|
    ensures forall x :: x in r ==> x in s && keep(x)
    ensures forall x :: x in s && keep(x) ==> x in r
    decreases |s|
  {
    if s == [] then []
    else (if keep(s[0]) then [s[0]] else []) + Filter(s[1..], keep)
  }

  /** Filtering distributes over concatenation, so the kept elements keep their relative order. */
  lemma {:induction false} FilterAppend<T>(a: seq<T>, b: seq<T>, keep: T -> bool)
    ensures Filter(a + b, keep) == Filter(a, keep) + Filter(b, keep)
    decreases |a|
  {
    if a == [] {
      assert a + b == b;
    } else {
      assert (a + b)[1..] == a[1..] + b;
      FilterAppend(a[1..], b, keep);
    }
  }

  /** Filtering with a test every element passes changes nothing. */
  lemma {:induction false} FilterKeepsAll<T>(s: seq<T>, keep: T -> bool)
    requires forall x :: x in s ==> keep(x)
    ensures Filter(s, keep) == s
    decreases |s|
  {
    if s != [] {
      FilterKeepsAll(s[1..], keep);
    }
  }

  /** Two complementary filters share out the elements between them. */
  lemma {:induction false} FilterComplement<T>(s: seq<T>, f: T -> bool, g: T -> bool)
    requires forall x :: x in s ==> (f(x) <==> !g(x))
    ensures |Filter(s, f)| + |Filter(s, g)| == |s|
    decreases |s|
  {
    if s != [] {
      FilterComplement(s[1..], f, g);
    }
  }

  /** Three filters of which every element passes exactly one share out the elements. */
  lemma {:induction false} FilterPartition3<T>(s: seq<T>, f: T -> bool, g: T -> bool, h: T -> bool)
    requires forall x :: x in s ==> (f(x) && !g(x) && !h(x)) || (!f(x) && g(x) && !h(x)) || (!f(x) && !g(x) && h(x))
    ensures |Filter(s, f)| + |Filter(s, g)| + |Filter(s, h)| == |s|
    decreases |s|
  {
    if s != [] {
      FilterPartition3(s[1..], f, g, h);
    }
  }
}
