/**
 * The few Python list operations the client relies on, with Python's
 * semantics: indexing that counts from the end for negative positions and
 * raises IndexError out of range, slicing from a start, list.index, the
 * filtering loop, and zip(*grid).
 */
module PySeq {
  import opened Sheets

  /** `s[i]` in Python; None stands for IndexError. */
  function At<T>(s: seq<T>, i: int): (r: Option<T>)
    ensures r.Some? <==> -|s| <= i < |s|
    ensures 0 <= i < |s| ==> r == Some(s[i])
    ensures -|s| <= i < 0 ==> r == Some(s[|s| + i])
  {
    if 0 <= i < |s| then Some(s[i])
    else if -|s| <= i < 0 then Some(s[|s| + i])
    else None
  }

  /** `s[i:]` in Python: never fails; a start past either end is clamped. */
  function SliceFrom<T>(s: seq<T>, i: int): (r: seq<T>)
    ensures |r| <= |s| && r == s[|s| - |r|..]
    ensures 0 <= i ==> |r| == if i < |s| then |s| - i else 0
    ensures i < 0 ==> |r| == if -i < |s| then -i else |s|
  {
    var start := if 0 <= i then (if i < |s| then i else |s|)
                 else (if 0 < |s| + i then |s| + i else 0);
    s[start..]
  }

  /** `s.index(x)` in Python: the first position holding x. */
  function IndexOf<T(==)>(s: seq<T>, x: T): (r: nat)
    requires x in s
    ensures r < |s| && s[r] == x
    ensures forall j :: 0 <= j < r ==> s[j] != x
  {
    if s[0] == x then 0 else 1 + IndexOf(s[1..], x)
  }

  /** The first position of a value is the only one with no earlier occurrence. */
  lemma IndexOfIsFirst<T>(s: seq<T>, i: nat)
    requires i < |s|
    requires forall j :: 0 <= j < i ==> s[j] != s[i]
    ensures IndexOf(s, s[i]) == i
  {
  }

  /** The elements of `s` that satisfy `p`, in their original order. */
  function Filter<T>(s: seq<T>, p: T -> bool): (r: seq<T>)
    ensures |r| <= |s| && multiset(r) <= multiset(s)
    ensures forall i :: 0 <= i < |r| ==> p(r[i])
  {
    if s == [] then []
    else
      assert s == [s[0]] + s[1..];
      (if p(s[0]) then [s[0]] else []) + Filter(s[1..], p)
  }

  /** Filtering drops nothing that satisfies `p`. */
  lemma {:induction false} FilterKeeps<T>(s: seq<T>, p: T -> bool, i: nat)
    requires i < |s| && p(s[i])
    ensures s[i] in Filter(s, p)
  {
    if i > 0 {
      FilterKeeps(s[1..], p, i - 1);
    }
  }

  /** Filtering distributes over concatenation, so it keeps the relative order of what it keeps. */
  lemma {:induction false} FilterAppend<T>(a: seq<T>, b: seq<T>, p: T -> bool)
    ensures Filter(a + b, p) == Filter(a, p) + Filter(b, p)
  {
    if a == [] {
      assert a + b == b;
    } else {
      assert (a + b)[1..] == a[1..] + b;
      FilterAppend(a[1..], b, p);
    }
  }

  /** Filtering keeps the whole sequence exactly when every element satisfies `p`. */
  lemma {:induction false} FilterAll<T>(s: seq<T>, p: T -> bool)
    ensures Filter(s, p) == s <==> forall i :: 0 <= i < |s| ==> p(s[i])
  {
    if s != [] {
      FilterAll(s[1..], p);
      if !p(s[0]) {
        assert |Filter(s, p)| < |s|;
      }
    }
  }

  /** The length of the shortest row. */
  function MinWidth<T>(g: seq<seq<T>>): (w: nat)
    requires g != []
    ensures forall r :: 0 <= r < |g| ==> w <= |g[r]|
    ensures exists r :: 0 <= r < |g| && |g[r]| == w
  {
    if |g| == 1 then |g[0]|
    else
      var rest := MinWidth(g[1..]);
      assert forall r :: 1 <= r < |g| ==> g[1..][r - 1] == g[r];
      if |g[0]| <= rest then |g[0]| else rest
  }

  /** Every row of `g` has exactly `w` cells. */
  predicate Rectangular<T>(g: seq<seq<T>>, w: nat) {
    forall r :: 0 <= r < |g| ==> |g[r]| == w
  }

  /** `list(map(list, zip(*g)))`: column c of the result is cell c of every row; zip stops at the shortest row. */
  function Transpose<T>(g: seq<seq<T>>): (t: seq<seq<T>>)
    ensures g == [] ==> t == []
    ensures g != [] ==> |t| == MinWidth(g)
    ensures forall c :: 0 <= c < |t| ==> |t[c]| == |g|
    ensures forall c, r :: 0 <= c < |t| && 0 <= r < |g| ==> c < |g[r]| && t[c][r] == g[r][c]
  {
    if g == [] then []
    else
      var w := MinWidth(g);
      seq(w, c requires 0 <= c < w => seq(|g|, r requires 0 <= r < |g| && c < w => g[r][c]))
  }

  /** Transposing a rectangular grid with at least one column twice gives the grid back. */
  lemma TransposeTwice<T>(g: seq<seq<T>>, w: nat)
    requires Rectangular(g, w) && 0 < w
    ensures Transpose(Transpose(g)) == g
  {
    var t := Transpose(g);
    if g != [] {
      var mw := MinWidth(g);
      assert mw == w;
      assert Rectangular(t, |g|);
      var tt := Transpose(t);
      assert |tt| == |g| by {
        assert MinWidth(t) == |g|;
      }
      forall r | 0 <= r < |g|
        ensures tt[r] == g[r]
      {
        assert |tt[r]| == w;
        forall c | 0 <= c < w ensures tt[r][c] == g[r][c] {
          assert tt[r][c] == t[c][r];
        }
      }
    }
  }
}
