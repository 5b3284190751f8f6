/**
 * The classification window of the frame-processing worker: the last three raw
 * labels (`clf_window = (clf_window + [label])[-3:]`) and the majority vote
 * over them (`Counter(clf_window).most_common(1)[0][0]`).
 *
 * `Counter` remembers keys in order of first insertion and `most_common(1)`
 * returns the first entry of greatest count, so among tied labels the one
 * whose first occurrence in the window is earliest wins.
 */
module Smoothing {

  const WindowSize: nat := 3

  /** The last `n` elements of `s` (all of `s` when it is shorter): `s[-n:]`. */
  function LastN<T>(s: seq<T>, n: nat): (r: seq<T>)
    ensures |r| == if |s| < n then |s| else n
    ensures forall i :: 0 <= i < |r| ==> r[i] == s[|s| - |r| + i]
  {
    if |s| <= n then s else s[|s| - n..]
  }

  /** Appending a raw label and keeping the newest three. */
  function Slide(window: seq<string>, raw: string): (r: seq<string>)
    ensures 0 < |r| <= WindowSize && r[|r| - 1] == raw
    ensures |window| < WindowSize ==> r == window + [raw]
    ensures |window| >= WindowSize ==> r == window[|window| - WindowSize + 1..] + [raw]
  {
    LastN(window + [raw], WindowSize)
  }

  /** Sliding a window over a run of labels, one at a time. */
  function SlideAll(window: seq<string>, labels: seq<string>): seq<string>
    decreases |labels|
  {
    if labels == [] then window
    else SlideAll(Slide(window, labels[0]), labels[1..])
  }

  /**
   * Whatever the labels, a window that started with at most three entries
   * holds the last (at most) three labels of everything seen, in arrival order.
   */
  lemma {:induction false} SlideAllKeepsNewest(window: seq<string>, labels: seq<string>)
    requires |window| <= WindowSize
    ensures SlideAll(window, labels) == LastN(window + labels, WindowSize)
    decreases |labels|
  {
    if labels != [] {
      var w' := Slide(window, labels[0]);
      SlideAllKeepsNewest(w', labels[1..]);
      assert window + labels == (window + [labels[0]]) + labels[1..];
      LastNOfLastN(window + [labels[0]], labels[1..]);
    }
  }

  /** Helper: dropping old elements first does not change the newest three. */
  lemma LastNOfLastN(s: seq<string>, t: seq<string>)
    ensures LastN(LastN(s, WindowSize) + t, WindowSize) == LastN(s + t, WindowSize)
  {
    if |s| > WindowSize {
      var u := s[|s| - WindowSize..];
      assert s + t == s[..|s| - WindowSize] + (u + t);
      var st := s + t;
      assert st[|st| - WindowSize..] == (u + t)[|u + t| - WindowSize..];
    }
  }

  /** How often `x` occurs in the window (`Counter(window)[x]`). */
  function Count(w: seq<string>, x: string): nat {
    multiset(w)[x]
  }

  /** Position of the first occurrence of `x`: where `Counter` placed it. */
  function FirstIndex(w: seq<string>, x: string): (i: nat)
    requires x in w
    ensures i < |w| && w[i] == x
    ensures forall j :: 0 <= j < i ==> w[j] != x
  {
    if w[0] == x then 0 else 1 + FirstIndex(w[1..], x)
  }

  /**
   * `Counter(w).most_common(1)[0][0]`: a label of greatest count, the earliest
   * first occurrence breaking ties.
   */
  function MostCommon(w: seq<string>): (r: string)
    requires |w| > 0
    ensures r in w
    ensures forall x :: x in w ==> Count(w, x) <= Count(w, r)
    ensures forall x :: x in w && Count(w, x) == Count(w, r) ==> FirstIndex(w, r) <= FirstIndex(w, x)
  {
    var r := Leader(w, 1, w[0]);
    forall x | x in w ensures Count(w, x) <= Count(w, r)
      && (Count(w, x) == Count(w, r) ==> FirstIndex(w, r) <= FirstIndex(w, x))
    {
      var j := FirstIndex(w, x);
      assert w[j] == x;
    }
    r
  }

  /**
   * Scan the window left to right, keeping the first label met with the
   * greatest count so far; a later label replaces it only with a strictly
   * greater count.
   */
  function Leader(w: seq<string>, i: nat, best: string): (r: string)
    requires 0 < i <= |w| && best in w[..i]
    requires forall j :: 0 <= j < i ==> Count(w, w[j]) <= Count(w, best)
    requires forall j :: 0 <= j < i && Count(w, w[j]) == Count(w, best) ==> FirstIndex(w, best) <= j
    ensures r in w
    ensures forall j :: 0 <= j < |w| ==> Count(w, w[j]) <= Count(w, r)
    ensures forall j :: 0 <= j < |w| && Count(w, w[j]) == Count(w, r) ==> FirstIndex(w, r) <= j
    decreases |w| - i
  {
    if i == |w| then best
    else
      var next := if Count(w, w[i]) > Count(w, best) then w[i] else best;
      assert next in w[..i + 1];
      Leader(w, i + 1, next)
  }

  /** Helper: two labels together occur no more often than the window is long. */
  lemma {:induction false} CountsOfTwo(w: seq<string>, x: string, y: string)
    requires x != y
    ensures Count(w, x) + Count(w, y) <= |w|
  {
    if w != [] {
      CountsOfTwo(w[1..], x, y);
      assert w == [w[0]] + w[1..];
      assert multiset(w) == multiset{w[0]} + multiset(w[1..]);
    }
  }

  /** In a window of at most three, a label seen twice is the vote. */
  lemma MajorityWins(w: seq<string>, x: string)
    requires 0 < |w| <= WindowSize && Count(w, x) >= 2
    ensures MostCommon(w) == x
  {
    var r := MostCommon(w);
    assert x in w;
    if r != x {
      CountsOfTwo(w, r, x);
    }
  }

  /** With no repeated label, the oldest label in the window wins: [A, B, C] gives A. */
  lemma NoMajorityOldestWins(a: string, b: string, c: string)
    requires a != b && b != c && a != c
    ensures MostCommon([a, b, c]) == a
  {
    var w := [a, b, c];
    assert Count(w, a) == 1 && Count(w, b) == 1 && Count(w, c) == 1;
    assert FirstIndex(w, a) == 0;
  }

  /** [A, A, B] gives A, and so does [B, A, A]. */
  lemma MajorityExamples(a: string, b: string)
    requires a != b
    ensures MostCommon([a, a, b]) == a && MostCommon([b, a, a]) == a
  {
    assert Count([a, a, b], a) == 2;
    MajorityWins([a, a, b], a);
    assert Count([b, a, a], a) == 2;
    MajorityWins([b, a, a], a);
  }
}
