/**
 * Pose labels and the handful of Python string operations the tracker applies
 * to them: `split('-')[0]`, `startswith`, `endswith` and `replace`.
 * A label has the shape "<exercise>-<phase>", e.g. "squats-end" or "planks-planks";
 * "random-random" stands for "no exercise recognised".
 */
module Labels {

  const RandomExercise: string := "random"
  const RandomLabel: string := "random-random"

  /** `s.startswith(p)` */
  predicate StartsWith(s: string, p: string) {
    |p| <= |s| && s[..|p|] == p
  }

  /** `s.endswith(p)` */
  predicate EndsWith(s: string, p: string) {
    |p| <= |s| && s[|s| - |p|..] == p
  }

  /** Helper: a string does not start with a prefix whose first character it lacks. */
  lemma FirstCharDiffers(s: string, p: string)
    requires |s| > 0 && |p| > 0 && s[0] != p[0]
    ensures !StartsWith(s, p)
  {
    if |p| <= |s| {
      assert s[..|p|][0] == s[0];
    }
  }

  /** `p` occurs in `s` starting at position `i` */
  predicate OccursAt(s: string, p: string, i: int) {
    0 <= i && i + |p| <= |s| && s[i..i + |p|] == p
  }

  /** `p in s` */
  ghost predicate Contains(s: string, p: string) {
    exists i :: OccursAt(s, p, i)
  }

  /** `s.split('-')[0]`: the exercise part of a label. */
  function Exercise(s: string): (r: string)
    ensures StartsWith(s, r)
    ensures '-' !in r
    ensures |r| < |s| ==> s[|r|] == '-'
  {
    s[..DashFrom(s, 0)]
  }

  /** The index of the first '-' of `s` at or after `i`, or `|s|` when there is none. */
  function DashFrom(s: string, i: nat): (j: nat)
    requires i <= |s|
    ensures i <= j <= |s| && (j < |s| ==> s[j] == '-')
    ensures forall k :: i <= k < j ==> s[k] != '-'
    decreases |s| - i
  {
    if i == |s| || s[i] == '-' then i else DashFrom(s, i + 1)
  }

  /** The exercise of "<name>-..." is `name` when `name` has no '-'. */
  lemma ExerciseOfPrefix(name: string, s: string)
    requires '-' !in name && |name| < |s| && s[..|name|] == name && s[|name|] == '-'
    ensures Exercise(s) == name
  {
    var j := DashFrom(s, 0);
    assert forall k :: 0 <= k < |name| ==> s[k] == name[k];
  }

  /** `s.replace(pat, repl)`: every non-overlapping occurrence, scanning left to right. */
  function Replace(s: string, pat: string, repl: string): string
    requires |pat| > 0
    decreases |s|
  {
    if |s| < |pat| then s
    else if s[..|pat|] == pat then repl + Replace(s[|pat|..], pat, repl)
    else [s[0]] + Replace(s[1..], pat, repl)
  }

  /** Helper: an occurrence in the tail of `s` is an occurrence in `s`. */
  lemma ContainsTail(s: string, p: string)
    requires |s| > 0
    ensures Contains(s[1..], p) ==> Contains(s, p)
  {
    if Contains(s[1..], p) {
      var i :| OccursAt(s[1..], p, i);
      assert s[1..][i..i + |p|] == s[i + 1..i + 1 + |p|];
      assert OccursAt(s, p, i + 1);
    }
  }

  /** A string in which `pat` does not occur is left as it is by `replace`. */
  lemma {:induction false} ReplaceAbsent(s: string, pat: string, repl: string)
    requires |pat| > 0 && !Contains(s, pat)
    ensures Replace(s, pat, repl) == s
    decreases |s|
  {
    if |s| >= |pat| {
      assert !OccursAt(s, pat, 0);
      ContainsTail(s, pat);
      ReplaceAbsent(s[1..], pat, repl);
    }
  }

  /**
   * The start label an end label is paired with: when the exercise name does
   * not itself contain "end", `(ex + "-end").replace('end', 'start')` is
   * `ex + "-start"`.
   */
  lemma {:induction false} EndPairsWithStart(ex: string)
    requires !Contains(ex, "end")
    ensures Replace(ex + "-end", "end", "start") == ex + "-start"
    decreases |ex|
  {
    var s := ex + "-end";
    if ex == [] {
      assert s == "-end" && s[..3] != "end" && s[1..] == "end";
      assert Replace("end", "end", "start") == "start" + Replace("", "end", "start");
    } else {
      assert s[..3] != "end" by {
        if |ex| >= 3 {
          assert ex[0..0 + 3] == s[..3];
          assert !OccursAt(ex, "end", 0);
        } else {
          assert s[..3][|ex|] == '-';
        }
      }
      ContainsTail(ex, "end");
      assert s[1..] == ex[1..] + "-end";
      EndPairsWithStart(ex[1..]);
    }
  }

  /** None of the exercise names the classifier is trained on contains "end". */
  lemma TrainedExercisesHaveNoEnd()
    ensures !Contains("jumping_jacks", "end") && !Contains("crunches", "end")
    ensures !Contains("lunges", "end") && !Contains("squats", "end")
  {
    NoEndIn("jumping_jacks");
    NoEndIn("crunches");
    NoEndIn("lunges");
    NoEndIn("squats");
  }

  /** Helper: a string without 'd' cannot contain "end". */
  lemma NoEndIn(s: string)
    requires 'd' !in s
    ensures !Contains(s, "end")
  {
    forall i | 0 <= i <= |s| - 3 ensures !OccursAt(s, "end", i) {
      assert s[i..i + 3][2] == s[i + 2];
    }
  }
}
