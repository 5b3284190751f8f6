/**
 * The web front end's two pieces of logic: the final report shown once the
 * user stops the session, built from the last event the engine put, and the
 * throttle that hands the engine at most one camera frame every 200 ms.
 *
 * Streamlit, the camera and the HTML templates are not modelled: the report is
 * the list of (title, value) lines the page shows, and the clock readings of
 * the capture loop are a parameter.
 */
module Report {

  import opened Wrappers
  import opened Labels
  import opened Dicts
  import opened Engine

  // ---------------------------------------------------------------- titles

  /** An ASCII letter, the only characters Python's `str.title` treats as cased here. */
  predicate IsLetter(c: char) {
    'a' <= c <= 'z' || 'A' <= c <= 'Z'
  }

  function Upper(c: char): (r: char)
    ensures IsLetter(r) == IsLetter(c) && !('a' <= r <= 'z')
  {
    if 'a' <= c <= 'z' then (c as int - 32) as char else c
  }

  function Lower(c: char): (r: char)
    ensures IsLetter(r) == IsLetter(c) && !('A' <= r <= 'Z')
  {
    if 'A' <= c <= 'Z' then (c as int + 32) as char else c
  }

  /**
   * `str.title`: a letter is upper-cased when it starts a word (it is first,
   * or follows a non-letter) and lower-cased otherwise; other characters are
   * kept.
   */
  function Title(s: string): (r: string)
    ensures |r| == |s|
    ensures forall i :: 0 <= i < |s| ==> IsLetter(r[i]) == IsLetter(s[i])
    ensures forall i :: 0 <= i < |s| && (i == 0 || !IsLetter(s[i - 1])) ==> r[i] == Upper(s[i])
    ensures forall i :: 0 < i < |s| && IsLetter(s[i - 1]) ==> r[i] == Lower(s[i])
  {
    TitleAfter(s, false)
  }

  /** `Title` of `s` when the character before `s` was a letter (`inWord`) or not. */
  function TitleAfter(s: string, inWord: bool): (r: string)
    ensures |r| == |s|
    ensures forall i :: 0 <= i < |s| ==> IsLetter(r[i]) == IsLetter(s[i])
    ensures |s| > 0 ==> r[0] == if inWord then Lower(s[0]) else Upper(s[0])
    ensures forall i :: 0 < i < |s| ==> r[i] == if IsLetter(s[i - 1]) then Lower(s[i]) else Upper(s[i])
    decreases |s|
  {
    if s == [] then []
    else [if inWord then Lower(s[0]) else Upper(s[0])] + TitleAfter(s[1..], IsLetter(s[0]))
  }

  /** Titling a title changes nothing. */
  lemma TitleIdempotent(s: string)
    ensures Title(Title(s)) == Title(s)
  {
    var r := Title(s);
    var rr := Title(r);
    forall i | 0 <= i < |s|
      ensures rr[i] == r[i]
    {
      if i == 0 || !IsLetter(s[i - 1]) {
        assert rr[i] == Upper(r[i]);
      } else {
        assert rr[i] == Lower(r[i]);
      }
    }
  }

  /** `s.replace(a, b)` for single characters: every `a` becomes `b`, nothing else moves. */
  lemma {:induction false} ReplaceChar(s: string, a: char, b: char)
    ensures |Replace(s, [a], [b])| == |s|
    ensures forall i :: 0 <= i < |s| ==> Replace(s, [a], [b])[i] == if s[i] == a then b else s[i]
    decreases |s|
  {
    if |s| >= 1 {
      ReplaceChar(s[1..], a, b);
      assert s[..1] == [a] <==> s[0] == a;
      assert s[1..] == s[|[a]|..];
    }
  }

  /** The caption of a dictionary key: underscores become spaces, then the title. */
  function Caption(key: string): string {
    Title(Replace(key, "_", " "))
  }

  /**
   * A caption is as long as its key, shows a space for each underscore, and
   * capitalises the first letter of each underscore-separated word.
   */
  lemma CaptionShape(key: string)
    ensures |Caption(key)| == |key|
    ensures forall i :: 0 <= i < |key| && key[i] == '_' ==> Caption(key)[i] == ' '
    ensures forall i :: 0 <= i < |key| && IsLetter(key[i]) && (i == 0 || key[i - 1] == '_') ==> Caption(key)[i] == Upper(key[i])
  {
    ReplaceChar(key, '_', ' ');
    var spaced := Replace(key, "_", " ");
    assert spaced == Replace(key, ['_'], [' ']);
    var r := Title(spaced);
    assert Caption(key) == r;
    forall i | 0 <= i < |key| && key[i] == '_'
      ensures r[i] == ' '
    {
      assert spaced[i] == ' ';
      if i == 0 || !IsLetter(spaced[i - 1]) {
        assert r[i] == Upper(' ');
      } else {
        assert r[i] == Lower(' ');
      }
    }
    forall i | 0 <= i < |key| && IsLetter(key[i]) && (i == 0 || key[i - 1] == '_')
      ensures Caption(key)[i] == Upper(key[i])
    {
      assert spaced[i] == key[i];
      assert i > 0 ==> spaced[i - 1] == ' ';
      assert i == 0 || !IsLetter(spaced[i - 1]);
      assert r[i] == Upper(spaced[i]);
      assert Caption(key)[i] == Upper(key[i]);
    }
    assert forall i :: 0 <= i < |key| && IsLetter(key[i]) && i == 0 ==> Caption(key)[i] == Upper(key[i]);
    assert forall i :: 0 < i < |key| && IsLetter(key[i]) && key[i - 1] == '_' ==> Caption(key)[i] == Upper(key[i]);
  }

  // ---------------------------------------------------------------- intensity

  /** Python's `round(x, 1)` on the exact ratio `num / den`, as a count of tenths: halves go to the even neighbour. */
  function RoundTenths(num: nat, den: nat): (tenths: nat)
    requires den > 0
  {
    var q, rem := (10 * num) / den, (10 * num) % den;
    if 2 * rem < den then q
    else if 2 * rem > den then q + 1
    else if q % 2 == 0 then q
    else q + 1
  }

  /**
   * The rounded value lies within half a tenth of the exact ratio:
   * |tenths / 10 - num / den| <= 1 / 20, stated without division.
   */
  lemma RoundingError(num: nat, den: nat)
    requires den > 0
    ensures var t := RoundTenths(num, den);
      20 * num <= 2 * (t * den) + den && 2 * (t * den) <= 20 * num + den
  {
    var q, rem := (10 * num) / den, (10 * num) % den;
    assert 10 * num == q * den + rem;
    assert (q + 1) * den == q * den + den;
  }

  /** A ratio of at most one rounds to at most ten tenths, and the whole ratio rounds to exactly ten. */
  lemma RoundingBounds(num: nat, den: nat)
    requires 0 < den && num <= den
    ensures RoundTenths(num, den) <= 10
    ensures num == den ==> RoundTenths(num, den) == 10
    ensures num == 0 ==> RoundTenths(num, den) == 0
  {
    var t := RoundTenths(num, den);
    RoundingError(num, den);
    if t >= 11 {
      ScaleMonotone(11, t, den);
    }
    if num == den && t <= 9 {
      ScaleMonotone(t, 9, den);
    }
    if num == 0 && t >= 1 {
      ScaleMonotone(1, t, den);
    }
  }

  /** Helper: scaling by a natural number keeps the order. */
  lemma ScaleMonotone(a: nat, b: nat, c: nat)
    requires a <= b
    ensures a * c <= b * c
  {
    assert b * c == a * c + (b - a) * c;
  }

  /**
   * Exercise intensity: the share of exercise poses among all poses counted,
   * random included, rounded to one decimal, in tenths; an empty count
   * divides by zero.
   */
  function Intensity(poseCounts: Dict<nat>): (r: Result<nat>)
  {
    var ex := TotalExcept(poseCounts, RandomExercise);
    var non := Get(poseCounts, RandomExercise, 0);
    if ex + non == 0 then Err("division by zero") else Ok(RoundTenths(ex, ex + non))
  }

  /**
   * The intensity is at most one (ten tenths); it is one when no random pose
   * was counted and some exercise pose was, and zero when only random poses
   * were counted; it fails exactly when no pose at all was counted.
   */
  lemma IntensityFacts(poseCounts: Dict<nat>)
    requires Keyed(poseCounts)
    ensures Intensity(poseCounts).Err? <==> Total(poseCounts) == 0
    ensures Intensity(poseCounts).Ok? ==> Intensity(poseCounts).value <= 10
    ensures Get(poseCounts, RandomExercise, 0) == 0 && Total(poseCounts) > 0 ==> Intensity(poseCounts) == Ok(10)
    ensures Get(poseCounts, RandomExercise, 0) > 0 && Total(poseCounts) == Get(poseCounts, RandomExercise, 0) ==>
      Intensity(poseCounts) == Ok(0)
  {
    TotalSplit(poseCounts, RandomExercise);
    var ex := TotalExcept(poseCounts, RandomExercise);
    var non := Get(poseCounts, RandomExercise, 0);
    if ex + non > 0 {
      RoundingBounds(ex, ex + non);
    }
  }

  // ---------------------------------------------------------------- the report

  /** One line of the report: a caption and its value. */
  datatype Line = Line(caption: string, value: real)

  /** The caption of the intensity line. */
  const IntensityCaption: string := "Intensity"

  /** One line per completed-sets entry, in the dictionary's order. */
  function SetsLines(setsCounts: Dict<real>): (r: seq<Line>)
    ensures |r| == |setsCounts|
    ensures forall i :: 0 <= i < |r| ==> r[i] == Line(Caption(setsCounts[i].0), setsCounts[i].1)
  {
    if setsCounts == [] then []
    else [Line(Caption(setsCounts[0].0), setsCounts[0].1)] + SetsLines(setsCounts[1..])
  }

  /**
   * Lines 19-33: when the session is stopped and an event was received, the
   * sets of that event, then the intensity; nothing is shown while running or
   * before the first event, and an event with no pose counted fails.
   */
  function FinalReport(last: Option<Event>, running: bool): (r: Option<Result<seq<Line>>>)
  {
    if last.None? || running then None
    else
      match Intensity(last.value.poseCounts)
      case Err(msg) => Some(Err(msg))
      case Ok(tenths) => Some(Ok(SetsLines(last.value.setsCounts) + [Line(IntensityCaption, tenths as real / 10.0)]))
  }

  /**
   * The report is shown exactly when stopped with an event; it fails exactly
   * when that event counted no pose; otherwise it holds one line per set
   * entry in order, then the intensity line, whose value is a tenth between 0
   * and 1 within 0.05 of the exact share of exercise poses.
   */
  lemma FinalReportFacts(last: Option<Event>, running: bool)
    requires last.Some? ==> Keyed(last.value.poseCounts)
    ensures FinalReport(last, running).Some? <==> last.Some? && !running
    ensures FinalReport(last, running).Some? ==>
      (FinalReport(last, running).value.Err? <==> Total(last.value.poseCounts) == 0)
    ensures FinalReport(last, running).Some? && FinalReport(last, running).value.Ok? ==>
      var lines := FinalReport(last, running).value.value;
      var sets := last.value.setsCounts;
      var poses := last.value.poseCounts;
      var ex := TotalExcept(poses, RandomExercise);
      && |lines| == |sets| + 1
      && (forall i :: 0 <= i < |sets| ==> lines[i] == Line(Caption(sets[i].0), sets[i].1))
      && var tenths := Intensity(poses).value;
      && lines[|sets|] == Line(IntensityCaption, tenths as real / 10.0)
      && tenths <= 10
      && 20 * ex <= 2 * (tenths * Total(poses)) + Total(poses)
      && 2 * (tenths * Total(poses)) <= 20 * ex + Total(poses)
  {
    if last.Some? && !running {
      var poses := last.value.poseCounts;
      IntensityFacts(poses);
      TotalSplit(poses, RandomExercise);
      if Total(poses) > 0 {
        RoundingError(TotalExcept(poses, RandomExercise), Total(poses));
      }
    }
  }

  // ---------------------------------------------------------------- the page's polling

  /**
   * What the camera loop reads from the engine (lines 52-68): on each pass
   * `get_output` returns nothing when the queue looks empty, and otherwise
   * the oldest event not yet read, which the page saves as its output.
   * `out` is every event the engine puts, in order; `read` of them have been
   * read so far; `ready[k]` says whether the queue showed an event on pass
   * `k`. The result is how many events have been read after the passes and
   * the output then saved.
   */
  function Poll(out: seq<Event>, read: nat, saved: Option<Event>, ready: seq<bool>): (r: (nat, Option<Event>))
    requires read <= |out|
    ensures read <= r.0 <= |out| && r.0 <= read + |ready|
    ensures r.0 == read ==> r.1 == saved
    ensures r.0 > read ==> r.1 == Some(out[r.0 - 1])
    decreases |ready|
  {
    if ready == [] then (read, saved)
    else if ready[0] && read < |out| then Poll(out, read + 1, Some(out[read]), ready[1..])
    else Poll(out, read, saved, ready[1..])
  }

  /**
   * For the engine's own events: once the page has read some of the events
   * the engine put (which have proper dictionaries for every run from fresh
   * counters, by `Engine.FreshRunKeyed`), the report on its saved output
   * fails exactly when the last event read counted no pose (an error put
   * before any frame was classified); with nothing read, the report is
   * whatever the earlier saved output gives.
   */
  lemma ReportOfPolled(out: seq<Event>, saved: Option<Event>, ready: seq<bool>, running: bool)
    requires AllKeyed(out)
    ensures var (n, last) := Poll(out, 0, saved, ready);
      n > 0 ==> (FinalReport(last, running).Some? && FinalReport(last, running).value.Err? <==>
        !running && Total(out[n - 1].poseCounts) == 0)
  {
    var (n, last) := Poll(out, 0, saved, ready);
    if n > 0 {
      FinalReportFacts(last, running);
    }
  }

  // ---------------------------------------------------------------- the capture throttle

  /**
   * The frames the capture loop hands to the engine (lines 45-50): each pass
   * reads the clock (`now`) and, when at least 200 ms have passed since
   * `start`, pushes the frame stamped `now` and restarts the interval at a
   * second reading (`after`).
   */
  function Pushes(start: real, ticks: seq<(real, real)>): (stamps: seq<real>)
    ensures |stamps| <= |ticks|
    decreases |ticks|
  {
    if ticks == [] then []
    else
      var (now, after) := ticks[0];
      if (now - start) * 1000.0 >= 200.0 then [now] + Pushes(after, ticks[1..])
      else Pushes(start, ticks[1..])
  }

  /**
   * The capture loop itself, pass by pass (lines 40-68): it throttles the
   * frames it pushes and polls the engine once per pass.
   */
  method Pace(start: real, ticks: seq<(real, real)>, out: seq<Event>, ready: seq<bool>, saved0: Option<Event>)
    returns (pushed: seq<real>, read: nat, saved: Option<Event>)
    requires |ready| == |ticks|
    ensures pushed == Pushes(start, ticks)
    ensures (read, saved) == Poll(out, 0, saved0, ready)
  {
    pushed := [];
    read := 0;
    saved := saved0;
    var secondStart := start;
    var i := 0;
    while i < |ticks|
      invariant 0 <= i <= |ticks| && read <= |out|
      invariant pushed + Pushes(secondStart, ticks[i..]) == Pushes(start, ticks)
      invariant Poll(out, read, saved, ready[i..]) == Poll(out, 0, saved0, ready)
    {
      var (timeNow, timeAfter) := ticks[i];
      assert ticks[i..][1..] == ticks[i + 1..];
      assert ready[i..][1..] == ready[i + 1..];
      if (timeNow - secondStart) * 1000.0 >= 200.0 {
        pushed := pushed + [timeNow];
        secondStart := timeAfter;
      }
      if ready[i] && read < |out| {
        saved := Some(out[read]);
        read := read + 1;
      }
      i := i + 1;
    }
  }

  /** The clock never runs backwards: from `start`, through each pass's two readings. */
  predicate Monotone(start: real, ticks: seq<(real, real)>) {
    (ticks != [] ==> start <= ticks[0].0)
    && (forall i :: 0 <= i < |ticks| ==> ticks[i].0 <= ticks[i].1)
    && (forall i :: 0 < i < |ticks| ==> ticks[i - 1].1 <= ticks[i].0)
  }

  /**
   * With a clock that never runs backwards, the first frame pushed is at
   * least 0.2 s after `start` and the frames pushed are at least 0.2 s apart,
   * so the engine sees at most five frames a second.
   */
  lemma {:induction false} PushesSpaced(start: real, ticks: seq<(real, real)>)
    requires Monotone(start, ticks)
    ensures var p := Pushes(start, ticks);
      && (p != [] ==> p[0] >= start + 0.2)
      && (forall j :: 0 < j < |p| ==> p[j] >= p[j - 1] + 0.2)
    decreases |ticks|
  {
    if ticks != [] {
      var (now, after) := ticks[0];
      var rest := ticks[1..];
      if (now - start) * 1000.0 >= 200.0 {
        assert Monotone(after, rest);
        PushesSpaced(after, rest);
        var p := Pushes(start, ticks);
        assert p == [now] + Pushes(after, rest);
        forall j | 0 < j < |p|
          ensures p[j] >= p[j - 1] + 0.2
        {
          if j == 1 {
            assert p[1] == Pushes(after, rest)[0];
          } else {
            assert p[j] == Pushes(after, rest)[j - 1];
          }
        }
      } else {
        assert Monotone(start, rest) by {
          if rest != [] {
            assert start <= now <= after <= rest[0].0;
          }
        }
        PushesSpaced(start, rest);
      }
    }
  }
}
