/**
 * The speech worker: texts to speak arrive with the time they were requested;
 * each text is turned into an audio file once (named by a hash of the text) and
 * replayed from then on, but a text heard less than 10 seconds ago is not
 * repeated.
 *
 * Text-to-speech synthesis, audio playback, the directory listing and the md5
 * hash are not modelled: the hash is a function parameter, the listing is the
 * list of file names handed to the constructor, and whether synthesis succeeds
 * for a request is an input. The clock reading `time.time()` taken while a
 * request is handled is an input too.
 */
module Speech {

  /** An item of the worker's input queue: the kill signal `0`, or `(time_stamp, text)`. */
  datatype Request = Kill | Say(stamp: real, text: string)

  /** A text is not repeated within this many seconds. */
  const RepeatGap: real := 10.0

  /** The audio file a text is stored in: `md5(text).hexdigest() + '.mp3'`. */
  function FileName(hash: string -> string, text: string): string {
    hash(text) + ".mp3"
  }

  /**
   * What the worker has done so far: the history of last delivery times, and
   * the files synthesised and played, in order.
   */
  datatype Cache = Cache(history: map<string, real>, synthesised: seq<string>, played: seq<string>)

  /** The history seeded at start-up: every existing file, as if played 10 seconds before `init`. */
  function Seeded(files: seq<string>, init: real): (h: map<string, real>)
    ensures h.Keys == set f | f in files
    ensures forall f :: f in h ==> h[f] == init - RepeatGap
  {
    map f | f in files :: init - RepeatGap
  }

  /**
   * Handling one request for the file `key`, requested at `stamp` and handled
   * at `now`: a new file is synthesised (when synthesis succeeds), recorded
   * and played; a known file is played and re-stamped only when more than 10
   * seconds separate the request from its last delivery.
   */
  function Step(c: Cache, key: string, stamp: real, now: real, synthesisOk: bool): (r: Cache)
    ensures c.history.Keys <= r.history.Keys
    ensures forall k :: k in c.history && k != key ==> k in r.history && r.history[k] == c.history[k]
    ensures r.played == c.played || (r.played == c.played + [key] && r.history == c.history[key := now])
    ensures r.synthesised == c.synthesised || (key !in c.history && r.synthesised == c.synthesised + [key])
    ensures key in c.history ==> (r.played == c.played + [key] <==> stamp - c.history[key] > RepeatGap)
    ensures key !in c.history ==> (r.played == c.played + [key] <==> synthesisOk)
    ensures key !in c.history && synthesisOk ==> r.synthesised == c.synthesised + [key]
    ensures r.played == c.played ==> r == c
  {
    if key !in c.history then
      if synthesisOk then Cache(c.history[key := now], c.synthesised + [key], c.played + [key])
      else c
    else if stamp - c.history[key] > RepeatGap then
      Cache(c.history[key := now], c.synthesised, c.played + [key])
    else c
  }

  /** The worker loop: requests are handled in order up to the first kill signal. */
  function Run(c: Cache, hash: string -> string, requests: seq<Request>, clock: seq<real>, synthesisOk: seq<bool>): Cache
    requires |clock| == |requests| && |synthesisOk| == |requests|
    decreases |requests|
  {
    if requests == [] || requests[0].Kill? then c
    else
      var c' := Step(c, FileName(hash, requests[0].text), requests[0].stamp, clock[0], synthesisOk[0]);
      Run(c', hash, requests[1..], clock[1..], synthesisOk[1..])
  }

  /** The requests handled before the first kill signal. */
  function UntilKill(requests: seq<Request>): (r: seq<Request>)
    ensures |r| <= |requests| && r == requests[..|r|]
    ensures forall i :: 0 <= i < |r| ==> r[i].Say?
    ensures |r| < |requests| ==> requests[|r|].Kill?
  {
    if requests == [] || requests[0].Kill? then [] else [requests[0]] + UntilKill(requests[1..])
  }

  /** The handling times at which the file `key` was played, in order. */
  function PlayTimes(c: Cache, hash: string -> string, requests: seq<Request>, clock: seq<real>, synthesisOk: seq<bool>, key: string): seq<real>
    requires |clock| == |requests| && |synthesisOk| == |requests|
    decreases |requests|
  {
    if requests == [] || requests[0].Kill? then []
    else
      var file := FileName(hash, requests[0].text);
      var c' := Step(c, file, requests[0].stamp, clock[0], synthesisOk[0]);
      (if file == key && c'.played != c.played then [clock[0]] else [])
        + PlayTimes(c', hash, requests[1..], clock[1..], synthesisOk[1..], key)
  }

  /** Consecutive times in `times` are more than 10 seconds apart. */
  predicate Spaced(times: seq<real>)
  {
    forall j :: 0 < j < |times| ==> times[j] > times[j - 1] + RepeatGap
  }

  /** No request in `requests` is handled before the moment it was made. */
  predicate Timely(requests: seq<Request>, clock: seq<real>)
    requires |clock| == |requests|
  {
    forall i :: 0 <= i < |requests| && requests[i].Say? ==> requests[i].stamp <= clock[i]
  }

  lemma TimelyTail(requests: seq<Request>, clock: seq<real>)
    requires |clock| == |requests| && requests != [] && Timely(requests, clock)
    ensures Timely(requests[1..], clock[1..])
  {
    forall i | 0 <= i < |requests[1..]| && requests[1..][i].Say?
      ensures requests[1..][i].stamp <= clock[1..][i]
    {
      assert requests[1..][i] == requests[i + 1];
    }
  }

  /** Putting a time more than 10 seconds before a spaced sequence keeps it spaced. */
  lemma SpacedCons(t: real, rest: seq<real>)
    requires Spaced(rest) && (rest != [] ==> rest[0] > t + RepeatGap)
    ensures Spaced([t] + rest)
  {
    var p := [t] + rest;
    forall j | 0 < j < |p|
      ensures p[j] > p[j - 1] + RepeatGap
    {
      if j > 1 {
        assert p[j] == rest[j - 1] && p[j - 1] == rest[j - 2];
      }
    }
  }

  /**
   * When no request is handled before it was made, a file is never played
   * twice within 10 seconds: each play comes more than 10 seconds after the
   * previous one (or after the file's seeded or earlier delivery time).
   */
  lemma {:induction false} PlaysSpaced(c: Cache, hash: string -> string, requests: seq<Request>, clock: seq<real>, synthesisOk: seq<bool>, key: string)
    requires |clock| == |requests| && |synthesisOk| == |requests|
    requires Timely(requests, clock)
    ensures Spaced(PlayTimes(c, hash, requests, clock, synthesisOk, key))
    ensures key in c.history && PlayTimes(c, hash, requests, clock, synthesisOk, key) != [] ==>
      PlayTimes(c, hash, requests, clock, synthesisOk, key)[0] > c.history[key] + RepeatGap
    decreases |requests|
  {
    if requests != [] && !requests[0].Kill? {
      var file := FileName(hash, requests[0].text);
      var c' := Step(c, file, requests[0].stamp, clock[0], synthesisOk[0]);
      TimelyTail(requests, clock);
      PlaysSpaced(c', hash, requests[1..], clock[1..], synthesisOk[1..], key);
      var rest := PlayTimes(c', hash, requests[1..], clock[1..], synthesisOk[1..], key);
      if file == key && c'.played != c.played {
        assert c'.history[key] == clock[0];
        SpacedCons(clock[0], rest);
        assert PlayTimes(c, hash, requests, clock, synthesisOk, key) == [clock[0]] + rest;
      } else {
        assert PlayTimes(c, hash, requests, clock, synthesisOk, key) == rest;
      }
    }
  }

  /** Nothing after the kill signal is handled. */
  lemma {:induction false} KillStops(c: Cache, hash: string -> string, requests: seq<Request>, clock: seq<real>, synthesisOk: seq<bool>)
    requires |clock| == |requests| && |synthesisOk| == |requests|
    ensures var n := |UntilKill(requests)|;
      Run(c, hash, requests, clock, synthesisOk) == Run(c, hash, requests[..n], clock[..n], synthesisOk[..n])
    decreases |requests|
  {
    var n := |UntilKill(requests)|;
    if requests != [] && !requests[0].Kill? {
      KillStops(Step(c, FileName(hash, requests[0].text), requests[0].stamp, clock[0], synthesisOk[0]),
        hash, requests[1..], clock[1..], synthesisOk[1..]);
      assert UntilKill(requests) == [requests[0]] + UntilKill(requests[1..]);
      assert requests[..n][1..] == requests[1..][..n - 1];
      assert clock[..n][1..] == clock[1..][..n - 1];
      assert synthesisOk[..n][1..] == synthesisOk[1..][..n - 1];
    }
  }

  /** History entries are never removed, and only ever re-stamped with a handling time. */
  lemma {:induction false} HistoryOnlyGrows(c: Cache, hash: string -> string, requests: seq<Request>, clock: seq<real>, synthesisOk: seq<bool>)
    requires |clock| == |requests| && |synthesisOk| == |requests|
    ensures var r := Run(c, hash, requests, clock, synthesisOk);
      c.history.Keys <= r.history.Keys
      && forall k :: k in r.history ==> (k in c.history && r.history[k] == c.history[k]) || r.history[k] in clock
    decreases |requests|
  {
    if requests != [] && !requests[0].Kill? {
      var c' := Step(c, FileName(hash, requests[0].text), requests[0].stamp, clock[0], synthesisOk[0]);
      HistoryOnlyGrows(c', hash, requests[1..], clock[1..], synthesisOk[1..]);
      var r := Run(c, hash, requests, clock, synthesisOk);
      forall k | k in r.history
        ensures (k in c.history && r.history[k] == c.history[k]) || r.history[k] in clock
      {
        if !(k in c'.history && r.history[k] == c'.history[k]) {
          assert r.history[k] in clock[1..];
        } else if !(k in c.history && c'.history[k] == c.history[k]) {
          assert c'.history[k] == clock[0];
        }
      }
    }
  }

  /**
   * A file is synthesised at most once: once synthesised it is in the history,
   * and a file in the history is only ever replayed.
   */
  lemma {:induction false} KnownFileNeverSynthesised(c: Cache, hash: string -> string, requests: seq<Request>, clock: seq<real>, synthesisOk: seq<bool>, key: string)
    requires |clock| == |requests| && |synthesisOk| == |requests|
    requires key in c.history
    ensures var r := Run(c, hash, requests, clock, synthesisOk);
      |c.synthesised| <= |r.synthesised| && r.synthesised[..|c.synthesised|] == c.synthesised
      && key !in r.synthesised[|c.synthesised|..]
    decreases |requests|
  {
    if requests != [] && !requests[0].Kill? {
      var c' := Step(c, FileName(hash, requests[0].text), requests[0].stamp, clock[0], synthesisOk[0]);
      KnownFileNeverSynthesised(c', hash, requests[1..], clock[1..], synthesisOk[1..], key);
      var r := Run(c, hash, requests, clock, synthesisOk);
      assert r.synthesised[|c.synthesised|..] == c'.synthesised[|c.synthesised|..] + r.synthesised[|c'.synthesised|..];
    }
  }

  /** Helper: the record of synthesised files is only ever extended. */
  lemma {:induction false} SynthesisedExtends(c: Cache, hash: string -> string, requests: seq<Request>, clock: seq<real>, synthesisOk: seq<bool>)
    requires |clock| == |requests| && |synthesisOk| == |requests|
    ensures var r := Run(c, hash, requests, clock, synthesisOk);
      |c.synthesised| <= |r.synthesised| && r.synthesised[..|c.synthesised|] == c.synthesised
    decreases |requests|
  {
    if requests != [] && !requests[0].Kill? {
      var c' := Step(c, FileName(hash, requests[0].text), requests[0].stamp, clock[0], synthesisOk[0]);
      SynthesisedExtends(c', hash, requests[1..], clock[1..], synthesisOk[1..]);
      var r := Run(c, hash, requests, clock, synthesisOk);
      assert c'.synthesised[..|c.synthesised|] == c.synthesised;
      assert r.synthesised[..|c.synthesised|] == r.synthesised[..|c'.synthesised|][..|c.synthesised|];
    }
  }

  /** Whatever the requests, no file is synthesised twice. */
  lemma {:induction false} SynthesisedOnce(c: Cache, hash: string -> string, requests: seq<Request>, clock: seq<real>, synthesisOk: seq<bool>, key: string)
    requires |clock| == |requests| && |synthesisOk| == |requests|
    ensures var r := Run(c, hash, requests, clock, synthesisOk);
      |c.synthesised| <= |r.synthesised| && multiset(r.synthesised[|c.synthesised|..])[key] <= 1
    decreases |requests|
  {
    if requests != [] && !requests[0].Kill? {
      var file := FileName(hash, requests[0].text);
      var c' := Step(c, file, requests[0].stamp, clock[0], synthesisOk[0]);
      var r := Run(c, hash, requests, clock, synthesisOk);
      SynthesisedExtends(c', hash, requests[1..], clock[1..], synthesisOk[1..]);
      var rest := r.synthesised[|c'.synthesised|..];
      if c'.synthesised == c.synthesised {
        SynthesisedOnce(c', hash, requests[1..], clock[1..], synthesisOk[1..], key);
      } else {
        assert r.synthesised[|c.synthesised|..] == [file] + rest;
        if file == key {
          KnownFileNeverSynthesised(c', hash, requests[1..], clock[1..], synthesisOk[1..], key);
        } else {
          SynthesisedOnce(c', hash, requests[1..], clock[1..], synthesisOk[1..], key);
        }
      }
    }
  }

  /**
   * A file seeded at start-up is replayed without synthesis by any request made
   * after start-up.
   */
  lemma SeededReplays(files: seq<string>, init: real, key: string, stamp: real, now: real, ok: bool)
    requires key in files && stamp > init
    ensures var c := Cache(Seeded(files, init), [], []);
      Step(c, key, stamp, now, ok) == Cache(Seeded(files, init)[key := now], [], [key])
  {
  }

  /** A failed synthesis changes nothing, so the next request for the text tries again. */
  lemma FailedSynthesisRetried(c: Cache, key: string, stamp: real, now: real, stamp2: real, now2: real)
    requires key !in c.history
    ensures Step(c, key, stamp, now, false) == c
    ensures Step(Step(c, key, stamp, now, false), key, stamp2, now2, true).synthesised == c.synthesised + [key]
  {
  }

  /**
   * Requests for one text at times 0, 5 and 11, each handled as it arrives:
   * the first synthesises and plays, the second is suppressed, the third
   * replays.
   */
  lemma DebounceExample(hash: string -> string, text: string)
    ensures var key := FileName(hash, text);
      Run(Cache(map[], [], []), hash, [Say(0.0, text), Say(5.0, text), Say(11.0, text)], [0.0, 5.0, 11.0], [true, true, true])
      == Cache(map[key := 11.0], [key], [key, key])
  {
    var key := FileName(hash, text);
    var reqs := [Say(0.0, text), Say(5.0, text), Say(11.0, text)];
    var clock := [0.0, 5.0, 11.0];
    var ok := [true, true, true];
    var c1 := Cache(map[key := 0.0], [key], [key]);
    var c3 := Cache(map[key := 11.0], [key], [key, key]);
    assert Step(Cache(map[], [], []), key, 0.0, 0.0, true) == c1;
    assert Step(c1, key, 5.0, 5.0, true) == c1;
    assert Step(c1, key, 11.0, 11.0, true) == c3;
    assert Run(c3, hash, reqs[3..], clock[3..], ok[3..]) == c3;
    assert Run(c1, hash, reqs[2..], clock[2..], ok[2..]) == c3;
    assert Run(c1, hash, reqs[1..], clock[1..], ok[1..]) == c3;
  }

  /** The speech worker object: its history of deliveries, and what it synthesised and played. */
  class SpeechEngine {
    var history: map<string, real>
    var synthesised: seq<string>
    var played: seq<string>

    /** `__init__`: one history entry per file already on disk, valued `init - 10`. */
    constructor(files: seq<string>, init: real)
      ensures history == Seeded(files, init) && synthesised == [] && played == []
    {
      history := map f | f in files :: init - RepeatGap;
      synthesised := [];
      played := [];
    }

    function State(): Cache
      reads this
    {
      Cache(history, synthesised, played)
    }

    /**
     * `main` (the worker loop): handle requests until the kill signal. `clock[i]` is the time
     * read while handling request `i`; `synthesisOk[i]` says whether its
     * synthesis (if any) succeeded. A failure is caught and the loop goes on.
     */
    method Serve(hash: string -> string, requests: seq<Request>, clock: seq<real>, synthesisOk: seq<bool>)
      requires |clock| == |requests| && |synthesisOk| == |requests|
      modifies this
      ensures State() == Run(old(State()), hash, requests, clock, synthesisOk)
    {
      var i := 0;
      while i < |requests|
        invariant 0 <= i <= |requests|
        invariant Run(old(State()), hash, requests, clock, synthesisOk)
          == Run(State(), hash, requests[i..], clock[i..], synthesisOk[i..])
        decreases |requests| - i
      {
        var request := requests[i];
        if request.Kill? {
          break;
        }
        var key := FileName(hash, request.text);
        if key !in history {
          if synthesisOk[i] {
            synthesised := synthesised + [key];
            history := history[key := clock[i]];
            played := played + [key];
          }
        } else if request.stamp - history[key] > RepeatGap {
          history := history[key := clock[i]];
          played := played + [key];
        }
        assert requests[i..][1..] == requests[i + 1..];
        assert clock[i..][1..] == clock[i + 1..];
        assert synthesisOk[i..][1..] == synthesisOk[i + 1..];
        i := i + 1;
      }
    }
  }
}
