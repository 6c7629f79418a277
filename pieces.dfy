/** Cutting a recording into spoken pieces, `get_audio_pieces` in
    `speech-opt/src/ffopt.rs`: the silences found by `detect_silence` and the
    length found by `get_audio_duration` make a timeline
    `[0, s1, e1, ..., sk, ek, T]`, and consecutive pairs of it are the
    pieces between the silences. */
module Pieces {
  import opened Basics
  import opened TimeParse
  import opened Silence

  /** The starts and ends of the silences, in order: `s1, e1, ..., sk, ek`
      (of any intervals, in the same way). */
  function Boundaries(silences: seq<Interval>): (b: seq<Duration>)
    ensures |b| == 2 * |silences|
  {
    if silences == [] then []
    else
      var n := |silences| - 1;
      Boundaries(silences[..n]) + [silences[n].start, silences[n].end]
  }

  /** The timeline of a recording of length `length`. */
  function Timeline(silences: seq<Interval>, length: Duration): seq<Duration> {
    [0] + Boundaries(silences) + [length]
  }

  /** Consecutive pairs `(t[2i], t[2i+1])`; a last odd entry is dropped. */
  function Pairs(timeline: seq<Duration>): seq<Interval> {
    seq(|timeline| / 2, i requires 0 <= i < |timeline| / 2 => Interval(timeline[2 * i], timeline[2 * i + 1]))
  }

  /** The stretches between silences, written independently of the timeline:
      from the start of the recording (or the end of the previous silence) to
      the start of the next silence (or the end of the recording). */
  function Gaps(silences: seq<Interval>, length: Duration): seq<Interval> {
    seq(|silences| + 1, i requires 0 <= i <= |silences| =>
      Interval(if i == 0 then 0 else silences[i - 1].end,
               if i == |silences| then length else silences[i].start))
  }

  /** What `get_audio_pieces` returns: the silence report is read first, and its
      failure wins over a failure to read the length. */
  function AudioPieces(silenceRun: ToolRun, lengthRun: ToolRun): Result<seq<Interval>> {
    match SilenceIntervals(silenceRun)
    case Err(e) => Err(e)
    case Ok(silences) =>
      match AudioDuration(lengthRun)
      case Err(e) => Err(e)
      case Ok(length) => Ok(Pairs(Timeline(silences, length)))
  }

  lemma BoundariesStep(silences: seq<Interval>, i: nat)
    requires i < |silences|
    ensures Boundaries(silences[..i + 1]) == Boundaries(silences[..i]) + [silences[i].start, silences[i].end]
  {
    assert silences[..i + 1][..i] == silences[..i];
  }

  /** Pushing the start and the end of silence `i` onto the timeline so
      far. */
  lemma TimelineStep(silences: seq<Interval>, i: nat, timeline: seq<Duration>)
    requires i < |silences| && timeline == [0] + Boundaries(silences[..i])
    ensures timeline + [silences[i].start] + [silences[i].end] == [0] + Boundaries(silences[..i + 1])
  {
    BoundariesStep(silences, i);
  }

  /** Entry `2i` of the boundaries is the start of silence `i`, entry `2i+1` its
      end. */
  lemma {:induction false} BoundariesAt(silences: seq<Interval>, i: nat)
    requires i < |silences|
    ensures Boundaries(silences)[2 * i] == silences[i].start
    ensures Boundaries(silences)[2 * i + 1] == silences[i].end
  {
    var n := |silences| - 1;
    if i < n {
      BoundariesAt(silences[..n], i);
    }
  }

  lemma PairsStep(timeline: seq<Duration>, j: nat)
    requires j < |timeline| / 2
    ensures Pairs(timeline)[..j + 1] == Pairs(timeline)[..j] + [Interval(timeline[j * 2], timeline[j * 2 + 1])]
  {
  }

  /** The timeline has `2k + 2` entries, so the pieces number `k + 1`; piece 0
      runs from 0 to the first silence, piece `i` from the end of silence `i`
      to the start of the next, and the last piece ends at the length. */
  lemma PiecesAreGaps(silences: seq<Interval>, length: Duration)
    ensures |Timeline(silences, length)| == 2 * |silences| + 2
    ensures Pairs(Timeline(silences, length)) == Gaps(silences, length)
  {
    var t := Timeline(silences, length);
    var k := |silences|;
    forall i | 0 <= i <= k
      ensures Pairs(t)[i] == Gaps(silences, length)[i]
    {
      if 0 < i {
        BoundariesAt(silences, i - 1);
        assert t[2 * i] == Boundaries(silences)[2 * (i - 1) + 1];
      }
      if i < k {
        BoundariesAt(silences, i);
        assert t[2 * i + 1] == Boundaries(silences)[2 * i];
      }
    }
  }

  /** With no silence the single piece is the whole recording. */
  lemma NoSilenceOnePiece(length: Duration)
    ensures Pairs(Timeline([], length)) == [Interval(0, length)]
  {
    PiecesAreGaps([], length);
  }

  /** Pairing loses nothing of a timeline of even length: the starts and ends
      of the pieces, in order, are the timeline again. */
  lemma {:induction false} FlattenPairs(timeline: seq<Duration>)
    requires |timeline| % 2 == 0
    ensures Boundaries(Pairs(timeline)) == timeline
    decreases |timeline|
  {
    if timeline != [] {
      var m := |timeline| - 2;
      var front := timeline[..m];
      FlattenPairs(front);
      assert Pairs(timeline)[..m / 2] == Pairs(front);
      assert timeline == front + [timeline[m], timeline[m + 1]];
    }
  }

  /** The signed length of each interval, summed. */
  function TotalLength(intervals: seq<Interval>): int {
    if intervals == [] then 0
    else
      var n := |intervals| - 1;
      TotalLength(intervals[..n]) + (intervals[n].end - intervals[n].start)
  }

  lemma GapsStep(silences: seq<Interval>, x: Interval, length: Duration)
    ensures Gaps(silences + [x], length) == Gaps(silences, x.start) + [Interval(x.end, length)]
  {
    var s := silences + [x];
    assert forall i :: 0 <= i < |silences| ==> s[i] == silences[i];
  }

  /** The pieces and the silences together span the recording exactly: their
      lengths add up to the length of the recording. */
  lemma {:induction false} PiecesAndSilencesTile(silences: seq<Interval>, length: Duration)
    ensures TotalLength(Gaps(silences, length)) + TotalLength(silences) == length
  {
    if silences == [] {
      assert Gaps([], length) == [Interval(0, length)];
      assert [Interval(0, length)][..0] == [];
    } else {
      var n := |silences| - 1;
      var x := silences[n];
      PiecesAndSilencesTile(silences[..n], x.start);
      assert silences[..n] + [x] == silences;
      GapsStep(silences[..n], x, length);
      var g := Gaps(silences[..n], x.start) + [Interval(x.end, length)];
      assert g[..|g| - 1] == Gaps(silences[..n], x.start);
    }
  }

  /** Silences that come in order, each within the recording. */
  predicate Chronological(silences: seq<Interval>, length: Duration) {
    (forall i :: 0 <= i < |silences| ==> silences[i].start <= silences[i].end)
    && (forall i, j :: 0 <= i < j < |silences| ==> silences[i].end <= silences[j].start)
    && (0 < |silences| ==> silences[|silences| - 1].end <= length)
  }

  /** Piece `i` runs from the end of silence `i - 1` (or 0) to the start of
      silence `i` (or the length). */
  lemma GapAt(silences: seq<Interval>, length: Duration, i: nat)
    requires i <= |silences|
    ensures Gaps(silences, length)[i].start == if i == 0 then 0 else silences[i - 1].end
    ensures Gaps(silences, length)[i].end == if i == |silences| then length else silences[i].start
  {
  }

  /** A piece runs forward when the silence before it ends before the
      silence (or the end) after it. */
  lemma GapForward(silences: seq<Interval>, length: Duration, i: nat)
    requires i <= |silences|
    requires 0 < i < |silences| ==> silences[i - 1].end <= silences[i].start
    requires 0 < i == |silences| ==> silences[i - 1].end <= length
    ensures Gaps(silences, length)[i].start <= Gaps(silences, length)[i].end
  {
    GapAt(silences, length, i);
  }

  /** When the silences are in order, no piece runs backwards. */
  lemma PieceRunsForward(silences: seq<Interval>, length: Duration, i: nat)
    requires Chronological(silences, length) && i <= |silences|
    ensures Gaps(silences, length)[i].start <= Gaps(silences, length)[i].end
  {
    if 0 < i < |silences| {
      assert silences[i - 1].end <= silences[i].start;
    }
    GapForward(silences, length, i);
  }

  /** In-order silences: silence `a` starts before any silence from `a` on
      ends. */
  lemma SilencesSpan(silences: seq<Interval>, length: Duration, a: nat, b: nat)
    requires Chronological(silences, length) && a <= b < |silences|
    ensures silences[a].start <= silences[b].end
  {
    assert silences[a].start <= silences[a].end;
    if a < b {
      assert silences[a].end <= silences[b].start;
      assert silences[b].start <= silences[b].end;
    }
  }

  /** Piece `i` ends where silence `i` starts and piece `j` starts where
      silence `j - 1` ends. */
  lemma GapsOrdered(silences: seq<Interval>, length: Duration, i: nat, j: nat)
    requires i < j <= |silences| && silences[i].start <= silences[j - 1].end
    ensures Gaps(silences, length)[i].end <= Gaps(silences, length)[j].start
  {
    GapAt(silences, length, i);
    GapAt(silences, length, j);
  }

  /** When the silences are in order, every piece ends before any later piece
      starts. */
  lemma PiecesInOrder(silences: seq<Interval>, length: Duration, i: nat, j: nat)
    requires Chronological(silences, length) && i < j <= |silences|
    ensures Gaps(silences, length)[i].end <= Gaps(silences, length)[j].start
  {
    SilencesSpan(silences, length, i, j - 1);
    GapsOrdered(silences, length, i, j);
  }

  /** `get_audio_pieces`: push 0, then each silence's start and end, then the
      length, and take the timeline two entries at a time. */
  method GetAudioPieces(silenceRun: ToolRun, lengthRun: ToolRun) returns (r: Result<seq<Interval>>)
    ensures r == AudioPieces(silenceRun, lengthRun)
    ensures r.Ok? ==> r.value == Gaps(SilenceIntervals(silenceRun).value, AudioDuration(lengthRun).value)
  {
    var silencePairs := DetectSilence(silenceRun);
    if silencePairs.Err? {
      return Err(silencePairs.error);
    }
    var silences := silencePairs.value;
    var timeline: seq<Duration> := [0];
    var i := 0;
    while i < |silences|
      invariant 0 <= i <= |silences|
      invariant timeline == [0] + Boundaries(silences[..i])
    {
      TimelineStep(silences, i, timeline);
      timeline := timeline + [silences[i].start];
      timeline := timeline + [silences[i].end];
      i := i + 1;
    }
    assert silences[..i] == silences;
    var endTime := AudioDuration(lengthRun);
    if endTime.Err? {
      return Err(endTime.error);
    }
    timeline := timeline + [endTime.value];
    var result := TakePairs(timeline);
    PiecesAreGaps(silences, endTime.value);
    return Ok(result);
  }

  /** The second loop of `get_audio_pieces`: entries `2j` and `2j + 1` of the
      timeline make piece `j`. */
  method TakePairs(timeline: seq<Duration>) returns (result: seq<Interval>)
    ensures result == Pairs(timeline)
  {
    result := [];
    var audioLength := |timeline| / 2;
    var j := 0;
    while j < audioLength
      invariant 0 <= j <= audioLength
      invariant result == Pairs(timeline)[..j]
    {
      PairsStep(timeline, j);
      result := result + [Interval(timeline[j * 2], timeline[j * 2 + 1])];
      j := j + 1;
    }
    assert Pairs(timeline)[..j] == Pairs(timeline);
  }
}
