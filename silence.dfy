/** Silence detection, `detect_silence` in `speech-opt/src/ffopt.rs`: ffmpeg's
    `silencedetect` filter reports, for each silence, where it ends and how
    long it lasted; the tool turns each such report line into a
    `(start, end)` interval with `start = end - duration`. */
module Silence {
  import opened Basics
  import opened Text
  import opened TimeParse

  const SilenceTag: string := "[silencedetect"
  const EndField: string := "silence_end: "
  const DurationField: string := " | silence_duration: "

  /** The lengths of the three markers, written out so that the verifier does
      not recount the literals at every use. */
  const TagLength: nat := 14
  const EndFieldLength: nat := 13
  const DurationFieldLength: nat := 21

  lemma MarkerLengths()
    ensures |SilenceTag| == TagLength && |EndField| == EndFieldLength
    ensures |DurationField| == DurationFieldLength
  {
  }

  /** The two capture groups of the regex
      `\[silencedetect.*?silence_end: (.*?) \| silence_duration: (.*)` on one
      line (which holds no line feed). The match starts at the first
      `[silencedetect`; the lazy groups stop at the first `silence_end: ` after
      it and at the first ` | silence_duration: ` after that, and the last
      group takes the rest of the line. */
  function SilenceCapture(line: string): Option<(string, string)> {
    match IndexOf(line, SilenceTag, 0)
    case None => None
    case Some(p) => FieldsFrom(line, p + TagLength)
  }

  /** The two groups, read from just after the tag at `from`. */
  function FieldsFrom(line: string, from: nat): Option<(string, string)> {
    match IndexOf(line, EndField, from)
    case None => None
    case Some(i) => DurationFrom(line, i + EndFieldLength)
  }

  /** The two groups, the first starting at `from`. */
  function DurationFrom(line: string, from: nat): Option<(string, string)> {
    match IndexOf(line, DurationField, from)
    case None => None
    case Some(j) => Some((line[from..j], line[j + DurationFieldLength..]))
  }

  /** The capture of one line, as a list of zero or one entries. */
  function CaptureList(line: string): seq<(string, string)> {
    AsList(SilenceCapture(line))
  }

  /** The captures of the matching lines, in report order. */
  function Captures(lines: seq<string>): seq<(string, string)> {
    Matches(lines, SilenceCapture)
  }

  /** One report line's interval. Both fields must read as seconds (the
      source panics otherwise), and the duration cannot exceed the end
      (`Duration` subtraction panics). */
  function IntervalOf(capture: (string, string)): (r: Result<Interval>)
    ensures r.Ok? <==> (ParseSeconds(capture.0).Some? && ParseSeconds(capture.1).Some?
                        && ParseSeconds(capture.1).value <= ParseSeconds(capture.0).value)
    ensures r.Ok? ==> r.value.start <= r.value.end
                      && ParseSeconds(capture.0) == Some(r.value.end)
                      && ParseSeconds(capture.1) == Some(r.value.end - r.value.start)
    ensures r.Err? ==> r.error.IsPanic()
  {
    var end := ParseSeconds(capture.0);
    if end.None? then Err(CaptureNotNumeric)
    else
      var duration := ParseSeconds(capture.1);
      if duration.None? then Err(CaptureNotNumeric)
      else if end.value < duration.value then Err(DurationUnderflow)
      else Ok(Interval(end.value - duration.value, end.value))
  }

  /** What `detect_silence` returns for one ffmpeg run. */
  function SilenceIntervals(run: ToolRun): Result<seq<Interval>> {
    match run
    case NotStarted => Err(SpawnFailed)
    case Ran(stderr) => Collect(Captures(Lines(stderr)), IntervalOf)
  }

  lemma {:induction false} CapturesAppend(a: seq<string>, b: seq<string>)
    ensures Captures(a + b) == Captures(a) + Captures(b)
    decreases |b|
  {
    if b == [] {
      assert a + b == a;
    } else {
      var n := |b| - 1;
      assert (a + b)[..|a + b| - 1] == a + b[..n];
      CapturesAppend(a, b[..n]);
    }
  }

  lemma CapturesStep(lines: seq<string>, i: nat)
    requires i < |lines|
    ensures Captures(lines[..i + 1]) == Captures(lines[..i]) + CaptureList(lines[i])
  {
    assert lines[..i + 1][..i] == lines[..i];
  }

  /** One more line: a line without a match leaves the intervals read so
      far as they are, a matching line adds its interval or fails them. */
  lemma LineStep(lines: seq<string>, i: nat, done: seq<Interval>)
    requires i < |lines| && Collect(Captures(lines[..i]), IntervalOf) == Ok(done)
    ensures Collect(Captures(lines[..i + 1]), IntervalOf)
            == match SilenceCapture(lines[i])
               case None => Ok(done)
               case Some(c) =>
                 match IntervalOf(c)
                 case Err(e) => Err(e)
                 case Ok(x) => Ok(done + [x])
  {
    CapturesStep(lines, i);
    match SilenceCapture(lines[i])
    case None =>
      assert Captures(lines[..i]) + [] == Captures(lines[..i]);
    case Some(c) =>
      assert CaptureList(lines[i]) == [c];
      CollectLast(Captures(lines[..i]), c, IntervalOf);
  }

  /** Once the first lines fail, the whole run fails the same way. */
  lemma LinesFailureStays(lines: seq<string>, k: nat)
    requires k <= |lines| && Collect(Captures(lines[..k]), IntervalOf).Err?
    ensures Collect(Captures(lines), IntervalOf) == Collect(Captures(lines[..k]), IntervalOf)
  {
    CapturesAppend(lines[..k], lines[k..]);
    FrontAndBack(lines, k);
    CollectFailureFirst(Captures(lines[..k]), Captures(lines[k..]), IntervalOf);
  }

  /** `detect_silence`: read ffmpeg's report line by line and collect one
      interval per matching line, in report order. */
  method DetectSilence(run: ToolRun) returns (r: Result<seq<Interval>>)
    ensures r == SilenceIntervals(run)
  {
    if run.NotStarted? {
      return Err(SpawnFailed);
    }
    r := ReadReport(Lines(run.stderr));
  }

  /** The loop of `detect_silence` over the report's lines. */
  method ReadReport(lines: seq<string>) returns (r: Result<seq<Interval>>)
    ensures r == Collect(Captures(lines), IntervalOf)
  {
    var silenceRange: seq<Interval> := [];
    var i := 0;
    while i < |lines|
      invariant 0 <= i <= |lines|
      invariant Collect(Captures(lines[..i]), IntervalOf) == Ok(silenceRange)
    {
      LineStep(lines, i, silenceRange);
      var cap := SilenceCapture(lines[i]);
      if cap.Some? {
        var interval := IntervalOf(cap.value);
        if interval.Err? {
          LinesFailureStays(lines, i + 1);
          return Err(interval.error);
        }
        silenceRange := silenceRange + [interval.value];
      }
      i := i + 1;
    }
    assert lines[..i] == lines;
    r := Ok(silenceRange);
  }

  lemma SilenceCaptureAt(line: string, p: nat, i: nat, j: nat)
    requires IndexOf(line, SilenceTag, 0) == Some(p)
    requires IndexOf(line, EndField, p + TagLength) == Some(i)
    requires IndexOf(line, DurationField, i + EndFieldLength) == Some(j)
    ensures SilenceCapture(line) == Some((line[i + EndFieldLength..j], line[j + DurationFieldLength..]))
  {
    DurationFromAt(line, i + EndFieldLength, j);
    FieldsFromAt(line, p + TagLength, i);
  }

  lemma FieldsFromAt(line: string, from: nat, i: nat)
    requires IndexOf(line, EndField, from) == Some(i)
    ensures FieldsFrom(line, from) == DurationFrom(line, i + EndFieldLength)
  {
  }

  lemma DurationFromAt(line: string, from: nat, j: nat)
    requires IndexOf(line, DurationField, from) == Some(j)
    ensures DurationFrom(line, from) == Some((line[from..j], line[j + DurationFieldLength..]))
  {
  }

  /** A line as ffmpeg writes it: the end and the duration it reports, and
      before them whatever the report puts there. */
  function ReportLine(pre: string, mid: string, end: string, duration: string): string {
    pre + SilenceTag + mid + EndField + end + DurationField + duration
  }

  /** A marker that starts with a character its gap lacks is first found
      right after the gap. */
  lemma MarkerAfterGap(line: string, head: string, gap: string, marker: string, rest: string, skip: nat, c: char,
                       from: nat, at: nat)
    requires line == head + gap + marker + rest && skip < |marker| && marker[skip] == c
    requires NoneIn(gap, {c}) && c !in marker[..skip]
    requires from == |head| && at == from + |gap|
    ensures IndexOf(line, marker, from) == Some(at)
  {
    assert c !in gap by {
      forall k | 0 <= k < |gap| ensures gap[k] != c {
        assert gap[k] !in {c};
      }
    }
    FirstAfterGap(line, head, gap, marker, rest, skip, from);
  }

  lemma TagMarker(pre: string, mid: string, end: string, duration: string, p: nat)
    requires NoneIn(pre, {'['}) && p == |pre|
    ensures IndexOf(ReportLine(pre, mid, end, duration), SilenceTag, 0) == Some(p)
  {
    var line := ReportLine(pre, mid, end, duration);
    assert SilenceTag[0] == '[' && SilenceTag[..0] == [];
    assert line == [] + pre + SilenceTag + (mid + EndField + end + DurationField + duration);
    MarkerAfterGap(line, [], pre, SilenceTag, mid + EndField + end + DurationField + duration, 0, '[', 0, p);
  }

  lemma EndMarker(pre: string, mid: string, end: string, duration: string, p: nat, i: nat)
    requires NoneIn(mid, {'s'}) && p == |pre| && i == p + TagLength + |mid|
    ensures IndexOf(ReportLine(pre, mid, end, duration), EndField, p + TagLength) == Some(i)
  {
    MarkerLengths();
    var line := ReportLine(pre, mid, end, duration);
    assert EndField[0] == 's' && EndField[..0] == [];
    assert line == (pre + SilenceTag) + mid + EndField + (end + DurationField + duration);
    MarkerAfterGap(line, pre + SilenceTag, mid, EndField, end + DurationField + duration, 0, 's', p + TagLength, i);
  }

  lemma DurationMarker(pre: string, mid: string, end: string, duration: string, i: nat, j: nat)
    requires NoneIn(end, {'|'}) && i == |pre| + TagLength + |mid| && j == i + EndFieldLength + |end|
    ensures IndexOf(ReportLine(pre, mid, end, duration), DurationField, i + EndFieldLength) == Some(j)
  {
    MarkerLengths();
    var line := ReportLine(pre, mid, end, duration);
    assert DurationField[1] == '|' && DurationField[..1] == " ";
    assert line == (pre + SilenceTag + mid + EndField) + end + DurationField + duration;
    MarkerAfterGap(line, pre + SilenceTag + mid + EndField, end, DurationField, duration, 1, '|', i + EndFieldLength, j);
  }

  lemma ReportFields(pre: string, mid: string, end: string, duration: string, i: nat, j: nat)
    requires i == |pre| + TagLength + |mid| && j == i + EndFieldLength + |end|
    ensures ReportLine(pre, mid, end, duration)[i + EndFieldLength..j] == end
    ensures ReportLine(pre, mid, end, duration)[j + DurationFieldLength..] == duration
  {
    MarkerLengths();
    var line := ReportLine(pre, mid, end, duration);
    assert line == (pre + SilenceTag + mid + EndField) + end + (DurationField + duration);
    assert line == (pre + SilenceTag + mid + EndField + end + DurationField) + duration;
  }

  /** A line as ffmpeg writes it yields the end and duration it reports. */
  lemma {:induction false} SilenceCaptureOfReport(pre: string, mid: string, end: string, duration: string)
    requires NoneIn(pre, {'['}) && NoneIn(mid, {'s'}) && NoneIn(end, {'|'})
    ensures SilenceCapture(ReportLine(pre, mid, end, duration)) == Some((end, duration))
  {
    var p := |pre|;
    var i := p + TagLength + |mid|;
    var j := i + EndFieldLength + |end|;
    TagMarker(pre, mid, end, duration, p);
    EndMarker(pre, mid, end, duration, p, i);
    DurationMarker(pre, mid, end, duration, i, j);
    ReportFields(pre, mid, end, duration, i, j);
    SilenceCaptureAt(ReportLine(pre, mid, end, duration), p, i, j);
  }

  /** A report that cannot be read fails with the panic of its first
      matching line whose fields cannot be read; every matching line before it
      reads. */
  lemma SilenceFirstFailure(run: ToolRun)
    requires run.Ran? && SilenceIntervals(run).Err?
    ensures exists k :: 0 <= k < |Captures(Lines(run.stderr))|
                        && IntervalOf(Captures(Lines(run.stderr))[k]) == Err(SilenceIntervals(run).error)
                        && forall m :: 0 <= m < k ==> IntervalOf(Captures(Lines(run.stderr))[m]).Ok?
  {
    CollectFirstFailure(Captures(Lines(run.stderr)), IntervalOf);
  }

  /** The scan returns an error only when ffmpeg cannot be started; every
      failure to read its report is a panic. */
  lemma SilenceErrorKinds(run: ToolRun)
    requires SilenceIntervals(run).Err?
    ensures SilenceIntervals(run).error.IsPanic() <==> run.Ran?
    ensures run.NotStarted? ==> SilenceIntervals(run).error == SpawnFailed
  {
    if run.Ran? {
      SilenceFirstFailure(run);
    }
  }

  /** Every interval read from a report starts no later than it ends. */
  lemma SilencesAreIntervals(run: ToolRun)
    requires SilenceIntervals(run).Ok?
    ensures forall k :: 0 <= k < |SilenceIntervals(run).value| ==>
              SilenceIntervals(run).value[k].start <= SilenceIntervals(run).value[k].end
  {
    CollectAllOk(Captures(Lines(run.stderr)), IntervalOf);
  }

  /** A report line is a single line when its free parts hold no line
      feed. */
  lemma ReportLineIsOneLine(pre: string, mid: string, end: string, duration: string)
    requires NoneIn(pre, {'\n'}) && NoneIn(mid, {'\n'}) && NoneIn(end, {'\n'}) && NoneIn(duration, {'\n'})
    ensures Lines(ReportLine(pre, mid, end, duration)) == [ReportLine(pre, mid, end, duration)]
  {
    var line := ReportLine(pre, mid, end, duration);
    forall k | 0 <= k < |line| ensures line[k] != '\n' {
      var markers := SilenceTag + EndField + DurationField;
      assert forall c :: c in markers ==> c != '\n';
      assert line[k] in pre || line[k] in mid || line[k] in end || line[k] in duration || line[k] in markers;
    }
    MarkerLengths();
    LinesOfLine(line);
  }

  /** `text` reads as `whole` seconds and a five-digit fraction. */
  lemma FiveDigitSeconds(w: string, f: string, whole: nat, frac: nat)
    requires whole < 10 && 10_000 <= frac < 100_000
    requires w == NatToString(whole) && f == NatToString(frac)
    ensures ParseSeconds(w + "." + f) == Some(whole * NanosPerSecond + frac * 10_000)
  {
    NatToStringValue(whole);
    FiveDigitFraction(frac);
    SecondsToken(w, f);
  }

  /** Five fraction digits are that many hundred-thousandths of a second. */
  lemma FiveDigitFraction(frac: nat)
    requires 10_000 <= frac < 100_000
    ensures FractionNanos(NatToString(frac)) == frac * 10_000
  {
    var f := NatToString(frac);
    NatToStringValue(frac);
    assert Pow10(4) == 10_000 && Pow10(5) == 100_000;
    NatToStringLength(frac, 4);
    assert 9 - |f| == 4;
  }

  /** The two fields of the source's test line read as 3.38717 s to 5.49354 s. */
  lemma ExampleInterval(end: string, duration: string)
    requires end == "5.49354" && duration == "2.10637"
    ensures IntervalOf((end, duration)) == Ok(Interval(3_387_170_000, 5_493_540_000))
  {
    assert NatToString(5) == "5" && NatToString(49354) == "49354";
    assert NatToString(2) == "2" && NatToString(10637) == "10637";
    assert end == "5" + "." + "49354";
    assert duration == "2" + "." + "10637";
    FiveDigitSeconds("5", "49354", 5, 49354);
    FiveDigitSeconds("2", "10637", 2, 10637);
  }

  /** The report line of the source's own test: a silence that ends at
      5.49354 s after lasting 2.10637 s spans 3.38717 s to 5.49354 s. */
  lemma SilenceExample(line: string, mid: string, end: string, duration: string)
    requires mid == " @ 0x5581d9e3e4c0] " && end == "5.49354" && duration == "2.10637"
    requires line == ReportLine("", mid, end, duration)
    ensures SilenceIntervals(Ran(line)) == Ok([Interval(3_387_170_000, 5_493_540_000)])
  {
    assert NoneIn(mid, {'s'}) && NoneIn(mid, {'\n'});
    assert NoneIn(end, {'\n'}) && NoneIn(duration, {'\n'}) && NoneIn(end, {'|'});
    SilenceCaptureOfReport("", mid, end, duration);
    ReportLineIsOneLine("", mid, end, duration);
    ExampleInterval(end, duration);
    SingleReport(line, (end, duration), Interval(3_387_170_000, 5_493_540_000));
  }

  /** A report of one matching line gives that line's interval. */
  lemma SingleReport(text: string, c: (string, string), x: Interval)
    requires Lines(text) == [text] && SilenceCapture(text) == Some(c) && IntervalOf(c) == Ok(x)
    ensures SilenceIntervals(Ran(text)) == Ok([x])
  {
    assert Captures([text]) == Captures([]) + CaptureList(text);
    assert Captures(Lines(text)) == [c];
    assert [c][..0] == [];
    assert Collect([c], IntervalOf) == Ok([] + [x]);
    assert [] + [x] == [x];
  }
}
