/** The actions of the speech-opt window that drive the ffmpeg helpers
    (`speech-opt/src/main.rs`): counting the pieces after a silence scan,
    copying the subtitle texts, and combining the recording with the subtitle
    table, which cuts the recording at its silences, times each clip either by
    the recording or by the subtitles, mixes the clips back into one file and
    writes a subtitle cue for each. */
module Combine {
  import opened Basics
  import opened Text
  import opened TimeParse
  import opened Silence
  import opened Pieces
  import opened Cut
  import opened Mix

  /** Where a clip's start or length is taken from. */
  datatype ItemType = Audio | Subtitle

  /** The `#[repr(i32)]` discriminant of each item type. */
  function Discriminant(t: ItemType): int {
    match t
    case Audio => 0
    case Subtitle => 1
  }

  /** `ItemType::from(i32)`: 1 is the recording, every other value the
      subtitles. */
  function ItemTypeFrom(value: int): (t: ItemType)
    ensures t == Audio <==> value == 1
  {
    match value
    case 0 => Subtitle
    case 1 => Audio
    case _ => Subtitle
  }

  /** The conversion does not invert the discriminant: it swaps the two
      types, so converting twice gives the type back. */
  lemma ItemTypeFromSwaps(t: ItemType)
    ensures ItemTypeFrom(Discriminant(t)) != t
    ensures ItemTypeFrom(Discriminant(ItemTypeFrom(Discriminant(t)))) == t
  {
  }

  /** Take the value that `which` names. */
  function Pick<T>(which: ItemType, audio: T, subtitle: T): T {
    match which
    case Audio => audio
    case Subtitle => subtitle
  }

  function Min(a: nat, b: nat): nat {
    if a < b then a else b
  }

  /** Whether combining goes on: the counts match, or the user answered the
      mismatch question with button 0 ("Yes"); closing the question without
      an answer counts as button 1. */
  function Proceeds(audioLen: nat, subLen: nat, choice: Option<int>): (go: bool)
    ensures go <==> audioLen == subLen || choice == Some(0)
  {
    audioLen == subLen || (match choice case None => 1 case Some(c) => c) == 0
  }

  /** One subtitle row read from the table: where it starts, how long it
      lasts, and its text. */
  datatype SubEntry = SubEntry(start: Duration, duration: Duration, text: string)

  /** Reading one table row: its first three cells are taken (a missing cell
      panics), then the start and the end are parsed (a failure is
      unwrapped), and the length is `end - start` (which panics when the end
      comes first). */
  function ParseRow(row: seq<string>): (r: Result<SubEntry>)
    ensures r.Ok? <==> 3 <= |row| && ParseTimestamp(row[0]).Ok? && ParseTimestamp(row[1]).Ok?
                       && ParseTimestamp(row[0]).value <= ParseTimestamp(row[1]).value
    ensures r.Ok? ==> 3 <= |row| && ParseTimestamp(row[0]) == Ok(r.value.start)
                      && ParseTimestamp(row[1]).Ok? && ParseTimestamp(row[1]).value == r.value.start + r.value.duration
                      && r.value.text == row[2]
    ensures |row| < 3 ==> r == Err(CellMissing)
  {
    if |row| < 3 then Err(CellMissing)
    else
      match ParseTimestamp(row[0])
      case Err(e) => Err(e)
      case Ok(start) =>
        match ParseTimestamp(row[1])
        case Err(e) => Err(e)
        case Ok(end) =>
          if end < start then Err(DurationUnderflow)
          else Ok(SubEntry(start, end - start, row[2]))
  }

  /** Read every row of the table in order; the first row that cannot be
      read ends the run. */
  method ParseSubRows(rows: seq<seq<string>>) returns (r: Result<seq<SubEntry>>)
    ensures r == Collect(rows, ParseRow)
  {
    var subInfo: seq<SubEntry> := [];
    var i := 0;
    while i < |rows|
      invariant 0 <= i <= |rows|
      invariant Collect(rows[..i], ParseRow) == Ok(subInfo)
    {
      CollectStep(rows, ParseRow, i, subInfo);
      var entry := ParseRow(rows[i]);
      if entry.Err? {
        CollectFailureStays(rows, ParseRow, i + 1);
        return Err(entry.error);
      }
      subInfo := subInfo + [entry.value];
      i := i + 1;
    }
    assert rows[..i] == rows;
    return Ok(subInfo);
  }

  /** A subtitle cue: its number, start and end in whole milliseconds, and
      its text. */
  datatype Cue = Cue(num: nat, startMillis: nat, endMillis: nat, text: string)

  /** Where clip `i` goes in the mix: at the chosen start. */
  function JoinInfo(clips: seq<Clip>, subs: seq<SubEntry>, startFrom: ItemType): (info: seq<(Duration, string)>)
    ensures |info| == Min(|clips|, |subs|)
  {
    seq(Min(|clips|, |subs|), i requires 0 <= i < Min(|clips|, |subs|) =>
      (Pick(startFrom, clips[i].start, subs[i].start), clips[i].path))
  }

  /** Cue `i`: from the chosen start to the chosen start plus the chosen
      length, with the text of row `i`. */
  function CueAt(i: nat, clip: Clip, sub: SubEntry, startFrom: ItemType, durationFrom: ItemType): Cue {
    var start := Pick(startFrom, clip.start, sub.start);
    var duration := Pick(durationFrom, clip.duration, sub.duration);
    Cue(i, AsMillis(start), AsMillis(start + duration), sub.text)
  }

  function Cues(clips: seq<Clip>, subs: seq<SubEntry>, startFrom: ItemType, durationFrom: ItemType): (cues: seq<Cue>)
    ensures |cues| == Min(|clips|, |subs|)
  {
    seq(Min(|clips|, |subs|), i requires 0 <= i < Min(|clips|, |subs|) =>
      CueAt(i, clips[i], subs[i], startFrom, durationFrom))
  }

  /** The pairing loop: for each of the first `count` clips and rows, choose
      the start and the length, note where the clip goes in the mix, and
      write its cue. */
  method Reconcile(clips: seq<Clip>, subs: seq<SubEntry>, count: nat, startFrom: ItemType, durationFrom: ItemType)
    returns (joinInfo: seq<(Duration, string)>, cues: seq<Cue>)
    requires count == Min(|clips|, |subs|)
    ensures joinInfo == JoinInfo(clips, subs, startFrom)
    ensures cues == Cues(clips, subs, startFrom, durationFrom)
  {
    joinInfo, cues := [], [];
    var i := 0;
    while i < count
      invariant 0 <= i <= count
      invariant |joinInfo| == i && |cues| == i
      invariant forall k :: 0 <= k < i ==> joinInfo[k] == JoinInfo(clips, subs, startFrom)[k]
      invariant forall k :: 0 <= k < i ==> cues[k] == Cues(clips, subs, startFrom, durationFrom)[k]
    {
      var clip, sub := clips[i], subs[i];
      var start := match startFrom case Audio => clip.start case Subtitle => sub.start;
      var duration := match durationFrom case Audio => clip.duration case Subtitle => sub.duration;
      joinInfo := joinInfo + [(start, clip.path)];
      var startTime := AsMillis(start);
      var endTime := AsMillis(start + duration);
      cues := cues + [Cue(i, startTime, endTime, sub.text)];
      i := i + 1;
    }
  }

  /** Where the clips are written. */
  const TempDir: string := "./temp"

  /** Where the mixed recording is written. */
  const ResultAudio: string := "./result.mp3"

  /** How a combine request ends: the user declined the count mismatch, a
      step panicked, or the mix was run with these arguments and these cues
      were made. */
  datatype Outcome =
    | Declined
    | Panicked(error: Error)
    | Combined(mixArgs: seq<string>, cues: seq<Cue>)

  /** What a combine request does. The silence scan, the length probe, the
      cuts and the mix are the ffmpeg runs; `choice` is the answer the user
      would give to the mismatch question. Every failure is unwrapped, so it
      ends the request as a panic. */
  function CombineOutcome(silenceRun: ToolRun, lengthRun: ToolRun, audio: string, rows: seq<seq<string>>,
                          choice: Option<int>, startFrom: ItemType, durationFrom: ItemType,
                          cutStarted: nat -> bool, mixStarted: bool): Outcome
  {
    match AudioPieces(silenceRun, lengthRun)
    case Err(e) => Panicked(e)
    case Ok(pieces) => CombineFrom(pieces, audio, rows, choice, startFrom, durationFrom, cutStarted, mixStarted)
  }

  /** What a combine request does once the pieces are found. */
  function CombineFrom(pieces: seq<Interval>, audio: string, rows: seq<seq<string>>,
                       choice: Option<int>, startFrom: ItemType, durationFrom: ItemType,
                       cutStarted: nat -> bool, mixStarted: bool): Outcome
  {
    if !Proceeds(|pieces|, |rows|, choice) then Declined
    else
      match CutPlan(audio, pieces, TempDir, cutStarted)
      case Err(e) => Panicked(e)
      case Ok(clips) =>
        match Collect(rows, ParseRow)
        case Err(e) => Panicked(e)
        case Ok(subs) =>
          if !mixStarted then Panicked(SpawnFailed)
          else Combined(MixArgs(JoinInfo(clips, subs, startFrom), ResultAudio), Cues(clips, subs, startFrom, durationFrom))
  }

  /** The `StartCombine` action: find the pieces, ask when their count differs
      from the table's, cut the clips, read the table, pair clips with rows,
      and mix. */
  method StartCombine(silenceRun: ToolRun, lengthRun: ToolRun, audio: string, rows: seq<seq<string>>,
                      choice: Option<int>, startFrom: ItemType, durationFrom: ItemType,
                      cutStarted: nat -> bool, mixStarted: bool)
    returns (outcome: Outcome)
    ensures outcome == CombineOutcome(silenceRun, lengthRun, audio, rows, choice, startFrom, durationFrom, cutStarted, mixStarted)
  {
    var audioPieces := GetAudioPieces(silenceRun, lengthRun);
    if audioPieces.Err? {
      return Panicked(audioPieces.error);
    }
    outcome := CombinePieces(audioPieces.value, audio, rows, choice, startFrom, durationFrom, cutStarted, mixStarted);
  }

  /** The rest of the action once the pieces are found. */
  method CombinePieces(pieces: seq<Interval>, audio: string, rows: seq<seq<string>>,
                       choice: Option<int>, startFrom: ItemType, durationFrom: ItemType,
                       cutStarted: nat -> bool, mixStarted: bool)
    returns (outcome: Outcome)
    ensures outcome == CombineFrom(pieces, audio, rows, choice, startFrom, durationFrom, cutStarted, mixStarted)
  {
    var audioLen, subLen := |pieces|, |rows|;
    if audioLen != subLen {
      var answer := match choice case None => 1 case Some(c) => c;
      if answer != 0 {
        return Declined;
      }
    }
    var resultCount := Min(audioLen, subLen);
    var audioInfo := CutAudio2(audio, pieces, TempDir, cutStarted);
    if audioInfo.Err? {
      return Panicked(audioInfo.error);
    }
    var subInfo := ParseSubRows(rows);
    if subInfo.Err? {
      return Panicked(subInfo.error);
    }
    var joinInfo, cues := Reconcile(audioInfo.value, subInfo.value, resultCount, startFrom, durationFrom);
    var command, joined := JoinAudios(joinInfo, ResultAudio, mixStarted);
    if joined.Err? {
      return Panicked(joined.error);
    }
    return Combined(command.args, cues);
  }

  /** The request is declined exactly when the pieces were found, their count
      differs from the table's, and the answer was not "Yes". */
  lemma DeclinedExactly(silenceRun: ToolRun, lengthRun: ToolRun, audio: string, rows: seq<seq<string>>,
                        choice: Option<int>, startFrom: ItemType, durationFrom: ItemType,
                        cutStarted: nat -> bool, mixStarted: bool)
    ensures CombineOutcome(silenceRun, lengthRun, audio, rows, choice, startFrom, durationFrom, cutStarted, mixStarted).Declined?
        <==> AudioPieces(silenceRun, lengthRun).Ok? && |AudioPieces(silenceRun, lengthRun).value| != |rows|
             && choice != Some(0)
  {
    if AudioPieces(silenceRun, lengthRun).Ok? {
      DeclinedFrom(AudioPieces(silenceRun, lengthRun).value, audio, rows, choice, startFrom, durationFrom, cutStarted, mixStarted);
    }
  }

  lemma DeclinedFrom(pieces: seq<Interval>, audio: string, rows: seq<seq<string>>,
                     choice: Option<int>, startFrom: ItemType, durationFrom: ItemType,
                     cutStarted: nat -> bool, mixStarted: bool)
    ensures CombineFrom(pieces, audio, rows, choice, startFrom, durationFrom, cutStarted, mixStarted).Declined?
        <==> |pieces| != |rows| && choice != Some(0)
  {
  }

  /** A combined request pairs as many clips as both sides have: it makes
      that many cues, numbered in order and carrying the rows' texts, and mixes
      that many clips, clip `i` being the one cut for piece `i`, into
      `./result.mp3`. */
  lemma CombinedShape(silenceRun: ToolRun, lengthRun: ToolRun, audio: string, rows: seq<seq<string>>,
                      choice: Option<int>, startFrom: ItemType, durationFrom: ItemType,
                      cutStarted: nat -> bool, mixStarted: bool)
    requires CombineOutcome(silenceRun, lengthRun, audio, rows, choice, startFrom, durationFrom, cutStarted, mixStarted).Combined?
    ensures AudioPieces(silenceRun, lengthRun).Ok? && FileName(audio).Some?
    ensures var n := Min(|AudioPieces(silenceRun, lengthRun).value|, |rows|);
            var o := CombineOutcome(silenceRun, lengthRun, audio, rows, choice, startFrom, durationFrom, cutStarted, mixStarted);
            |o.cues| == n && |o.mixArgs| == 2 * n + 4 && o.mixArgs[2 * n + 3] == ResultAudio
            && (forall i :: 0 <= i < n ==>
                  (|rows[i]| >= 3 && o.cues[i].num == i && o.cues[i].text == rows[i][2]
                   && o.mixArgs[2 * i + 2] == TempPath(TempDir, FileName(audio).value, i)))
  {
    var pieces := AudioPieces(silenceRun, lengthRun).value;
    CombinedShapeFrom(pieces, audio, rows, choice, startFrom, durationFrom, cutStarted, mixStarted);
  }

  lemma CombinedShapeFrom(pieces: seq<Interval>, audio: string, rows: seq<seq<string>>,
                          choice: Option<int>, startFrom: ItemType, durationFrom: ItemType,
                          cutStarted: nat -> bool, mixStarted: bool)
    requires CombineFrom(pieces, audio, rows, choice, startFrom, durationFrom, cutStarted, mixStarted).Combined?
    ensures FileName(audio).Some?
    ensures var n := Min(|pieces|, |rows|);
            var o := CombineFrom(pieces, audio, rows, choice, startFrom, durationFrom, cutStarted, mixStarted);
            |o.cues| == n && |o.mixArgs| == 2 * n + 4 && o.mixArgs[2 * n + 3] == ResultAudio
            && (forall i :: 0 <= i < n ==>
                  (|rows[i]| >= 3 && o.cues[i].num == i && o.cues[i].text == rows[i][2]
                   && o.mixArgs[2 * i + 2] == TempPath(TempDir, FileName(audio).value, i)))
  {
    var name, clips, subs := CombinedFrom(pieces, audio, rows, choice, startFrom, durationFrom, cutStarted, mixStarted);
    var info, cues := JoinInfo(clips, subs, startFrom), Cues(clips, subs, startFrom, durationFrom);
    var args := MixArgs(info, ResultAudio);
    MixArgsLayout(info, ResultAudio);
    forall i | 0 <= i < |info|
      ensures |rows[i]| >= 3 && cues[i].num == i && cues[i].text == rows[i][2]
      ensures args[2 * i + 2] == TempPath(TempDir, name, i)
    {
      PairedItem(pieces, name, cutStarted, clips, rows, subs, startFrom, durationFrom, i);
    }
  }

  /** Item `i` pairs clip `i`, cut for piece `i`, with row `i`. */
  lemma PairedItem(pieces: seq<Interval>, name: string, cutStarted: nat -> bool, clips: seq<Clip>,
                   rows: seq<seq<string>>, subs: seq<SubEntry>, startFrom: ItemType, durationFrom: ItemType, i: nat)
    requires CutClips(pieces, name, TempDir, cutStarted) == Ok(clips) && Collect(rows, ParseRow) == Ok(subs)
    requires i < Min(|clips|, |subs|)
    ensures |rows[i]| >= 3 && Cues(clips, subs, startFrom, durationFrom)[i].num == i
    ensures Cues(clips, subs, startFrom, durationFrom)[i].text == rows[i][2]
    ensures JoinInfo(clips, subs, startFrom)[i].1 == TempPath(TempDir, name, i)
  {
    ClipAt(pieces, name, cutStarted, clips, i);
    SubAt(rows, subs, i);
  }

  /** The values a combined request was built from. */
  lemma CombinedParts(silenceRun: ToolRun, lengthRun: ToolRun, audio: string, rows: seq<seq<string>>,
                      choice: Option<int>, startFrom: ItemType, durationFrom: ItemType,
                      cutStarted: nat -> bool, mixStarted: bool)
    returns (pieces: seq<Interval>, name: string, clips: seq<Clip>, subs: seq<SubEntry>)
    requires CombineOutcome(silenceRun, lengthRun, audio, rows, choice, startFrom, durationFrom, cutStarted, mixStarted).Combined?
    ensures AudioPieces(silenceRun, lengthRun) == Ok(pieces)
    ensures FileName(audio) == Some(name) && CutClips(pieces, name, TempDir, cutStarted) == Ok(clips)
    ensures Collect(rows, ParseRow) == Ok(subs)
    ensures CombineOutcome(silenceRun, lengthRun, audio, rows, choice, startFrom, durationFrom, cutStarted, mixStarted)
            == Combined(MixArgs(JoinInfo(clips, subs, startFrom), ResultAudio), Cues(clips, subs, startFrom, durationFrom))
  {
    pieces := AudioPieces(silenceRun, lengthRun).value;
    name, clips, subs := CombinedFrom(pieces, audio, rows, choice, startFrom, durationFrom, cutStarted, mixStarted);
  }

  lemma CombinedFrom(pieces: seq<Interval>, audio: string, rows: seq<seq<string>>,
                     choice: Option<int>, startFrom: ItemType, durationFrom: ItemType,
                     cutStarted: nat -> bool, mixStarted: bool)
    returns (name: string, clips: seq<Clip>, subs: seq<SubEntry>)
    requires CombineFrom(pieces, audio, rows, choice, startFrom, durationFrom, cutStarted, mixStarted).Combined?
    ensures FileName(audio) == Some(name) && CutClips(pieces, name, TempDir, cutStarted) == Ok(clips)
    ensures Collect(rows, ParseRow) == Ok(subs)
    ensures CombineFrom(pieces, audio, rows, choice, startFrom, durationFrom, cutStarted, mixStarted)
            == Combined(MixArgs(JoinInfo(clips, subs, startFrom), ResultAudio), Cues(clips, subs, startFrom, durationFrom))
  {
    name := FileName(audio).value;
    clips := CutClips(pieces, name, TempDir, cutStarted).value;
    subs := Collect(rows, ParseRow).value;
  }

  /** Clip `i` of a successful cut is piece `i`. */
  lemma ClipAt(pieces: seq<Interval>, name: string, cutStarted: nat -> bool, clips: seq<Clip>, i: nat)
    requires CutClips(pieces, name, TempDir, cutStarted) == Ok(clips) && i < |pieces|
    ensures pieces[i].start <= pieces[i].end
    ensures clips[i] == Clip(pieces[i].start, pieces[i].end - pieces[i].start, TempPath(TempDir, name, i))
  {
    CutClipsAllCut(pieces, name, TempDir, cutStarted);
  }

  /** Entry `i` of a successful table read is row `i` read. */
  lemma SubAt(rows: seq<seq<string>>, subs: seq<SubEntry>, i: nat)
    requires Collect(rows, ParseRow) == Ok(subs) && i < |rows|
    ensures ParseRow(rows[i]) == Ok(subs[i])
  {
    CollectAllOk(rows, ParseRow);
  }

  /** Item `i` of a combined request: its start is piece `i`'s start or row
      `i`'s start as `startFrom` says, its length is the piece's or the row's
      as `durationFrom` says; the cue runs from that start to that start plus
      that length, and the mix delays input `i` by that start. */
  lemma ChosenTiming(silenceRun: ToolRun, lengthRun: ToolRun, audio: string, rows: seq<seq<string>>,
                     choice: Option<int>, startFrom: ItemType, durationFrom: ItemType,
                     cutStarted: nat -> bool, mixStarted: bool, i: nat)
    requires CombineOutcome(silenceRun, lengthRun, audio, rows, choice, startFrom, durationFrom, cutStarted, mixStarted).Combined?
    requires i < |CombineOutcome(silenceRun, lengthRun, audio, rows, choice, startFrom, durationFrom, cutStarted, mixStarted).cues|
    ensures AudioPieces(silenceRun, lengthRun).Ok? && i < |AudioPieces(silenceRun, lengthRun).value|
    ensures i < |rows| && ParseRow(rows[i]).Ok?
    ensures var piece := AudioPieces(silenceRun, lengthRun).value[i];
            var sub := ParseRow(rows[i]).value;
            var start := Pick(startFrom, piece.start, sub.start);
            var duration := Pick(durationFrom, piece.end - piece.start, sub.duration);
            var o := CombineOutcome(silenceRun, lengthRun, audio, rows, choice, startFrom, durationFrom, cutStarted, mixStarted);
            piece.start <= piece.end
            && o.cues[i] == Cue(i, AsMillis(start), AsMillis(start + duration), sub.text)
            && |o.mixArgs| == 2 * |o.cues| + 4
            && i < |Split(o.mixArgs[2 * |o.cues| + 2], {';'})|
            && Split(o.mixArgs[2 * |o.cues| + 2], {';'})[i] == DelayPart(i, start)
  {
    var pieces := AudioPieces(silenceRun, lengthRun).value;
    ChosenTimingFrom(pieces, audio, rows, choice, startFrom, durationFrom, cutStarted, mixStarted, i);
  }

  lemma ChosenTimingFrom(pieces: seq<Interval>, audio: string, rows: seq<seq<string>>,
                         choice: Option<int>, startFrom: ItemType, durationFrom: ItemType,
                         cutStarted: nat -> bool, mixStarted: bool, i: nat)
    requires CombineFrom(pieces, audio, rows, choice, startFrom, durationFrom, cutStarted, mixStarted).Combined?
    requires i < |CombineFrom(pieces, audio, rows, choice, startFrom, durationFrom, cutStarted, mixStarted).cues|
    ensures i < |pieces| && i < |rows| && ParseRow(rows[i]).Ok?
    ensures var sub := ParseRow(rows[i]).value;
            var start := Pick(startFrom, pieces[i].start, sub.start);
            var duration := Pick(durationFrom, pieces[i].end - pieces[i].start, sub.duration);
            var o := CombineFrom(pieces, audio, rows, choice, startFrom, durationFrom, cutStarted, mixStarted);
            pieces[i].start <= pieces[i].end
            && o.cues[i] == Cue(i, AsMillis(start), AsMillis(start + duration), sub.text)
            && |o.mixArgs| == 2 * |o.cues| + 4
            && i < |Split(o.mixArgs[2 * |o.cues| + 2], {';'})|
            && Split(o.mixArgs[2 * |o.cues| + 2], {';'})[i] == DelayPart(i, start)
  {
    var name, clips, subs := CombinedFrom(pieces, audio, rows, choice, startFrom, durationFrom, cutStarted, mixStarted);
    CueTiming(pieces, name, cutStarted, clips, rows, subs, startFrom, durationFrom, i);
    DelayTiming(pieces, name, cutStarted, clips, rows, subs, startFrom, i);
  }

  /** Cue `i` takes the chosen start and length of clip `i` and row `i`. */
  lemma CueTiming(pieces: seq<Interval>, name: string, cutStarted: nat -> bool, clips: seq<Clip>,
                  rows: seq<seq<string>>, subs: seq<SubEntry>, startFrom: ItemType, durationFrom: ItemType, i: nat)
    requires CutClips(pieces, name, TempDir, cutStarted) == Ok(clips) && Collect(rows, ParseRow) == Ok(subs)
    requires i < Min(|clips|, |subs|)
    ensures i < |pieces| && i < |rows| && ParseRow(rows[i]).Ok? && pieces[i].start <= pieces[i].end
    ensures var sub := ParseRow(rows[i]).value;
            var start := Pick(startFrom, pieces[i].start, sub.start);
            var duration := Pick(durationFrom, pieces[i].end - pieces[i].start, sub.duration);
            Cues(clips, subs, startFrom, durationFrom)[i] == Cue(i, AsMillis(start), AsMillis(start + duration), sub.text)
  {
    ClipAt(pieces, name, cutStarted, clips, i);
    SubAt(rows, subs, i);
    assert Cues(clips, subs, startFrom, durationFrom)[i] == CueAt(i, clips[i], subs[i], startFrom, durationFrom);
  }

  /** The mix delays input `i` by the chosen start of clip `i` and row `i`. */
  lemma DelayTiming(pieces: seq<Interval>, name: string, cutStarted: nat -> bool, clips: seq<Clip>,
                    rows: seq<seq<string>>, subs: seq<SubEntry>, startFrom: ItemType, i: nat)
    requires CutClips(pieces, name, TempDir, cutStarted) == Ok(clips) && Collect(rows, ParseRow) == Ok(subs)
    requires i < Min(|clips|, |subs|)
    ensures i < |pieces| && i < |rows| && ParseRow(rows[i]).Ok?
    ensures var n := Min(|clips|, |subs|);
            var args := MixArgs(JoinInfo(clips, subs, startFrom), ResultAudio);
            |args| == 2 * n + 4
            && i < |Split(args[2 * n + 2], {';'})|
            && Split(args[2 * n + 2], {';'})[i] == DelayPart(i, Pick(startFrom, pieces[i].start, ParseRow(rows[i]).value.start))
  {
    ClipAt(pieces, name, cutStarted, clips, i);
    SubAt(rows, subs, i);
    var info := JoinInfo(clips, subs, startFrom);
    assert info[i].0 == Pick(startFrom, pieces[i].start, subs[i].start);
    MixDelay(info, ResultAudio, i);
  }

  /** The filter graph in the mix arguments delays input `i` by its start. */
  lemma MixDelay(info: seq<(Duration, string)>, output: string, i: nat)
    requires i < |info|
    ensures |MixArgs(info, output)| == 2 * |info| + 4
    ensures |Split(MixArgs(info, output)[2 * |info| + 2], {';'})| == |info| + 1
    ensures Split(MixArgs(info, output)[2 * |info| + 2], {';'})[i] == DelayPart(i, info[i].0)
  {
    MixArgsLayout(info, output);
    FilterGraphParts(info);
  }

  /** Every row of the table is read, not only the ones paired with a clip:
      one row that cannot be read stops the request before anything is
      mixed. */
  lemma AnyBadRowPanics(silenceRun: ToolRun, lengthRun: ToolRun, audio: string, rows: seq<seq<string>>,
                        choice: Option<int>, startFrom: ItemType, durationFrom: ItemType,
                        cutStarted: nat -> bool, mixStarted: bool, k: nat)
    requires k < |rows| && ParseRow(rows[k]).Err?
    ensures !CombineOutcome(silenceRun, lengthRun, audio, rows, choice, startFrom, durationFrom, cutStarted, mixStarted).Combined?
  {
    CollectAllOk(rows, ParseRow);
  }

  /** Timed by the recording, cue `i` spans piece `i` of the recording, to
      the millisecond. */
  lemma AudioTiming(silenceRun: ToolRun, lengthRun: ToolRun, audio: string, rows: seq<seq<string>>,
                    choice: Option<int>, cutStarted: nat -> bool, mixStarted: bool, i: nat)
    requires CombineOutcome(silenceRun, lengthRun, audio, rows, choice, Audio, Audio, cutStarted, mixStarted).Combined?
    requires i < |CombineOutcome(silenceRun, lengthRun, audio, rows, choice, Audio, Audio, cutStarted, mixStarted).cues|
    ensures AudioPieces(silenceRun, lengthRun).Ok? && i < |AudioPieces(silenceRun, lengthRun).value|
    ensures CombineOutcome(silenceRun, lengthRun, audio, rows, choice, Audio, Audio, cutStarted, mixStarted).cues[i].startMillis
            == AsMillis(AudioPieces(silenceRun, lengthRun).value[i].start)
    ensures CombineOutcome(silenceRun, lengthRun, audio, rows, choice, Audio, Audio, cutStarted, mixStarted).cues[i].endMillis
            == AsMillis(AudioPieces(silenceRun, lengthRun).value[i].end)
  {
    var pieces, name, clips, subs := CombinedParts(silenceRun, lengthRun, audio, rows, choice, Audio, Audio, cutStarted, mixStarted);
    ClipAt(pieces, name, cutStarted, clips, i);
    assert Cues(clips, subs, Audio, Audio)[i] == CueAt(i, clips[i], subs[i], Audio, Audio);
  }

  /** A row written as two cue timestamps reads back as a subtitle from the
      first time to the second. */
  lemma RowOfCueTimestamps(row: seq<string>, startMillis: nat, endMillis: nat, text: string)
    requires startMillis < U64Limit && endMillis < U64Limit
    requires row == [CueTimestamp(startMillis), CueTimestamp(endMillis), text]
    requires ParseRow(row).Ok?
    ensures ParseRow(row).value.start == FromMillis(startMillis)
    ensures ParseRow(row).value.start + ParseRow(row).value.duration == FromMillis(endMillis)
    ensures ParseRow(row).value.text == text
    ensures AsMillis(ParseRow(row).value.start) == startMillis
    ensures AsMillis(ParseRow(row).value.start + ParseRow(row).value.duration) == endMillis
  {
    CueTimestampRoundTrip(startMillis);
    CueTimestampRoundTrip(endMillis);
  }

  /** Timed by the subtitles, a row written as two cue timestamps gives back
      a cue with those very times: reading a timestamp and writing whole
      milliseconds are inverse. */
  lemma SubtitleTiming(silenceRun: ToolRun, lengthRun: ToolRun, audio: string, rows: seq<seq<string>>,
                       choice: Option<int>, cutStarted: nat -> bool, mixStarted: bool, i: nat,
                       startMillis: nat, endMillis: nat, text: string)
    requires CombineOutcome(silenceRun, lengthRun, audio, rows, choice, Subtitle, Subtitle, cutStarted, mixStarted).Combined?
    requires i < |CombineOutcome(silenceRun, lengthRun, audio, rows, choice, Subtitle, Subtitle, cutStarted, mixStarted).cues|
    requires startMillis < U64Limit && endMillis < U64Limit
    requires rows[i] == [CueTimestamp(startMillis), CueTimestamp(endMillis), text]
    ensures CombineOutcome(silenceRun, lengthRun, audio, rows, choice, Subtitle, Subtitle, cutStarted, mixStarted).cues[i]
            == Cue(i, startMillis, endMillis, text)
  {
    var pieces, name, clips, subs := CombinedParts(silenceRun, lengthRun, audio, rows, choice, Subtitle, Subtitle, cutStarted, mixStarted);
    SubAt(rows, subs, i);
    assert Cues(clips, subs, Subtitle, Subtitle)[i] == CueAt(i, clips[i], subs[i], Subtitle, Subtitle);
    SubtitleCue(rows[i], subs[i], clips[i], i, startMillis, endMillis, text);
  }

  lemma SubtitleCue(row: seq<string>, sub: SubEntry, clip: Clip, i: nat, startMillis: nat, endMillis: nat, text: string)
    requires startMillis < U64Limit && endMillis < U64Limit
    requires row == [CueTimestamp(startMillis), CueTimestamp(endMillis), text] && ParseRow(row) == Ok(sub)
    ensures CueAt(i, clip, sub, Subtitle, Subtitle) == Cue(i, startMillis, endMillis, text)
  {
    RowOfCueTimestamps(row, startMillis, endMillis, text);
  }

  /** How a silence scan ends: the piece count is shown, the error the scan
      returned is printed and the tool goes on, or the scan panicked and the
      tool ends. */
  datatype ScanShown =
    | Shown(count: string)
    | Printed(error: Error)
    | Aborted(error: Error)

  /** The piece count shown after a silence scan: one more than the number of
      silences. A returned error is printed; a panic inside the scan is not
      caught. */
  method SegmentCount(run: ToolRun) returns (shown: ScanShown)
    ensures shown.Shown? <==> SilenceIntervals(run).Ok?
    ensures shown.Shown? ==> AllDigits(shown.count) && DigitsValue(shown.count) == |SilenceIntervals(run).value| + 1
    ensures shown.Printed? <==> SilenceIntervals(run).Err? && !SilenceIntervals(run).error.IsPanic()
    ensures shown.Aborted? <==> SilenceIntervals(run).Err? && SilenceIntervals(run).error.IsPanic()
    ensures !shown.Shown? ==> shown.error == SilenceIntervals(run).error
  {
    var silence := DetectSilence(run);
    if silence.Err? {
      if silence.error.IsPanic() {
        return Aborted(silence.error);
      }
      return Printed(silence.error);
    }
    var audioCount := |silence.value| + 1;
    NatToStringValue(audioCount);
    return Shown(NatToString(audioCount));
  }

  /** The count shown is the number of pieces the recording is cut into. */
  lemma CountIsPieces(silenceRun: ToolRun, lengthRun: ToolRun)
    requires AudioPieces(silenceRun, lengthRun).Ok?
    ensures SilenceIntervals(silenceRun).Ok?
    ensures |AudioPieces(silenceRun, lengthRun).value| == |SilenceIntervals(silenceRun).value| + 1
  {
    PiecesAreGaps(SilenceIntervals(silenceRun).value, AudioDuration(lengthRun).value);
  }

  /** The third cell of each row that has one, in row order. */
  function Texts(rows: seq<seq<string>>): (texts: seq<string>)
    ensures |texts| <= |rows|
  {
    if rows == [] then []
    else
      var n := |rows| - 1;
      Texts(rows[..n]) + (if 3 <= |rows[n]| then [rows[n][2]] else [])
  }

  /** Every text collected is the third cell of some row. */
  lemma {:induction false} TextsFromRows(rows: seq<seq<string>>)
    ensures forall t :: t in Texts(rows) ==> exists i :: 0 <= i < |rows| && 3 <= |rows[i]| && rows[i][2] == t
  {
    if rows != [] {
      var n := |rows| - 1;
      TextsFromRows(rows[..n]);
      forall t | t in Texts(rows)
        ensures exists i :: 0 <= i < |rows| && 3 <= |rows[i]| && rows[i][2] == t
      {
        if t in Texts(rows[..n]) {
          var i :| 0 <= i < n && 3 <= |rows[..n][i]| && rows[..n][i][2] == t;
          assert rows[i] == rows[..n][i];
        } else {
          assert 3 <= |rows[n]| && rows[n][2] == t;
        }
      }
    }
  }

  /** When every row is full, the texts are exactly the third cells. */
  lemma {:induction false} TextsOfFullRows(rows: seq<seq<string>>)
    requires forall i :: 0 <= i < |rows| ==> 3 <= |rows[i]|
    ensures |Texts(rows)| == |rows|
    ensures forall i :: 0 <= i < |rows| ==> Texts(rows)[i] == rows[i][2]
  {
    if rows != [] {
      var n := |rows| - 1;
      TextsOfFullRows(rows[..n]);
      assert forall i :: 0 <= i < n ==> rows[..n][i] == rows[i];
    }
  }

  /** The `CopyToTTSMaker` action: collect the texts, one per line. */
  method CopyTexts(rows: seq<seq<string>>) returns (text: string)
    ensures text == Join(Texts(rows), "\n")
  {
    var result: seq<string> := [];
    var i := 0;
    while i < |rows|
      invariant 0 <= i <= |rows|
      invariant result == Texts(rows[..i])
    {
      assert rows[..i + 1][..i] == rows[..i];
      if 3 <= |rows[i]| {
        result := result + [rows[i][2]];
      }
      i := i + 1;
    }
    assert rows[..i] == rows;
    return Join(result, "\n");
  }

  /** Splitting the copied text at line feeds gives the texts back, when no
      text holds a line feed. */
  lemma CopiedTextsSplit(rows: seq<seq<string>>)
    requires 0 < |Texts(rows)|
    requires forall k :: 0 <= k < |Texts(rows)| ==> NoneIn(Texts(rows)[k], {'\n'})
    ensures Split(Join(Texts(rows), "\n"), {'\n'}) == Texts(rows)
  {
    SplitJoin(Texts(rows), '\n', {'\n'});
  }
}
