/** Cutting the pieces out of the recording, `cut_audio2` in
    `speech-opt/src/ffopt.rs`: piece `i` of `audio` becomes the clip
    `temp_dir/"{file name}#{i}.mp3"`, cut by one ffmpeg run per piece. */
module Cut {
  import opened Basics
  import opened Text

  /** One cut clip: where it starts in the recording, how long it lasts, and
      the file it was written to. */
  datatype Clip = Clip(start: Duration, duration: Duration, path: string)

  /** The named parts of a path split at `/`: empty parts (from repeated,
      leading or trailing separators) and `.` parts do not count, as in
      `Path::components`. */
  function Components(parts: seq<string>): seq<string> {
    if parts == [] then []
    else
      var n := |parts| - 1;
      Components(parts[..n]) + (if parts[n] == "" || parts[n] == "." then [] else [parts[n]])
  }

  /** `Path::file_name`: the last named part, unless there is none or it is
      `..`. */
  function FileName(path: string): (r: Option<string>)
    ensures r.Some? ==> PlainName(r.value)
  {
    var named := Components(Split(path, {'/'}));
    if named == [] || named[|named| - 1] == ".." then None
    else
      assert named[|named| - 1] in named;
      PartsHaveNoSlash(path);
      ComponentsAreNamed(Split(path, {'/'}));
      Some(named[|named| - 1])
  }

  lemma PartsHaveNoSlash(path: string)
    ensures forall k :: 0 <= k < |Split(path, {'/'})| ==> NoneIn(Split(path, {'/'})[k], {'/'})
  {
    forall k | 0 <= k < |Split(path, {'/'})| ensures NoneIn(Split(path, {'/'})[k], {'/'}) {
      SplitPiecesHaveNoSeparator(path, {'/'}, k);
    }
  }

  lemma {:induction false} ComponentsAreNamed(parts: seq<string>)
    requires forall k :: 0 <= k < |parts| ==> NoneIn(parts[k], {'/'})
    ensures forall x :: x in Components(parts) ==> x != "" && x != "." && NoneIn(x, {'/'})
  {
    if parts != [] {
      ComponentsAreNamed(parts[..|parts| - 1]);
    }
  }

  /** What `PathBuf::join` puts before a relative name: nothing after an empty
      directory or one that already ends in `/`, otherwise a `/`. */
  function DirPrefix(dir: string): string {
    if dir == "" || dir[|dir| - 1] == '/' then dir else dir + "/"
  }

  /** `dir.join(name)`: an absolute name replaces the directory. */
  function JoinPath(dir: string, name: string): string {
    if 0 < |name| && name[0] == '/' then name else DirPrefix(dir) + name
  }

  /** `format!("{}#{}.mp3", file_name, i)`. */
  function TempName(fileName: string, i: nat): string {
    fileName + "#" + NatToString(i) + ".mp3"
  }

  function TempPath(dir: string, fileName: string, i: nat): string {
    JoinPath(dir, TempName(fileName, i))
  }

  /** A name that is one named path part. */
  predicate PlainName(name: string) {
    name != "" && name != "." && name != ".." && NoneIn(name, {'/'})
  }

  /** The clips of pieces `0..|pieces|`, cut in order; the first piece that
      ends before it starts panics (`Duration` subtraction), and the first cut
      that cannot be started ends the run with its error. `started(i)` tells
      whether the ffmpeg process for piece `i` could be started. */
  function CutClips(pieces: seq<Interval>, fileName: string, tempDir: string, started: nat -> bool): (r: Result<seq<Clip>>)
    ensures r.Ok? ==> |r.value| == |pieces|
  {
    if pieces == [] then Ok([])
    else
      var n := |pieces| - 1;
      match CutClips(pieces[..n], fileName, tempDir, started)
      case Err(e) => Err(e)
      case Ok(done) =>
        var piece := pieces[n];
        if piece.end < piece.start then Err(DurationUnderflow)
        else if !started(n) then Err(SpawnFailed)
        else Ok(done + [Clip(piece.start, piece.end - piece.start, TempPath(tempDir, fileName, n))])
  }

  /** What `cut_audio2` returns; the file name is taken (and unwrapped) before
      any piece is looked at. */
  function CutPlan(audio: string, pieces: seq<Interval>, tempDir: string, started: nat -> bool): Result<seq<Clip>> {
    match FileName(audio)
    case None => Err(NoFileName)
    case Some(name) => CutClips(pieces, name, tempDir, started)
  }

  /** A piece that can be cut: it does not run backwards and its process
      starts. */
  predicate Cuttable(pieces: seq<Interval>, started: nat -> bool, i: nat)
    requires i < |pieces|
  {
    pieces[i].start <= pieces[i].end && started(i)
  }

  /** Cutting succeeds exactly when every piece can be cut, and then clip `i`
      starts where piece `i` starts, lasts as long as it, and is written to
      `temp_dir/"{name}#{i}.mp3"`. */
  lemma {:induction false} CutClipsAllCut(pieces: seq<Interval>, fileName: string, tempDir: string, started: nat -> bool)
    ensures CutClips(pieces, fileName, tempDir, started).Ok?
        <==> forall i :: 0 <= i < |pieces| ==> Cuttable(pieces, started, i)
    ensures CutClips(pieces, fileName, tempDir, started).Ok? ==>
              forall i :: 0 <= i < |pieces| ==>
                (Cuttable(pieces, started, i)
                 && CutClips(pieces, fileName, tempDir, started).value[i]
                    == Clip(pieces[i].start, pieces[i].end - pieces[i].start, TempPath(tempDir, fileName, i)))
  {
    if forall i :: 0 <= i < |pieces| ==> Cuttable(pieces, started, i) {
      AllCuttableCut(pieces, fileName, tempDir, started);
    }
    if CutClips(pieces, fileName, tempDir, started).Ok? {
      forall i | 0 <= i < |pieces|
        ensures Cuttable(pieces, started, i)
                && CutClips(pieces, fileName, tempDir, started).value[i]
                   == Clip(pieces[i].start, pieces[i].end - pieces[i].start, TempPath(tempDir, fileName, i))
      {
        CutClipAt(pieces, fileName, tempDir, started, i);
      }
    }
  }

  lemma {:induction false} AllCuttableCut(pieces: seq<Interval>, fileName: string, tempDir: string, started: nat -> bool)
    requires forall i :: 0 <= i < |pieces| ==> Cuttable(pieces, started, i)
    ensures CutClips(pieces, fileName, tempDir, started).Ok?
  {
    if pieces != [] {
      var n := |pieces| - 1;
      CuttableFront(pieces, started, n);
      AllCuttableCut(pieces[..n], fileName, tempDir, started);
      assert Cuttable(pieces, started, n);
    }
  }

  lemma {:induction false} CutClipAt(pieces: seq<Interval>, fileName: string, tempDir: string, started: nat -> bool, i: nat)
    requires i < |pieces| && CutClips(pieces, fileName, tempDir, started).Ok?
    ensures Cuttable(pieces, started, i)
    ensures CutClips(pieces, fileName, tempDir, started).value[i]
            == Clip(pieces[i].start, pieces[i].end - pieces[i].start, TempPath(tempDir, fileName, i))
  {
    var n := |pieces| - 1;
    var front := pieces[..n];
    assert CutClips(front, fileName, tempDir, started).Ok?;
    CutClipsLast(pieces, fileName, tempDir, started);
    if i < n {
      CutClipAt(front, fileName, tempDir, started, i);
      assert front[i] == pieces[i];
    }
  }

  /** The last piece after a front that was cut. */
  lemma CutClipsLast(pieces: seq<Interval>, fileName: string, tempDir: string, started: nat -> bool)
    requires pieces != [] && CutClips(pieces[..|pieces| - 1], fileName, tempDir, started).Ok?
    ensures var n := |pieces| - 1;
            var done := CutClips(pieces[..n], fileName, tempDir, started).value;
            CutClips(pieces, fileName, tempDir, started)
            == if Cuttable(pieces, started, n)
               then Ok(done + [Clip(pieces[n].start, pieces[n].end - pieces[n].start, TempPath(tempDir, fileName, n))])
               else Err(if pieces[n].end < pieces[n].start then DurationUnderflow else SpawnFailed)
  {
  }

  /** The front of the pieces can be cut where the whole can. */
  lemma CuttableFront(pieces: seq<Interval>, started: nat -> bool, n: nat)
    requires n <= |pieces|
    ensures forall i :: 0 <= i < n ==> pieces[..n][i] == pieces[i]
    ensures forall i :: 0 <= i < n ==> Cuttable(pieces[..n], started, i) == Cuttable(pieces, started, i)
  {
  }

  /** A failed cut reports the first piece that cannot be cut: a backwards
      piece panics, otherwise its process could not be started. */
  lemma {:induction false} CutClipsFirstFailure(pieces: seq<Interval>, fileName: string, tempDir: string, started: nat -> bool)
    requires CutClips(pieces, fileName, tempDir, started).Err?
    ensures exists k :: 0 <= k < |pieces| && !Cuttable(pieces, started, k)
                        && (forall m :: 0 <= m < k ==> Cuttable(pieces, started, m))
                        && CutClips(pieces, fileName, tempDir, started).error
                           == (if pieces[k].end < pieces[k].start then DurationUnderflow else SpawnFailed)
  {
    var n := |pieces| - 1;
    var front := pieces[..n];
    assert forall i :: 0 <= i < n ==> Cuttable(front, started, i) == Cuttable(pieces, started, i);
    CutClipsAllCut(front, fileName, tempDir, started);
    if CutClips(front, fileName, tempDir, started).Err? {
      CutClipsFirstFailure(front, fileName, tempDir, started);
      var k :| 0 <= k < n && !Cuttable(front, started, k)
               && (forall m :: 0 <= m < k ==> Cuttable(front, started, m))
               && CutClips(front, fileName, tempDir, started).error
                  == (if front[k].end < front[k].start then DurationUnderflow else SpawnFailed);
      assert front[k] == pieces[k];
    }
  }

  /** The temporary names of different pieces differ. */
  lemma TempNamesDiffer(fileName: string, i: nat, j: nat)
    requires TempName(fileName, i) == TempName(fileName, j)
    ensures i == j
  {
    var a, b := TempName(fileName, i), TempName(fileName, j);
    var di, dj := NatToString(i), NatToString(j);
    var from := |fileName| + 1;
    assert |di| == |dj|;
    assert a == (fileName + "#") + di + ".mp3";
    assert b == (fileName + "#") + dj + ".mp3";
    assert a[from..from + |di|] == di;
    assert b[from..from + |dj|] == dj;
    NatToStringInjective(i, j);
  }

  /** A temporary name is a plain name when the recording's name is. */
  lemma TempNameIsPlain(fileName: string, i: nat)
    requires PlainName(fileName)
    ensures PlainName(TempName(fileName, i))
  {
    var t := TempName(fileName, i);
    var digits := NatToString(i);
    assert t == fileName + "#" + digits + ".mp3";
    forall k | 0 <= k < |t| ensures t[k] != '/' {
      if k < |fileName| {
        assert t[k] == fileName[k];
      } else if k == |fileName| {
        assert t[k] == '#';
      } else if k < |fileName| + 1 + |digits| {
        assert t[k] == digits[k - |fileName| - 1];
        assert IsDigit(digits[k - |fileName| - 1]);
      } else {
        assert t[k] == ".mp3"[k - |fileName| - 1 - |digits|];
      }
    }
    assert t[|fileName|] == '#';
  }

  /** Different pieces are written to different files, so no clip overwrites
      another. */
  lemma TempPathsDiffer(tempDir: string, fileName: string, i: nat, j: nat)
    requires PlainName(fileName) && i != j
    ensures TempPath(tempDir, fileName, i) != TempPath(tempDir, fileName, j)
  {
    TempNameIsPlain(fileName, i);
    TempNameIsPlain(fileName, j);
    var a, b := TempName(fileName, i), TempName(fileName, j);
    assert a[0] == fileName[0] && b[0] == fileName[0];
    var p := DirPrefix(tempDir);
    if p + a == p + b {
      assert (p + a)[|p|..] == a && (p + b)[|p|..] == b;
      TempNamesDiffer(fileName, i, j);
    }
  }

  /** The clips of one cut are written to different files, each named
      `"{name}#{i}.mp3"` after the recording's file name. */
  lemma ClipPathsDiffer(audio: string, pieces: seq<Interval>, tempDir: string, started: nat -> bool, i: nat, j: nat)
    requires CutPlan(audio, pieces, tempDir, started).Ok? && i < j < |pieces|
    ensures CutPlan(audio, pieces, tempDir, started).value[i].path != CutPlan(audio, pieces, tempDir, started).value[j].path
    ensures FileName(CutPlan(audio, pieces, tempDir, started).value[i].path) == Some(TempName(FileName(audio).value, i))
  {
    var name := FileName(audio).value;
    CutClipAt(pieces, name, tempDir, started, i);
    CutClipAt(pieces, name, tempDir, started, j);
    TempPathsDiffer(tempDir, name, i, j);
    TempPathFileName(tempDir, name, i);
  }

  /** The file name of `dir.join(name)` is `name`, for a plain name. */
  lemma FileNameOfJoin(dir: string, name: string)
    requires PlainName(name)
    ensures FileName(JoinPath(dir, name)) == Some(name)
  {
    SplitWithoutSeparator(name, {'/'});
    var path := JoinPath(dir, name);
    var p := DirPrefix(dir);
    if p == "" {
      assert path == name;
    } else {
      var q := p[..|p| - 1];
      assert p == q + ['/'];
      assert path == q + ['/'] + name;
      SplitAtSeparator(q, '/', name, {'/'});
    }
    var parts := Split(path, {'/'});
    assert parts[..|parts| - 1] + [name] == parts;
    assert parts[|parts| - 1] == name;
  }

  /** Each clip lands directly in the temporary directory under its own
      temporary name. */
  lemma TempPathFileName(tempDir: string, fileName: string, i: nat)
    requires PlainName(fileName)
    ensures FileName(TempPath(tempDir, fileName, i)) == Some(TempName(fileName, i))
  {
    TempNameIsPlain(fileName, i);
    FileNameOfJoin(tempDir, TempName(fileName, i));
  }

  lemma CutClipsStep(pieces: seq<Interval>, fileName: string, tempDir: string, started: nat -> bool,
                     i: nat, done: seq<Clip>)
    requires i < |pieces| && CutClips(pieces[..i], fileName, tempDir, started) == Ok(done)
    ensures CutClips(pieces[..i + 1], fileName, tempDir, started)
         == (if pieces[i].end < pieces[i].start then Err(DurationUnderflow)
             else if !started(i) then Err(SpawnFailed)
             else Ok(done + [Clip(pieces[i].start, pieces[i].end - pieces[i].start, TempPath(tempDir, fileName, i))]))
  {
    assert pieces[..i + 1][..i] == pieces[..i];
  }

  lemma {:induction false} FailureStays(pieces: seq<Interval>, fileName: string, tempDir: string, started: nat -> bool, i: nat)
    requires i <= |pieces| && CutClips(pieces[..i], fileName, tempDir, started).Err?
    ensures CutClips(pieces, fileName, tempDir, started) == CutClips(pieces[..i], fileName, tempDir, started)
    decreases |pieces| - i
  {
    if i < |pieces| {
      assert pieces[..i + 1][..i] == pieces[..i];
      FailureStays(pieces, fileName, tempDir, started, i + 1);
    } else {
      assert pieces[..i] == pieces;
    }
  }

  /** `cut_audio2`: take the recording's file name, then for each piece
      compute its length, name its clip, cut it, and collect the clip. */
  method CutAudio2(audio: string, pieces: seq<Interval>, tempDir: string, started: nat -> bool)
    returns (r: Result<seq<Clip>>)
    ensures r == CutPlan(audio, pieces, tempDir, started)
  {
    var fileName := FileName(audio);
    if fileName.None? {
      return Err(NoFileName);
    }
    var name := fileName.value;
    var result: seq<Clip> := [];
    var i := 0;
    while i < |pieces|
      invariant 0 <= i <= |pieces|
      invariant CutClips(pieces[..i], name, tempDir, started) == Ok(result)
    {
      CutClipsStep(pieces, name, tempDir, started, i, result);
      var piece := pieces[i];
      if piece.end < piece.start {
        FailureStays(pieces, name, tempDir, started, i + 1);
        return Err(DurationUnderflow);
      }
      var dur := piece.end - piece.start;
      var tempOutput := JoinPath(tempDir, TempName(name, i));
      if !started(i) {
        FailureStays(pieces, name, tempDir, started, i + 1);
        return Err(SpawnFailed);
      }
      result := result + [Clip(piece.start, dur, tempOutput)];
      i := i + 1;
    }
    assert pieces[..i] == pieces;
    return Ok(result);
  }
}
