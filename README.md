# speech-opt, modelled in Dafny

`speech-opt` is a small desktop tool. It takes a spoken recording and a subtitle table and re-times
the one against the other. It asks ffmpeg where the silences of the recording are and how long the
recording is. It cuts the recording into the pieces between the silences. Then it takes each
clip's start and length either from the recording or from the subtitle table, mixes the clips back
into one file with `adelay`/`amix`, and writes one subtitle cue per clip.

This project models the time and timeline logic of the tool and proves properties of it:

- `basics.dfy` (`Basics`): durations as whole nanoseconds, the error kinds (returned errors and
  panics), and `Collect`. `Collect` is the "push each result and stop at the first failure" loop
  shape that several operations share.
- `text.dfy` (`Text`): decimal numerals, splitting at a set of separators, joining, substring
  search and `str::lines`. These are the string tools the other modules are stated with.
- `timeparse.dfy` (`TimeParse`): `parse_timestamp`, the loose `H:M:S` reader inside
  `get_audio_duration`, and the `Duration:` line finder `get_duration_from_output`.
- `silence.dfy` (`Silence`): `detect_silence`. Each `silencedetect` report line becomes a
  `(start, end)` interval.
- `pieces.dfy` (`Pieces`): `get_audio_pieces`. It builds the timeline `[0, s1, e1, ..., sk, ek, T]`
  and pairs it into pieces.
- `cut.dfy` (`Cut`): `cut_audio2`. Piece `i` becomes the clip `temp_dir/"{name}#{i}.mp3"`.
- `mix.dfy` (`Mix`): `join_audios`. A `Command` class collects the ffmpeg arguments and the
  filter graph.
- `combine.dfy` (`Combine`): the actions of `main.rs`:
  - `ItemType::from`;
  - the piece count shown after a silence scan;
  - copying the subtitle texts;
  - the `StartCombine` reconciliation: the mismatch question, reading the table, pairing clips
    with rows, and the mix.

The ffmpeg runs are parameters of the model:

- A run that cannot be started is `NotStarted`.
- A run that ran is `Ran(stderr)`, holding the text it wrote on standard error.
- Each cut has a `started(i)` flag, and the mix has a `started` flag.

Inside `ffopt.rs`, a panic is an error value of a panic kind. The panics are an `unwrap` of a
regex capture, a `Duration` subtraction that underflows, and a file name that is missing. A
missing table cell in `main.rs` is a panic kind too. `StartCombine` unwraps every `Result` it
gets, so a combine request that meets any error ends as `Panicked(e)`. Here `e` may be a returned
error such as the spawn error or "Failed to parse timestamp", which are not panic kinds. After a
silence scan, a returned error is printed and the tool goes on, while a panic ends the tool.

An operation that loops in the source is a `method` with a loop. Its
contract ties its result to a function, and the lemmas are stated about that function.

## Model

| member | source | states |
|---|---|---|
| Basics.Collect | speech-opt/src/ffopt.rs:35-52 | a collecting loop that stops at the first failure yields one value per element when it succeeds |
| Basics.CollectAllOk | speech-opt/src/main.rs:225-234 | collecting succeeds exactly when every element succeeds, and then value `k` is element `k`'s value |
| Basics.CollectFirstFailure | speech-opt/src/main.rs:225-234 | a failed collection reports the error of the first element that fails; every element before it succeeded |
| Basics.CollectFailureStays | speech-opt/src/main.rs:227-232 | once a prefix fails, later elements do not change the outcome (the `?`/`unwrap` leaves the loop) |
| Text.NatToStringValue | speech-opt/src/main.rs:136-137 | the decimal text of `n` reads back as `n` |
| Text.NatToStringInjective | speech-opt/src/ffopt.rs:207 | different numbers have different decimal texts |
| Text.SplitJoin | speech-opt/src/ffopt.rs:114-116 | joining parts that hold no separator with one separator, then splitting there, gives the parts back |
| Text.SplitCount | speech-opt/src/ffopt.rs:216 | splitting at a set of separators gives one more token than there are separators |
| Text.LinesOfTerminated | speech-opt/src/ffopt.rs:35 | `lines()` on text written line by line, each line ended by a line feed, gives back those lines |
| TimeParse.ParseU64 | speech-opt/src/ffopt.rs:219-222 | a `u64` numeral read by `from_str` is below 2^64 |
| TimeParse.ParseU64RoundTrip | speech-opt/src/ffopt.rs:219-222 | `from_str` reads back the decimal numeral of any `u64`, with or without a leading `+`, and rejects the numeral of a value past the largest `u64` |
| TimeParse.ParseU64Rejects | speech-opt/src/ffopt.rs:219-222 | a text holding a non-digit, other than a leading `+`, is not a `u64`; nor are the empty text and a lone `+` |
| TimeParse.ParseTimestamp | speech-opt/src/ffopt.rs:215-229 | "Failed to parse timestamp" exactly when the text does not have exactly three `:`/`,` separators (four tokens) |
| TimeParse.ParseTimestampOk | speech-opt/src/ffopt.rs:216-225 | a timestamp reads exactly when it has four tokens that are each a `u64` numeral; four tokens with a bad one give the integer parse error |
| TimeParse.TimestampTokens | speech-opt/src/ffopt.rs:218-223 | four digit tokens `h:m:s,ms` give `((h*3600 + m*60 + s)*1000 + ms)` milliseconds; the millisecond token's width is not checked |
| TimeParse.ParseFourTokens | speech-opt/src/ffopt.rs:218-228 | four tokens that read as `u64` values give that millisecond value as a `Duration` |
| TimeParse.CueTimestampRoundTrip | speech-opt/src/ffopt.rs:215-229 | reading a cue time written as `HH:MM:SS,mmm` gives back its milliseconds |
| TimeParse.ParseTimestampExample | speech-opt/src/ffopt.rs:264-268 | `"00:00:4,960"` is 4960 ms |
| TimeParse.ParseTimestampMissingComma | speech-opt/src/ffopt.rs:217-225 | `"00:00:04960"` has three tokens and is "Failed to parse timestamp" |
| TimeParse.LooseDuration | speech-opt/src/ffopt.rs:151-170 | "failed to get duration" exactly when the text has more than four `:`-separated tokens |
| TimeParse.SecondsToken | speech-opt/src/ffopt.rs:152-157 | a decimal seconds token reads as its exact value, truncated to nanoseconds |
| TimeParse.ClockThree | speech-opt/src/ffopt.rs:154-158 | three tokens are hours, minutes and seconds |
| TimeParse.LooseFourTokens | speech-opt/src/ffopt.rs:159-164 | with four tokens the first two are both weighted 3600 s, then minutes and seconds |
| TimeParse.LooseDurationFourTokens | speech-opt/src/ffopt.rs:159-164 | `"1:00:00:12.86"` is 3612.86 s: the leading token counts an hour, not a day |
| TimeParse.DurationTextRoundTrip | speech-opt/src/ffopt.rs:151-158 | the reader inverts ffmpeg's `HH:MM:SS.cc` length text, to the hundredth of a second |
| TimeParse.LooseDurationExample | speech-opt/src/ffopt.rs:257-261 | `"00:00:12.86"` is 12.86 s |
| TimeParse.ClockRunEnd | speech-opt/src/ffopt.rs:129 | the group `[0-9:\.]*` takes the longest run of those characters |
| TimeParse.CaptureAt | speech-opt/src/ffopt.rs:129-132 | the captured text consists of digits, `:` and `.` only |
| TimeParse.FirstMatch | speech-opt/src/ffopt.rs:129-131 | the match found is the leftmost one: no earlier position matches |
| TimeParse.DurationFromOutput | speech-opt/src/ffopt.rs:128-135 | `None` exactly when no position matches; otherwise the capture of a match |
| TimeParse.LeftmostMatch | speech-opt/src/ffopt.rs:128-135 | the result is the capture of the leftmost match |
| TimeParse.DurationLineFound | speech-opt/src/ffopt.rs:128-135 | a report in which no `Duration: ` comes before a `Duration: d, start: ... bitrate:` line yields `d`, whatever else precedes it |
| TimeParse.DurationFromOutputExample | speech-opt/src/ffopt.rs:250-255 | the sample line yields `"00:00:12.86"` |
| TimeParse.AudioDuration | speech-opt/src/ffopt.rs:141-171 | a run that cannot start is the spawn error; output without a `Duration:` match is "failed to get duration" |
| TimeParse.AudioDurationOfReport | speech-opt/src/ffopt.rs:141-171 | the length ffmpeg prints on its `Duration:` line is read back exactly, whatever header lines (file names included) come before it |
| TimeParse.NoDurationLine | speech-opt/src/ffopt.rs:148-149 | a report in which `Duration: ` never occurs gives "failed to get duration" |
| Silence.IntervalOf | speech-opt/src/ffopt.rs:37-50 | a report line reads exactly when both fields are seconds and the duration does not exceed the end; then `start = end - duration` and `end` is unchanged; otherwise it panics |
| Silence.SilenceCaptureOfReport | speech-opt/src/ffopt.rs:29-36 | the regex captures the end and duration fields of a well-formed `silencedetect` line |
| Silence.DetectSilence | speech-opt/src/ffopt.rs:13-55 | the loop returns one interval per matching line, in report order; the first line that cannot be read panics; a run that cannot start is the spawn error |
| Silence.ReadReport | speech-opt/src/ffopt.rs:35-52 | the loop over the report's lines reads the matching lines in order and stops at the first that cannot be read |
| Silence.LineStep | speech-opt/src/ffopt.rs:36-51 | a line the regex does not match changes nothing; a matching line pushes its interval or panics |
| Silence.SilenceFirstFailure | speech-opt/src/ffopt.rs:35-52 | a failed report fails with the panic of the first matching line that cannot be read |
| Silence.SilenceErrorKinds | speech-opt/src/ffopt.rs:17-48 | the scan returns an error (the spawn error) only when ffmpeg cannot start; every failure to read the report is a panic |
| Silence.SilencesAreIntervals | speech-opt/src/ffopt.rs:48-50 | every silence read starts no later than it ends |
| Silence.ExampleInterval | speech-opt/src/ffopt.rs:237 | `silence_end: 5.49354`, `silence_duration: 2.10637` is the interval 3.38717 s to 5.49354 s |
| Silence.SilenceExample | speech-opt/src/ffopt.rs:236-248 | a one-line report with those fields gives exactly that interval |
| Pieces.Boundaries | speech-opt/src/ffopt.rs:180-183 | `k` silences push `2k` entries |
| Pieces.BoundariesAt | speech-opt/src/ffopt.rs:180-183 | entry `2i` is silence `i`'s start and entry `2i+1` its end |
| Pieces.GetAudioPieces | speech-opt/src/ffopt.rs:173-195 | the pieces are the stretches between silences, from 0 to the length; a silence-scan failure wins over a length failure |
| Pieces.PiecesAreGaps | speech-opt/src/ffopt.rs:178-193 | the timeline has `2k+2` entries, and its pairs are `(0, s1)`, `(e_i, s_{i+1})`, ..., `(e_k, T)` |
| Pieces.NoSilenceOnePiece | speech-opt/src/ffopt.rs:178-193 | with no silence the single piece is `(0, T)` |
| Pieces.FlattenPairs | speech-opt/src/ffopt.rs:188-192 | pairing an even-length timeline loses nothing: the starts and ends of the pairs, in order, give it back |
| Pieces.PiecesAndSilencesTile | speech-opt/src/ffopt.rs:178-193 | the lengths of the pieces and of the silences add up to the recording's length |
| Pieces.PieceRunsForward | speech-opt/src/ffopt.rs:178-193 | when the silences are in order and within the recording, no piece runs backwards |
| Pieces.PiecesInOrder | speech-opt/src/ffopt.rs:178-193 | when the silences are in order, every piece ends no later than any later piece starts |
| Pieces.TakePairs | speech-opt/src/ffopt.rs:188-192 | the pairing loop takes entries `2j` and `2j+1` as piece `j`, for every whole pair of the timeline |
| Cut.FileName | speech-opt/src/ffopt.rs:202 | a file name is one named path part: not empty, `.` or `..`, and holding no `/` |
| Cut.CutClips | speech-opt/src/ffopt.rs:204-211 | a successful cut yields one clip per piece |
| Cut.CutClipsAllCut | speech-opt/src/ffopt.rs:204-212 | cutting succeeds exactly when every piece runs forwards and its ffmpeg run starts; clip `i` is `(start_i, end_i - start_i, temp_dir/"{name}#{i}.mp3")` |
| Cut.CutClipAt | speech-opt/src/ffopt.rs:204-211 | after a successful cut, piece `i` runs forwards, its run started, and clip `i` is its start, length and temporary path |
| Cut.CutClipsFirstFailure | speech-opt/src/ffopt.rs:204-212 | a failed cut stops at the first piece that cannot be cut |
| Cut.CutAudio2 | speech-opt/src/ffopt.rs:197-213 | the loop returns the cut described above, after unwrapping the file name (no name panics) |
| Cut.TempNamesDiffer | speech-opt/src/ffopt.rs:207 | different pieces get different clip names |
| Cut.TempPathsDiffer | speech-opt/src/ffopt.rs:207-208 | different pieces are written to different files |
| Cut.ClipPathsDiffer | speech-opt/src/ffopt.rs:202-211 | the clips of one cut are written to different files, clip `i`'s file named `"{name}#{i}.mp3"` after the recording's file name |
| Cut.FileNameOfJoin | speech-opt/src/ffopt.rs:208 | the file name of `dir.join(name)` is `name` |
| Cut.TempPathFileName | speech-opt/src/ffopt.rs:207-208 | the clip file of piece `i` is named `"{name}#{i}.mp3"` |
| Mix.Command.constructor | speech-opt/src/ffopt.rs:91 | a new command has its program and no arguments |
| Mix.Command.Arg | speech-opt/src/ffopt.rs:92 | an argument is appended and nothing else changes |
| Mix.DelayParts | speech-opt/src/ffopt.rs:96-109 | one delay filter per input |
| Mix.InputArgs | speech-opt/src/ffopt.rs:96-101 | two arguments per input |
| Mix.JoinAudios | speech-opt/src/ffopt.rs:90-126 | the command is a fresh `ffmpeg` command with exactly the mix arguments; the result is the spawn error exactly when ffmpeg cannot start |
| Mix.MixArgsLayout | speech-opt/src/ffopt.rs:91-121 | the arguments are `-y`, then `-i path_i` in list order, then `-filter_complex`, the graph and the output |
| Mix.FilterGraphParts | speech-opt/src/ffopt.rs:103-116 | splitting the graph at `;` gives `[i]adelay=ms_i\|ms_i[ai]` for each input `i`, then `[a0]...[a(n-1)]amix=n` |
| Mix.EmptyMix | speech-opt/src/ffopt.rs:114-116 | with no input the graph is `amix=0` |
| Mix.OneClipMix | speech-opt/src/ffopt.rs:80-89 | one clip starting at 184 s gives `[0]adelay=184000\|184000[a0];[a0]amix=1` |
| Combine.ItemTypeFrom | speech-opt/src/main.rs:37-45 | the value 1 gives `Audio`; every other value gives `Subtitle` |
| Combine.ItemTypeFromSwaps | speech-opt/src/main.rs:30-45 | converting a discriminant gives the other type, so the conversion swaps the `repr` values |
| Combine.Proceeds | speech-opt/src/main.rs:208-220 | combining goes on exactly when the counts match or the answer is button 0; no answer counts as 1 |
| Combine.ParseRow | speech-opt/src/main.rs:228-231 | a row reads exactly when it has three cells, both times parse, and the start is not after the end; then it holds the start, `end - start` and the text; a short row panics |
| Combine.ParseSubRows | speech-opt/src/main.rs:225-234 | the loop reads every row in order and stops at the first that cannot be read |
| Combine.JoinInfo | speech-opt/src/main.rs:222-252 | there are `min(audio_len, sub_len)` join entries |
| Combine.Cues | speech-opt/src/main.rs:222-266 | there are `min(audio_len, sub_len)` cues |
| Combine.Reconcile | speech-opt/src/main.rs:236-266 | the pairing loop yields entry `i` = (chosen start, clip `i`'s path) and cue `i` = (i, start ms, (start + length) ms, row `i`'s text) |
| Combine.StartCombine | speech-opt/src/main.rs:193-271 | the action's outcome: a panic from the first failing step, a declined mismatch, or the mix with those arguments and cues |
| Combine.CombinePieces | speech-opt/src/main.rs:205-268 | once the pieces are found, the action declines on a refused mismatch, or cuts, reads the table, pairs and mixes as the outcome function says |
| Combine.DeclinedExactly | speech-opt/src/main.rs:201-220 | declined exactly when the pieces were found, their count differs from the table's, and the answer is not 0 |
| Combine.CombinedShape | speech-opt/src/main.rs:222-268 | `min` cues numbered in order with the rows' texts; `2*min + 4` mix arguments; input `i` is piece `i`'s clip; the output is `./result.mp3` |
| Combine.ChosenTiming | speech-opt/src/main.rs:242-265 | item `i` starts at piece `i`'s or row `i`'s start, and lasts the piece's or the row's length, as the two choices say; its cue and its `adelay` use them |
| Combine.MixDelay | speech-opt/src/main.rs:252-268 | the mix delays input `i` by join entry `i`'s start |
| Combine.AudioTiming | speech-opt/src/main.rs:242-258 | timed by the recording, cue `i` spans piece `i` to the millisecond |
| Combine.RowOfCueTimestamps | speech-opt/src/main.rs:228-231 | a row of two written cue times reads back as a subtitle from the first time to the second |
| Combine.SubtitleTiming | speech-opt/src/main.rs:242-265 | timed by the subtitles, a row of two cue times gives a cue with exactly those times and its text |
| Combine.AnyBadRowPanics | speech-opt/src/main.rs:225-234 | one unreadable row, even beyond the paired ones, prevents the mix |
| Combine.SegmentCount | speech-opt/src/main.rs:129-143 | the count shown is one more than the number of silences; a returned error is printed and the tool goes on; a panic in the scan ends the tool |
| Combine.CountIsPieces | speech-opt/src/main.rs:134-137 | that count is the number of pieces the recording is cut into |
| Combine.Texts | speech-opt/src/main.rs:178-184 | at most one text per row |
| Combine.TextsFromRows | speech-opt/src/main.rs:180-184 | every text collected is the third cell of some row |
| Combine.TextsOfFullRows | speech-opt/src/main.rs:180-184 | when every row has a third cell, the texts are exactly those cells, in row order |
| Combine.CopyTexts | speech-opt/src/main.rs:177-187 | the copied text is the collected texts joined with line feeds |
| Combine.CopiedTextsSplit | speech-opt/src/main.rs:185 | splitting the copied text at line feeds gives the texts back when none holds a line feed |

## Left out

- Running ffmpeg and reading its output are parameters: a run that could not start, or the text it
  wrote on standard error. Exit statuses are not looked at, as in the source.
- `String::from_utf8` in `get_audio_duration` and `from_utf8_lossy` in `detect_silence`: the
  output is taken to be text already, so the UTF-8 error of `get_audio_duration` is not modelled.
- `f64` parsing and `Duration::from_secs_f64`: a seconds token is read as an exact decimal (digits
  with at most one point), truncated to nanoseconds. Signs, exponents, `inf`/`nan` and binary
  rounding are not modelled.
- `as_secs_f64` formatting in the arguments of `cut_audio` and `detect_silence`: the cut's
  arguments and the silence scan's arguments are not modelled. The minimum-silence length of
  `detect_silence` only reaches ffmpeg, which is a parameter.
- The regex engine: the two regexes are modelled by what they capture on a line (leftmost match,
  lazy and greedy groups), not by a regex engine.
- `u64` overflow in `parse_timestamp` and in `get_audio_duration`: numbers are unbounded, so a
  product above 2^64 does not wrap or panic.
- The `as i32` casts in `main.rs` (the piece count and the cue times) and `srtlib`'s `Timestamp`:
  a cue holds whole milliseconds.
- `srtlib` and file writing: the `./result.srt` file is not written. The cues are the outcome.
- The fltk user interface: windows, dialogs, table widgets, the clipboard and the event loop. The
  table is a list of rows of cells, and the answer to the mismatch question is a parameter.
- Paths are Unix paths separated by `/`. Windows prefixes and other separators are not modelled.
- The four-token case of the length reader weights its leading token by 3600 s, as the code does.
  A days field would need 86400 s. The model follows the code (`LooseDurationFourTokens`).
- The comment above `join_audios` shows an older filter graph (`[1]adelay=...[b]`,
  `[0][b][c][d]amix=4`). The model follows the code, which delays every input, input 0 included,
  and labels them `[ai]`.
