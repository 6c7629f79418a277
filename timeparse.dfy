/** The time-text readers of `speech-opt/src/ffopt.rs`: the strict subtitle
    timestamp parser (`parse_timestamp`), the loose `H:M:S` reader inside
    `get_audio_duration`, and the `Duration:` line finder
    (`get_duration_from_output`). */
module TimeParse {
  import opened Basics
  import opened Text

  /** `u64::from_str`: an optional `+`, then at least one ASCII digit, for a
      value that fits in 64 bits. */
  function ParseU64(s: string): (r: Option<nat>)
    ensures r.Some? ==> r.value < U64Limit
  {
    var digits := if 0 < |s| && s[0] == '+' then s[1..] else s;
    if digits != [] && AllDigits(digits) && DigitsValue(digits) < U64Limit
    then Some(DigitsValue(digits))
    else None
  }

  /** The nanoseconds named by the digits after a decimal point: `d1..dn`
      stands for `d1..dn` times `10^(9-n)` nanoseconds; digits past the ninth
      are below the resolution of a `Duration`. */
  function FractionNanos(frac: string): nat
    requires AllDigits(frac)
  {
    if 9 <= |frac| then DigitsValue(frac[..9])
    else DigitsValue(frac) * Pow10(9 - |frac|)
  }

  /** Whole seconds plus a sub-second part, in nanoseconds. */
  function SecondsNanos(whole: nat, fraction: nat): Duration {
    whole * NanosPerSecond + fraction
  }

  /** A seconds token read as `f64` and turned into a `Duration`: digits with
      at most one decimal point and at least one digit ("12.86", "5.", ".5"). */
  function ParseSeconds(s: string): (r: Option<Duration>)
  {
    match IndexOf(s, ".", 0)
    case None =>
      if s != [] && AllDigits(s) then Some(SecondsNanos(DigitsValue(s), 0)) else None
    case Some(dot) =>
      var whole, frac := s[..dot], s[dot + 1..];
      if AllDigits(whole) && AllDigits(frac) && 0 < |whole| + |frac|
      then Some(SecondsNanos(DigitsValue(whole), FractionNanos(frac)))
      else None
  }

  /** `((h * 3600 + m * 60 + s) * 1000 + ms)`: a clock reading in milliseconds. */
  function TimestampMillis(h: nat, m: nat, s: nat, ms: nat): nat {
    (h * 3600 + m * 60 + s) * 1000 + ms
  }

  const TimestampSeparators: set<char> := {':', ','}

  /** `parse_timestamp`: four tokens split at `:` or `,`, each a `u64`, read
      as hours, minutes, seconds and milliseconds. A token count other than
      four is "Failed to parse timestamp"; a bad token is the integer parse
      error. The millisecond token is not limited to three digits. */
  function ParseTimestamp(s: string): (r: Result<Duration>)
    ensures r == Err(FailedToParseTimestamp) <==> Count(s, TimestampSeparators) != 3
  {
    SplitCount(s, TimestampSeparators);
    var token := Split(s, TimestampSeparators);
    if |token| != 4 then Err(FailedToParseTimestamp)
    else
      var hours, minutes, seconds, millis :=
        ParseU64(token[0]), ParseU64(token[1]), ParseU64(token[2]), ParseU64(token[3]);
      if hours.None? || minutes.None? || seconds.None? || millis.None? then Err(ParseIntError)
      else
        Ok(FromMillis(TimestampMillis(hours.value, minutes.value, seconds.value, millis.value)))
  }

  lemma ParseU64Digits(t: string)
    requires t != [] && AllDigits(t) && DigitsValue(t) < U64Limit
    ensures ParseU64(t) == Some(DigitsValue(t))
  {
    assert IsDigit(t[0]);
  }

  /** `u64::from_str` reads back what `u64`'s `Display` writes, with or
      without a leading `+`, and rejects a numeral past the largest `u64`. */
  lemma ParseU64RoundTrip(n: nat)
    ensures n < U64Limit ==> ParseU64(NatToString(n)) == Some(n) && ParseU64("+" + NatToString(n)) == Some(n)
    ensures U64Limit <= n ==> ParseU64(NatToString(n)) == None && ParseU64("+" + NatToString(n)) == None
  {
    var t := NatToString(n);
    NatToStringValue(n);
    assert IsDigit(t[0]);
    assert ("+" + t)[1..] == t;
  }

  /** A character other than a digit, except a `+` in front, makes the text
      unreadable, and so does a text with no digit. */
  lemma ParseU64Rejects(s: string, k: nat)
    requires k < |s| && !IsDigit(s[k]) && !(k == 0 && s[k] == '+')
    ensures ParseU64(s) == None
    ensures ParseU64("") == None && ParseU64("+") == None
  {
    if 0 < |s| && s[0] == '+' {
      assert s[1..][k - 1] == s[k];
    }
  }

  lemma DigitsAreNotSeparators(t: string, seps: set<char>)
    requires AllDigits(t) && forall c :: c in seps ==> !IsDigit(c)
    ensures NoneIn(t, seps)
  {
    forall i | 0 <= i < |t| ensures t[i] !in seps {
      assert IsDigit(t[i]);
    }
  }

  /** `h:m:sec,ms` splits into exactly its four digit tokens. */
  lemma TimestampSplit(h: string, m: string, sec: string, ms: string)
    requires AllDigits(h) && AllDigits(m) && AllDigits(sec) && AllDigits(ms)
    ensures Split(h + ":" + m + ":" + sec + "," + ms, TimestampSeparators) == [h, m, sec, ms]
  {
    var seps := TimestampSeparators;
    DigitsAreNotSeparators(h, seps);
    DigitsAreNotSeparators(m, seps);
    DigitsAreNotSeparators(sec, seps);
    DigitsAreNotSeparators(ms, seps);
    var tail2 := sec + [','] + ms;
    var tail1 := m + [':'] + tail2;
    assert h + ":" + m + ":" + sec + "," + ms == h + [':'] + tail1;
    SplitWithoutSeparator(ms, seps);
    SplitAtFirst(sec, ',', ms, seps);
    SplitAtFirst(m, ':', tail2, seps);
    SplitAtFirst(h, ':', tail1, seps);
  }

  lemma ParseFourTokens(s: string, token: seq<string>, values: seq<nat>)
    requires Split(s, TimestampSeparators) == token && |token| == 4 && |values| == 4
    requires forall k :: 0 <= k < 4 ==> ParseU64(token[k]) == Some(values[k])
    ensures ParseTimestamp(s) == Ok(FromMillis(TimestampMillis(values[0], values[1], values[2], values[3])))
  {
  }

  /** A timestamp reads exactly when it splits into four tokens that are
      each a `u64` numeral; four tokens with a bad one give the integer parse
      error. */
  lemma ParseTimestampOk(s: string)
    ensures ParseTimestamp(s).Ok?
        <==> (|Split(s, TimestampSeparators)| == 4
              && ParseU64(Split(s, TimestampSeparators)[0]).Some? && ParseU64(Split(s, TimestampSeparators)[1]).Some?
              && ParseU64(Split(s, TimestampSeparators)[2]).Some? && ParseU64(Split(s, TimestampSeparators)[3]).Some?)
    ensures ParseTimestamp(s).Err? && |Split(s, TimestampSeparators)| == 4 ==> ParseTimestamp(s) == Err(ParseIntError)
  {
    var token := Split(s, TimestampSeparators);
    if |token| == 4 {
      var h, m, sec, ms := ParseU64(token[0]), ParseU64(token[1]), ParseU64(token[2]), ParseU64(token[3]);
      if h.Some? && m.Some? && sec.Some? && ms.Some? {
        assert ParseTimestamp(s).Ok?;
      } else {
        assert ParseTimestamp(s) == Err(ParseIntError);
      }
    } else {
      assert ParseTimestamp(s) == Err(FailedToParseTimestamp);
    }
  }

  /** The value `parse_timestamp` gives for four digit tokens. */
  lemma TimestampTokens(h: string, m: string, sec: string, ms: string)
    requires h != [] && m != [] && sec != [] && ms != []
    requires AllDigits(h) && AllDigits(m) && AllDigits(sec) && AllDigits(ms)
    requires DigitsValue(h) < U64Limit && DigitsValue(m) < U64Limit
    requires DigitsValue(sec) < U64Limit && DigitsValue(ms) < U64Limit
    ensures ParseTimestamp(h + ":" + m + ":" + sec + "," + ms)
         == Ok(FromMillis(TimestampMillis(DigitsValue(h), DigitsValue(m), DigitsValue(sec), DigitsValue(ms))))
  {
    TimestampSplit(h, m, sec, ms);
    ParseU64Digits(h);
    ParseU64Digits(m);
    ParseU64Digits(sec);
    ParseU64Digits(ms);
    ParseFourTokens(h + ":" + m + ":" + sec + "," + ms, [h, m, sec, ms],
      [DigitsValue(h), DigitsValue(m), DigitsValue(sec), DigitsValue(ms)]);
  }

  /** How a subtitle library writes a cue time: `HH:MM:SS,mmm`, each field
      zero-padded, hours allowed to grow past two digits. */
  function CueTimestamp(millis: nat): string {
    var ms, totalSecs := millis % 1000, millis / 1000;
    var sec, totalMins := totalSecs % 60, totalSecs / 60;
    var m, h := totalMins % 60, totalMins / 60;
    Padded(h, 2) + ":" + Padded(m, 2) + ":" + Padded(sec, 2) + "," + Padded(ms, 3)
  }

  /** Reading back a written cue time gives the same number of milliseconds:
      `parse_timestamp` inverts the subtitle library's timestamp text. */
  lemma CueTimestampRoundTrip(millis: nat)
    requires millis < U64Limit
    ensures ParseTimestamp(CueTimestamp(millis)) == Ok(FromMillis(millis))
  {
    var ms, totalSecs := millis % 1000, millis / 1000;
    var sec, totalMins := totalSecs % 60, totalSecs / 60;
    var m, h := totalMins % 60, totalMins / 60;
    PaddedValue(h, 2);
    PaddedValue(m, 2);
    PaddedValue(sec, 2);
    PaddedValue(ms, 3);
    TimestampTokens(Padded(h, 2), Padded(m, 2), Padded(sec, 2), Padded(ms, 3));
    assert TimestampMillis(h, m, sec, ms) == millis by {
      assert h * 3600 + m * 60 + sec == (h * 60 + m) * 60 + sec;
      assert h * 60 + m == totalMins;
      assert totalMins * 60 + sec == totalSecs;
      assert totalSecs * 1000 + ms == millis;
    }
  }

  /** The source's own example: four seconds and 960 milliseconds. */
  lemma ParseTimestampExample()
    ensures ParseTimestamp("00:00:4,960") == Ok(FromMillis(4960))
  {
    ExampleTimestampDigits();
    ExampleTimestampText();
    TimestampTokens("00", "00", "4", "960");
  }

  lemma ExampleTimestampDigits()
    ensures AllDigits("00") && AllDigits("4") && AllDigits("960")
    ensures DigitsValue("00") == 0 && DigitsValue("4") == 4 && DigitsValue("960") == 960
  {
  }

  lemma ExampleTimestampText()
    ensures "00" + ":" + "00" + ":" + "4" + "," + "960" == "00:00:4,960"
  {
    assert "00" + ":" == "00:";
    assert "00:" + "00" == "00:00";
    assert "00:00" + ":" == "00:00:";
    assert "00:00:" + "4" == "00:00:4";
    assert "00:00:4" + "," == "00:00:4,";
    assert "00:00:4," + "960" == "00:00:4,960";
  }

  /** Without the comma there are only three tokens, which is an error. */
  lemma ParseTimestampMissingComma()
    ensures ParseTimestamp("00:00:04960") == Err(FailedToParseTimestamp)
  {
    assert Count("00:00:04960", TimestampSeparators) == 2;
  }

  /** Whole hours and minutes plus a seconds span, in nanoseconds. */
  function ClockNanos(hours: nat, minutes: nat, seconds: Duration): Duration {
    (hours * 3600 + minutes * 60) * NanosPerSecond + seconds
  }

  /** The slice pattern in `get_audio_duration`: one to four tokens read
      right to left as seconds (a decimal), minutes and hours (`u64`), each
      parsed in order from the left. With four tokens the leading one is
      weighted 3600, like the hours. */
  function ClockTokens(t: seq<string>): Result<Duration>
    requires 1 <= |t| <= 4
  {
    if |t| == 1 then
      var seconds := ParseSeconds(t[0]);
      if seconds.None? then Err(ParseFloatError) else Ok(seconds.value)
    else if |t| == 2 then
      var minutes := ParseU64(t[0]);
      var seconds := ParseSeconds(t[1]);
      if minutes.None? then Err(ParseIntError)
      else if seconds.None? then Err(ParseFloatError)
      else Ok(ClockNanos(0, minutes.value, seconds.value))
    else if |t| == 3 then
      var hours, minutes := ParseU64(t[0]), ParseU64(t[1]);
      var seconds := ParseSeconds(t[2]);
      if hours.None? || minutes.None? then Err(ParseIntError)
      else if seconds.None? then Err(ParseFloatError)
      else Ok(ClockNanos(hours.value, minutes.value, seconds.value))
    else
      var days, hours, minutes := ParseU64(t[0]), ParseU64(t[1]), ParseU64(t[2]);
      var seconds := ParseSeconds(t[3]);
      if days.None? || hours.None? || minutes.None? then Err(ParseIntError)
      else if seconds.None? then Err(ParseFloatError)
      else Ok(ClockNanos(days.value + hours.value, minutes.value, seconds.value))
  }

  /** The match in `get_audio_duration` on the `:`-separated tokens; more
      than four tokens is "failed to get duration". */
  function LooseDuration(text: string): (r: Result<Duration>)
    ensures r == Err(FailedToGetDuration) <==> 3 < Count(text, {':'})
  {
    SplitCount(text, {':'});
    var t := Split(text, {':'});
    if |t| <= 4 then ClockTokens(t) else Err(FailedToGetDuration)
  }

  /** Three tokens: hours, minutes and seconds. */
  lemma ClockThree(t: seq<string>, hours: nat, minutes: nat, seconds: Duration)
    requires |t| == 3 && ParseU64(t[0]) == Some(hours) && ParseU64(t[1]) == Some(minutes)
    requires ParseSeconds(t[2]) == Some(seconds)
    ensures ClockTokens(t) == Ok(ClockNanos(hours, minutes, seconds))
  {
  }

  /** Four tokens: the first two are both counted as hours. */
  lemma ClockFour(t: seq<string>, days: nat, hours: nat, minutes: nat, seconds: Duration)
    requires |t| == 4 && ParseU64(t[0]) == Some(days) && ParseU64(t[1]) == Some(hours)
    requires ParseU64(t[2]) == Some(minutes) && ParseSeconds(t[3]) == Some(seconds)
    ensures ClockTokens(t) == Ok(ClockNanos(days + hours, minutes, seconds))
  {
  }

  lemma DotAfterDigits(whole: string, frac: string)
    requires AllDigits(whole)
    ensures IndexOf(whole + "." + frac, ".", 0) == Some(|whole|)
  {
    var s := whole + "." + frac;
    assert OccursAt(s, ".", |whole|);
    forall k | 0 <= k < |whole| ensures !OccursAt(s, ".", k) {
      assert s[k] == whole[k] && IsDigit(whole[k]);
    }
  }

  /** A seconds token with a decimal point reads as its exact value. */
  lemma SecondsToken(whole: string, frac: string)
    requires AllDigits(whole) && AllDigits(frac) && 0 < |whole| + |frac|
    ensures ParseSeconds(whole + "." + frac) == Some(SecondsNanos(DigitsValue(whole), FractionNanos(frac)))
  {
    var s := whole + "." + frac;
    DotAfterDigits(whole, frac);
    assert s[..|whole|] == whole && s[|whole| + 1..] == frac;
  }

  /** How ffmpeg prints a length on its `Duration:` line: `HH:MM:SS.cc`, in
      hundredths of a second. */
  function DurationText(centis: nat): string {
    var cs, totalSecs := centis % 100, centis / 100;
    var sec, totalMins := totalSecs % 60, totalSecs / 60;
    var m, h := totalMins % 60, totalMins / 60;
    Padded(h, 2) + ":" + Padded(m, 2) + ":" + Padded(sec, 2) + "." + Padded(cs, 2)
  }

  /** Three `:`-separated tokens: hours, minutes and a decimal seconds token. */
  lemma LooseThreeTokens(h: string, m: string, sec: string)
    requires NoneIn(h, {':'}) && NoneIn(m, {':'}) && NoneIn(sec, {':'})
    ensures Split(h + ":" + m + ":" + sec, {':'}) == [h, m, sec]
  {
    SplitWithoutSeparator(sec, {':'});
    SplitAtFirst(m, ':', sec, {':'});
    assert h + ":" + m + ":" + sec == h + [':'] + (m + [':'] + sec);
    SplitAtFirst(h, ':', m + [':'] + sec, {':'});
  }

  lemma NoColonInDigits(t: string)
    requires AllDigits(t)
    ensures NoneIn(t, {':'})
  {
    forall i | 0 <= i < |t| ensures t[i] != ':' { assert IsDigit(t[i]); }
  }

  /** `DurationText` splits into hours, minutes and a decimal seconds token. */
  lemma DurationTextTokens(centis: nat)
    ensures var secs := centis / 100;
            Split(DurationText(centis), {':'})
            == [Padded(secs / 60 / 60, 2), Padded(secs / 60 % 60, 2),
                Padded(secs % 60, 2) + "." + Padded(centis % 100, 2)]
  {
    var cs, totalSecs := centis % 100, centis / 100;
    var sec, totalMins := totalSecs % 60, totalSecs / 60;
    var m, h := totalMins % 60, totalMins / 60;
    var hText, mText, sText, cText := Padded(h, 2), Padded(m, 2), Padded(sec, 2), Padded(cs, 2);
    NoColonInDigits(hText);
    NoColonInDigits(mText);
    NoColonInDigits(sText);
    NoColonInDigits(cText);
    var secToken := sText + "." + cText;
    assert NoneIn(secToken, {':'}) by {
      forall i | 0 <= i < |secToken| ensures secToken[i] != ':' {
        if i < |sText| { assert secToken[i] == sText[i]; }
        else if i > |sText| { assert secToken[i] == cText[i - |sText| - 1]; }
      }
    }
    assert DurationText(centis) == hText + ":" + mText + ":" + secToken;
    LooseThreeTokens(hText, mText, secToken);
  }

  /** The seconds token of `DurationText` reads as seconds and hundredths. */
  lemma DurationTextSeconds(sec: nat, cs: nat)
    requires sec < 60 && cs < 100
    ensures ParseSeconds(Padded(sec, 2) + "." + Padded(cs, 2)) == Some(SecondsNanos(sec, cs * NanosPerCenti))
  {
    PaddedValue(sec, 2);
    PaddedValue(cs, 2);
    SecondsToken(Padded(sec, 2), Padded(cs, 2));
    assert Pow10(7) == 10_000_000;
  }

  lemma CentisArithmetic(centis: nat)
    ensures var secs := centis / 100;
            ClockNanos(secs / 60 / 60, secs / 60 % 60, SecondsNanos(secs % 60, centis % 100 * NanosPerCenti))
            == centis * NanosPerCenti
  {
    var cs, totalSecs := centis % 100, centis / 100;
    var sec, totalMins := totalSecs % 60, totalSecs / 60;
    var m, h := totalMins % 60, totalMins / 60;
    assert h * 60 + m == totalMins;
    assert totalMins * 60 + sec == totalSecs;
    assert totalSecs * 100 + cs == centis;
  }

  /** The loose reader inverts ffmpeg's `HH:MM:SS.cc` length text, to the
      hundredth of a second. */
  lemma DurationTextRoundTrip(centis: nat)
    requires centis < U64Limit
    ensures LooseDuration(DurationText(centis)) == Ok(centis * NanosPerCenti)
  {
    var secs := centis / 100;
    var h, m := secs / 60 / 60, secs / 60 % 60;
    DurationTextTokens(centis);
    DurationTextSeconds(secs % 60, centis % 100);
    PaddedValue(h, 2);
    PaddedValue(m, 2);
    ParseU64Digits(Padded(h, 2));
    ParseU64Digits(Padded(m, 2));
    CentisArithmetic(centis);
    ClockThree(Split(DurationText(centis), {':'}), h, m, SecondsNanos(secs % 60, centis % 100 * NanosPerCenti));
  }

  /** The length in the source's sample report, `00:00:12.86`, is 12.86 s. */
  lemma LooseDurationExample(text: string)
    requires text == "00:00:12.86"
    ensures LooseDuration(text).Ok? && LooseDuration(text).value == 1286 * NanosPerCenti
  {
    var z, t, e := Padded(0, 2), Padded(12, 2), Padded(86, 2);
    assert z == "00" && t == "12" && e == "86";
    assert 1286 % 100 == 86 && 1286 / 100 == 12 && 12 % 60 == 12 && 12 / 60 == 0;
    assert DurationText(1286) == z + ":" + z + ":" + t + "." + e;
    assert "00" + ":" == "00:";
    assert "00:" + "00" == "00:00";
    assert "00:00" + ":" == "00:00:";
    assert "00:00:" + "12" == "00:00:12";
    assert "00:00:12" + "." == "00:00:12.";
    assert "00:00:12." + "86" == "00:00:12.86";
    DurationTextRoundTrip(1286);
  }

  lemma LooseFourTokens(text: string, token: seq<string>, days: nat, hours: nat, minutes: nat, seconds: Duration)
    requires Split(text, {':'}) == token && |token| == 4
    requires ParseU64(token[0]) == Some(days) && ParseU64(token[1]) == Some(hours)
    requires ParseU64(token[2]) == Some(minutes) && ParseSeconds(token[3]) == Some(seconds)
    ensures LooseDuration(text) == Ok(ClockNanos(days + hours, minutes, seconds))
  {
    ClockFour(token, days, hours, minutes, seconds);
  }

  lemma {:induction false} LooseFourSplit(d: string, h: string, m: string, sec: string)
    requires NoneIn(d, {':'}) && NoneIn(h, {':'}) && NoneIn(m, {':'}) && NoneIn(sec, {':'})
    ensures Split(d + ":" + h + ":" + m + ":" + sec, {':'}) == [d, h, m, sec]
  {
    LooseThreeTokens(h, m, sec);
    assert d + ":" + h + ":" + m + ":" + sec == d + [':'] + (h + ":" + m + ":" + sec);
    SplitAtFirst(d, ':', h + ":" + m + ":" + sec, {':'});
  }

  lemma FourTokenSplit(text: string)
    requires text == "1:00:00:12.86"
    ensures Split(text, {':'}) == ["1", "00", "00", "12.86"]
  {
    var one, zero, sec := "1", "00", "12.86";
    NoColonInDigits(one);
    NoColonInDigits(zero);
    assert NoneIn(sec, {':'});
    LooseFourSplit(one, zero, zero, sec);
    assert one + ":" == "1:";
    assert "1:" + zero == "1:00";
    assert "1:00" + ":" == "1:00:";
    assert "1:00:" + zero == "1:00:00";
    assert "1:00:00" + ":" == "1:00:00:";
    assert "1:00:00:" + sec == text;
  }

  lemma FourTokenValues()
    ensures ParseU64("1") == Some(1) && ParseU64("00") == Some(0)
    ensures ParseSeconds("12.86") == Some(SecondsNanos(12, 86 * NanosPerCenti))
  {
    assert Padded(12, 2) == "12" && Padded(86, 2) == "86";
    assert "12" + "." + "86" == "12.86";
    DurationTextSeconds(12, 86);
    assert "00"[..1] == "0";
    ParseU64Digits("00");
    ParseU64Digits("1");
  }

  /** With four tokens the leading one counts 3600 s, not a day's 86400 s:
      `1:00:00:12.86` is one hour and 12.86 s. */
  lemma LooseDurationFourTokens(text: string)
    requires text == "1:00:00:12.86"
    ensures LooseDuration(text).Ok? && LooseDuration(text).value == 361286 * NanosPerCenti
  {
    FourTokenSplit(text);
    FourTokenValues();
    var seconds := SecondsNanos(12, 86 * NanosPerCenti);
    assert ClockNanos(1 + 0, 0, seconds) == 361286 * NanosPerCenti;
    LooseFourTokens(text, ["1", "00", "00", "12.86"], 1, 0, 0, seconds);
  }

  const DurationTag: string := "Duration: "
  const StartTag: string := ", start:"
  const BitrateTag: string := "bitrate:"

  /** The characters of `[0-9:.]`. */
  predicate InClockClass(c: char) {
    IsDigit(c) || c == ':' || c == '.'
  }

  /** The end of the longest run of `[0-9:.]` characters starting at `from`. */
  function ClockRunEnd(s: string, from: nat): (r: nat)
    requires from <= |s|
    ensures from <= r <= |s|
    ensures forall k :: from <= k < r ==> InClockClass(s[k])
    ensures r < |s| ==> !InClockClass(s[r])
    decreases |s| - from
  {
    if from == |s| || !InClockClass(s[from]) then from else ClockRunEnd(s, from + 1)
  }

  /** Some `bitrate:` follows `from` on the same line (regex `.*bitrate:`,
      where `.` does not match a line feed). */
  predicate BitrateOnLine(s: string, from: nat) {
    match IndexOf(s, BitrateTag, from)
    case None => false
    case Some(b) =>
      match IndexOf(s, "\n", from)
      case None => true
      case Some(n) => b < n
  }

  /** The regex `Duration: ([0-9:\.]*), start:.*bitrate:` matches starting at `p`.
      The class cannot hold the `,` that must follow it, so the greedy run is
      the whole run. */
  predicate MatchAt(s: string, p: nat) {
    OccursAt(s, DurationTag, p)
    && var r := ClockRunEnd(s, p + |DurationTag|);
       OccursAt(s, StartTag, r) && BitrateOnLine(s, r + |StartTag|)
  }

  /** The text of the capture group of a match at `p`. */
  function CaptureAt(s: string, p: nat): (c: string)
    requires MatchAt(s, p)
    ensures forall k :: 0 <= k < |c| ==> InClockClass(c[k])
  {
    s[p + |DurationTag|..ClockRunEnd(s, p + |DurationTag|)]
  }

  /** The leftmost match at or after `from`, which is where the regex engine
      reports its match. */
  function FirstMatch(s: string, from: nat): (r: Option<nat>)
    ensures r.Some? ==> from <= r.value && MatchAt(s, r.value)
    ensures r.Some? ==> forall k :: from <= k < r.value ==> !MatchAt(s, k)
    ensures r.None? ==> forall k :: from <= k ==> !MatchAt(s, k)
    decreases |s| - from
  {
    if |s| < from + |DurationTag| then None
    else if MatchAt(s, from) then Some(from)
    else FirstMatch(s, from + 1)
  }

  /** `get_duration_from_output`: the capture of the leftmost match. */
  function DurationFromOutput(output: string): (r: Option<string>)
    ensures r.None? <==> forall p :: !MatchAt(output, p)
    ensures r.Some? ==> exists p: nat :: MatchAt(output, p) && r.value == CaptureAt(output, p)
                                 && forall q :: 0 <= q < p ==> !MatchAt(output, q)
  {
    match FirstMatch(output, 0)
    case None => None
    case Some(p) => Some(CaptureAt(output, p))
  }

  /** `get_audio_duration`: run ffmpeg, find the `Duration:` text and read it
      loosely. A report without one is "failed to get duration". */
  function AudioDuration(run: ToolRun): (r: Result<Duration>)
    ensures run.NotStarted? ==> r == Err(SpawnFailed)
    ensures run.Ran? && DurationFromOutput(run.stderr).None? ==> r == Err(FailedToGetDuration)
  {
    match run
    case NotStarted => Err(SpawnFailed)
    case Ran(stderr) =>
      match DurationFromOutput(stderr)
      case None => Err(FailedToGetDuration)
      case Some(text) => LooseDuration(text)
  }

  lemma {:induction false} ClockRunOf(o: string, q: nat, r: nat, d: string)
    requires r == q + |d| && r < |o| && o[q..r] == d && o[r] == ','
    requires forall k :: 0 <= k < |d| ==> InClockClass(d[k])
    ensures ClockRunEnd(o, q) == r
  {
    var e := ClockRunEnd(o, q);
    if e < r {
    }
  }

  lemma {:induction false} BitrateAfter(o: string, from: nat, b: nat, mid: string)
    requires b == from + |mid| && b <= |o| && o[from..b] == mid && NoneIn(mid, {'\n'})
    requires OccursAt(o, BitrateTag, b)
    ensures BitrateOnLine(o, from)
  {
    forall k | from <= k <= b ensures !OccursAt(o, "\n", k) {
      if k + 1 <= |o| {
        assert o[k..k + 1][0] == o[k];
        if k < b {
          assert o[from..b][k - from] == o[k];
          assert mid[k - from] != '\n';
        } else {
          assert o[b..b + |BitrateTag|][0] == o[b];
          assert BitrateTag[0] == 'b';
        }
      }
    }
    var bi := IndexOf(o, BitrateTag, from);
    assert bi.Some? && bi.value <= b;
    var ni := IndexOf(o, "\n", from);
    assert ni.Some? ==> b < ni.value;
  }

  /** The one `D` of `Duration: ` is its first character. */
  lemma NoStraddle(o: string, p: nat, k: nat)
    requires k < p < k + |DurationTag| && p + |DurationTag| <= |o| && o[p..p + |DurationTag|] == DurationTag
    ensures !OccursAt(o, DurationTag, k)
  {
    var j := p - k;
    assert o[p] == 'D' by {
      assert o[p..p + |DurationTag|][0] == o[p];
    }
    assert k + |DurationTag| <= |o|;
    assert o[k..k + |DurationTag|][j] == o[p];
  }

  /** `Duration: ` starts with its only `D`, so an occurrence cannot begin
      inside `pre` and run into a `Duration: ` that follows it. */
  lemma {:induction false} NoTagBefore(o: string, pre: string, p: nat, k: nat)
    requires p == |pre| && p + |DurationTag| <= |o| && o[..p] == pre && o[p..p + |DurationTag|] == DurationTag
    requires forall j: nat :: !OccursAt(pre, DurationTag, j)
    requires k < p
    ensures !OccursAt(o, DurationTag, k)
  {
    if k + |DurationTag| <= p {
      assert o[k..k + |DurationTag|] == o[..p][k..k + |DurationTag|];
      assert !OccursAt(pre, DurationTag, k);
    } else {
      NoStraddle(o, p, k);
    }
  }

  lemma {:induction false} LeftmostMatch(o: string, p: nat)
    requires MatchAt(o, p) && forall k: nat :: k < p ==> !MatchAt(o, k)
    ensures DurationFromOutput(o) == Some(CaptureAt(o, p))
  {
    var f := FirstMatch(o, 0);
    assert f.Some? && f.value == p;
  }

  /** A `Duration:` line laid out at `p` of `o`, its parts ending at `q`,
      `r`, `from`, `b` and `e`, matches there, and its capture is the clock
      text. */
  lemma {:induction false} MatchOfLayout(o: string, d: string, mid: string, p: nat, q: nat, r: nat, from: nat, b: nat, e: nat)
    requires q == p + |DurationTag| && r == q + |d| && from == r + |StartTag|
    requires b == from + |mid| && e == b + |BitrateTag| && e <= |o|
    requires o[p..q] == DurationTag && o[q..r] == d && o[r..from] == StartTag
    requires o[from..b] == mid && o[b..e] == BitrateTag
    requires NoneIn(mid, {'\n'}) && forall k :: 0 <= k < |d| ==> InClockClass(d[k])
    ensures MatchAt(o, p) && CaptureAt(o, p) == d
  {
    assert o[r] == StartTag[0] == ',' by {
      assert o[r..from][0] == o[r];
    }
    ClockRunOf(o, q, r, d);
    BitrateAfter(o, from, b, mid);
    assert OccursAt(o, DurationTag, p);
    assert OccursAt(o, StartTag, r);
  }

  lemma LineLayout(o: string, pre: string, d: string, mid: string, post: string, p: nat, q: nat, r: nat, from: nat, b: nat, e: nat)
    requires o == pre + DurationTag + d + StartTag + mid + BitrateTag + post
    requires p == |pre| && q == p + |DurationTag| && r == q + |d| && from == r + |StartTag|
    requires b == from + |mid| && e == b + |BitrateTag|
    ensures e <= |o| && o[p..q] == DurationTag && o[q..r] == d && o[r..from] == StartTag
    ensures o[from..b] == mid && o[b..e] == BitrateTag && o[..p] == pre
  {
  }

  /** A report whose first `Duration: ` opens a well-formed `Duration:` line
      yields exactly the clock text of that line. */
  lemma {:induction false} DurationLineFound(pre: string, d: string, mid: string, post: string)
    requires (forall j: nat :: !OccursAt(pre, DurationTag, j)) && NoneIn(mid, {'\n'})
    requires forall k :: 0 <= k < |d| ==> InClockClass(d[k])
    ensures DurationFromOutput(pre + DurationTag + d + StartTag + mid + BitrateTag + post) == Some(d)
  {
    var o := pre + DurationTag + d + StartTag + mid + BitrateTag + post;
    var p := |pre|;
    var q := p + |DurationTag|;
    var r := q + |d|;
    var from := r + |StartTag|;
    var b := from + |mid|;
    var e := b + |BitrateTag|;
    LineLayout(o, pre, d, mid, post, p, q, r, from, b, e);
    MatchOfLayout(o, d, mid, p, q, r, from, b, e);
    forall k: nat | k < p ensures !MatchAt(o, k) {
      NoTagBefore(o, pre, p, k);
    }
    LeftmostMatch(o, p);
  }

  lemma SampleLine(line: string)
    requires line == "  Duration: 00:00:12.86, start: 0.046042, bitrate: 32 kb/s"
    ensures line == "  " + DurationTag + "00:00:12.86" + StartTag + " 0.046042, " + BitrateTag + " 32 kb/s"
  {
    SampleHead();
    SampleMiddle();
    SampleTail();
  }

  lemma SampleHead()
    ensures "  " + DurationTag + "00:00:12.86" == "  Duration: 00:00:12.86"
  {
    assert "  " + DurationTag == "  Duration: ";
  }

  lemma SampleMiddle()
    ensures "  Duration: 00:00:12.86" + StartTag + " 0.046042, " == "  Duration: 00:00:12.86, start: 0.046042, "
  {
    assert "  Duration: 00:00:12.86" + StartTag == "  Duration: 00:00:12.86, start:";
  }

  lemma SampleTail()
    ensures "  Duration: 00:00:12.86, start: 0.046042, " + BitrateTag + " 32 kb/s"
            == "  Duration: 00:00:12.86, start: 0.046042, bitrate: 32 kb/s"
  {
    assert "  Duration: 00:00:12.86, start: 0.046042, " + BitrateTag
           == "  Duration: 00:00:12.86, start: 0.046042, bitrate:";
  }

  /** The source's sample line gives `00:00:12.86`. */
  lemma DurationFromOutputExample(line: string)
    requires line == "  Duration: 00:00:12.86, start: 0.046042, bitrate: 32 kb/s"
    ensures DurationFromOutput(line) == Some("00:00:12.86")
  {
    SampleLine(line);
    assert NoneIn(" 0.046042, ", {'\n'});
    DurationLineFound("  ", "00:00:12.86", " 0.046042, ", " 32 kb/s");
  }

  /** `get_audio_duration` reads back the length ffmpeg reports on its
      `Duration:` line, to the hundredth of a second. */
  lemma {:induction false} AudioDurationOfReport(pre: string, centis: nat, mid: string, post: string)
    requires forall j: nat :: !OccursAt(pre, DurationTag, j)
    requires NoneIn(mid, {'\n'}) && centis < U64Limit
    ensures AudioDuration(Ran(pre + DurationTag + DurationText(centis) + StartTag + mid + BitrateTag + post))
         == Ok(centis * NanosPerCenti)
  {
    var d := DurationText(centis);
    assert forall k :: 0 <= k < |d| ==> InClockClass(d[k]) by {
      var secs := centis / 100;
      var h, m, sc, cs := Padded(secs / 60 / 60, 2), Padded(secs / 60 % 60, 2), Padded(secs % 60, 2), Padded(centis % 100, 2);
      assert d == h + ":" + m + ":" + sc + "." + cs;
      forall k | 0 <= k < |d| ensures InClockClass(d[k]) {
        if k < |h| { assert d[k] == h[k]; }
        else if k == |h| { }
        else if k < |h| + 1 + |m| { assert d[k] == m[k - |h| - 1]; }
        else if k == |h| + 1 + |m| { }
        else if k < |h| + 2 + |m| + |sc| { assert d[k] == sc[k - |h| - 2 - |m|]; }
        else if k == |h| + 2 + |m| + |sc| { }
        else { assert d[k] == cs[k - |h| - 3 - |m| - |sc|]; }
      }
    }
    DurationLineFound(pre, d, mid, post);
    DurationTextRoundTrip(centis);
  }

  /** A report without any `Duration:` line fails to give a length. */
  lemma NoDurationLine(stderr: string)
    requires forall p: nat :: !OccursAt(stderr, DurationTag, p)
    ensures AudioDuration(Ran(stderr)) == Err(FailedToGetDuration)
  {
  }
}
