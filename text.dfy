/** String operations the tool gets from Rust's standard library and the
    `regex` crate, written out over `seq<char>`: decimal digits, `str::split`
    on a set of characters, `join`, substring search and `str::lines`. */
module Text {
  import opened Basics

  predicate IsDigit(c: char) {
    '0' <= c <= '9'
  }

  predicate AllDigits(s: string) {
    forall i :: 0 <= i < |s| ==> IsDigit(s[i])
  }

  function DigitChar(d: nat): (c: char)
    requires d < 10
    ensures IsDigit(c)
  {
    ('0' as int + d) as char
  }

  function DigitValue(c: char): nat
    requires IsDigit(c)
  {
    c as int - '0' as int
  }

  function Pow10(k: nat): nat {
    if k == 0 then 1 else 10 * Pow10(k - 1)
  }

  /** The number a string of decimal digits denotes (leading zeros allowed). */
  function DigitsValue(s: string): nat
    requires AllDigits(s)
  {
    if s == [] then 0 else DigitsValue(s[..|s| - 1]) * 10 + DigitValue(s[|s| - 1])
  }

  /** Rust's `Display` of an unsigned integer: its shortest decimal numeral. */
  function NatToString(n: nat): (s: string)
    ensures 0 < |s| && AllDigits(s)
    ensures n < 10 <==> |s| == 1
  {
    if n < 10 then [DigitChar(n)] else NatToString(n / 10) + [DigitChar(n % 10)]
  }

  function Zeros(k: nat): (s: string)
    ensures |s| == k && AllDigits(s)
  {
    seq(k, _ => '0')
  }

  /** `format!("{:0w}", n)`: the numeral of `n`, zero-padded to width `w`. */
  function Padded(n: nat, w: nat): (s: string)
    ensures AllDigits(s)
  {
    var digits := NatToString(n);
    if |digits| < w then Zeros(w - |digits|) + digits else digits
  }

  lemma {:induction false} NatToStringValue(n: nat)
    ensures DigitsValue(NatToString(n)) == n
  {
    if n >= 10 {
      var s := NatToString(n);
      assert s[..|s| - 1] == NatToString(n / 10);
      NatToStringValue(n / 10);
    }
  }

  lemma NatToStringInjective(m: nat, n: nat)
    requires NatToString(m) == NatToString(n)
    ensures m == n
  {
    NatToStringValue(m);
    NatToStringValue(n);
  }

  lemma {:induction false} LeadingZerosValue(k: nat, s: string)
    requires AllDigits(s)
    ensures AllDigits(Zeros(k) + s) && DigitsValue(Zeros(k) + s) == DigitsValue(s)
    decreases |s| + k
  {
    var t := Zeros(k) + s;
    if s != [] {
      assert t[..|t| - 1] == Zeros(k) + s[..|s| - 1];
      LeadingZerosValue(k, s[..|s| - 1]);
    } else if k > 0 {
      assert t[..|t| - 1] == Zeros(k - 1) + s;
      LeadingZerosValue(k - 1, s);
    }
  }

  lemma PaddedValue(n: nat, w: nat)
    ensures DigitsValue(Padded(n, w)) == n
    ensures 0 < w && n < Pow10(w) ==> |Padded(n, w)| == w
  {
    var digits := NatToString(n);
    NatToStringValue(n);
    if |digits| < w {
      LeadingZerosValue(w - |digits|, digits);
    }
    if 0 < w && n < Pow10(w) {
      DigitsBelowPow10(n, w);
    }
  }

  lemma {:induction false} DigitsBelowPow10(n: nat, w: nat)
    requires 0 < w && n < Pow10(w)
    ensures |NatToString(n)| <= w
  {
    if n >= 10 {
      assert w > 0;
      DigitsBelowPow10(n / 10, w - 1);
    }
  }

  /** A number of `w + 1` decimal digits prints as `w + 1` characters. */
  lemma {:induction false} NatToStringLength(n: nat, w: nat)
    requires Pow10(w) <= n < Pow10(w + 1)
    ensures |NatToString(n)| == w + 1
  {
    if w > 0 {
      NatToStringLength(n / 10, w - 1);
    }
  }

  /** Positions of `s` that hold one of `seps`. */
  function Count(s: string, seps: set<char>): nat {
    if s == [] then 0 else (if s[0] in seps then 1 else 0) + Count(s[1..], seps)
  }

  predicate NoneIn(s: string, seps: set<char>) {
    forall i :: 0 <= i < |s| ==> s[i] !in seps
  }

  /** `s.split(&seps[..])`: the pieces between separators, empty pieces kept,
      so there is always one more piece than there are separators and no piece
      holds a separator. */
  function Split(s: string, seps: set<char>): (r: seq<string>)
    ensures 0 < |r|
  {
    if s == [] then [""]
    else
      var rest := Split(s[1..], seps);
      if s[0] in seps then [""] + rest
      else [[s[0]] + rest[0]] + rest[1..]
  }

  lemma {:induction false} SplitCount(s: string, seps: set<char>)
    ensures |Split(s, seps)| == Count(s, seps) + 1
  {
    if s != [] {
      SplitCount(s[1..], seps);
    }
  }

  lemma {:induction false} SplitPiecesHaveNoSeparator(s: string, seps: set<char>, k: nat)
    requires k < |Split(s, seps)|
    ensures NoneIn(Split(s, seps)[k], seps)
  {
    if s != [] {
      var rest := Split(s[1..], seps);
      if s[0] in seps {
        if k > 0 { SplitPiecesHaveNoSeparator(s[1..], seps, k - 1); }
      } else if k == 0 {
        SplitPiecesHaveNoSeparator(s[1..], seps, 0);
      } else {
        SplitPiecesHaveNoSeparator(s[1..], seps, k);
      }
    }
  }

  lemma {:induction false} SplitWithoutSeparator(s: string, seps: set<char>)
    requires NoneIn(s, seps)
    ensures Split(s, seps) == [s]
  {
    if s != [] {
      SplitWithoutSeparator(s[1..], seps);
      assert [s[0]] + s[1..] == s;
    }
  }

  /** Splitting at the first separator peels off the piece before it. */
  lemma {:induction false} SplitAtFirst(a: string, c: char, b: string, seps: set<char>)
    requires NoneIn(a, seps) && c in seps
    ensures Split(a + [c] + b, seps) == [a] + Split(b, seps)
  {
    if a != [] {
      var s := a + [c] + b;
      assert s[1..] == a[1..] + [c] + b;
      SplitAtFirst(a[1..], c, b, seps);
      assert [a[0]] + a[1..] == a;
    } else {
      assert (a + [c] + b)[1..] == b;
    }
  }

  /** Cutting at a separator: the pieces before it, then the pieces after it. */
  lemma {:induction false} SplitAtSeparator(a: string, c: char, b: string, seps: set<char>)
    requires c in seps
    ensures Split(a + [c] + b, seps) == Split(a, seps) + Split(b, seps)
  {
    if a == [] {
      assert a + [c] + b == [c] + b;
      assert ([c] + b)[1..] == b;
    } else {
      assert (a + [c] + b)[1..] == a[1..] + [c] + b;
      SplitAtSeparator(a[1..], c, b, seps);
    }
  }

  /** `parts.join(sep)`. */
  function Join(parts: seq<string>, sep: string): string {
    if parts == [] then ""
    else if |parts| == 1 then parts[0]
    else parts[0] + sep + Join(parts[1..], sep)
  }

  /** Splitting a joined list on its separator gives the list back, provided no
      part holds the separator. */
  lemma {:induction false} SplitJoin(parts: seq<string>, c: char, seps: set<char>)
    requires c in seps && 0 < |parts|
    requires forall k :: 0 <= k < |parts| ==> NoneIn(parts[k], seps)
    ensures Split(Join(parts, [c]), seps) == parts
  {
    if |parts| == 1 {
      SplitWithoutSeparator(parts[0], seps);
    } else {
      SplitJoin(parts[1..], c, seps);
      SplitAtFirst(parts[0], c, Join(parts[1..], [c]), seps);
      assert [parts[0]] + parts[1..] == parts;
    }
  }

  predicate OccursAt(s: string, pat: string, k: nat) {
    k + |pat| <= |s| && s[k..k + |pat|] == pat
  }

  /** The first position at or after `from` where `pat` occurs in `s`. */
  function IndexOf(s: string, pat: string, from: nat): (r: Option<nat>)
    ensures r.Some? ==> from <= r.value && OccursAt(s, pat, r.value)
    ensures r.Some? ==> forall k :: from <= k < r.value ==> !OccursAt(s, pat, k)
    ensures r.None? ==> forall k :: from <= k ==> !OccursAt(s, pat, k)
    decreases |s| - from
  {
    if |s| < from + |pat| then None
    else if s[from..from + |pat|] == pat then Some(from)
    else IndexOf(s, pat, from + 1)
  }

  /** `pat` first occurs at `at` when it occurs there and, at every earlier
      start, some fixed character of `pat` is missing. */
  lemma {:induction false} FirstOccurrence(s: string, pat: string, from: nat, at: nat, m: nat)
    requires from <= at && OccursAt(s, pat, at) && m < |pat|
    requires forall k :: from + m <= k < at + m ==> s[k] != pat[m]
    ensures IndexOf(s, pat, from) == Some(at)
  {
    forall k | from <= k < at ensures !OccursAt(s, pat, k) {
      if k + |pat| <= |s| {
        assert s[k..k + |pat|][m] == s[k + m];
      }
    }
  }

  /** After a gap that lacks one character of `pat`, and which `pat`'s own
      earlier characters do not repeat, the first `pat` is the one that ends
      the gap. */
  lemma {:induction false} FirstAfterGap(s: string, head: string, gap: string, pat: string, rest: string,
                                         m: nat, from: nat)
    requires s == head + gap + pat + rest && m < |pat| && from == |head|
    requires pat[m] !in gap && pat[m] !in pat[..m]
    ensures IndexOf(s, pat, from) == Some(from + |gap|)
  {
    var at := |head| + |gap|;
    assert s[at..at + |pat|] == pat;
    forall k | |head| + m <= k < at + m ensures s[k] != pat[m] {
      if k < at {
        assert s[k] == gap[k - |head|];
      } else {
        assert s[k] == pat[..m][k - at];
      }
    }
    FirstOccurrence(s, pat, |head|, at, m);
  }

  function StripCarriageReturn(line: string): string {
    if 0 < |line| && line[|line| - 1] == '\r' then line[..|line| - 1] else line
  }

  /** `str::lines`: the text cut at each `'\n'`, a `"\r\n"` ending counting as
      one line ending, and no empty last line after a final line ending. */
  function Lines(s: string): seq<string> {
    var pieces := Split(s, {'\n'});
    var ended := pieces[..|pieces| - 1];
    var last := pieces[|pieces| - 1];
    seq(|ended|, k requires 0 <= k < |ended| => StripCarriageReturn(ended[k]))
      + (if last == "" then [] else [last])
  }

  /** A line that does not end in a carriage return. */
  predicate PlainLine(line: string) {
    NoneIn(line, {'\n'}) && (line == "" || line[|line| - 1] != '\r')
  }

  /** Reading back lines that were each written with a line ending gives those
      lines. */
  lemma {:induction false} LinesOfTerminated(lines: seq<string>)
    requires forall k :: 0 <= k < |lines| ==> PlainLine(lines[k])
    ensures Lines(Join(lines + [""], "\n")) == lines
  {
    var parts := lines + [""];
    forall k | 0 <= k < |parts| ensures NoneIn(parts[k], {'\n'}) {
      if k < |lines| {
        assert parts[k] == lines[k];
      } else {
        assert parts[k] == "";
      }
    }
    SplitJoin(parts, '\n', {'\n'});
    var pieces := Split(Join(parts, "\n"), {'\n'});
    assert pieces[..|pieces| - 1] == lines;
    assert pieces[|pieces| - 1] == "";
  }

  /** A last line without a line ending is still a line. */
  lemma LinesOfLine(line: string)
    requires NoneIn(line, {'\n'}) && line != ""
    ensures Lines(line) == [line]
  {
    SplitWithoutSeparator(line, {'\n'});
  }
}
