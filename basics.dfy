/** Values shared by every part of the speech-opt model: optional and fallible
    results, the error conditions the tool can end in, and time spans.

    A `Duration` is Rust's `std::time::Duration`, kept as a whole number of
    nanoseconds (its own resolution), so millisecond truncation (`as_millis`)
    and subtraction underflow (which panics in Rust) can be stated exactly. */
module Basics {

  datatype Option<+T> = None | Some(value: T)

  /** The ways an operation of the tool ends without a value. The first five are
      `Err` returns (`anyhow::Error`); the last four are panics (an `unwrap` or
      an arithmetic underflow), which abort the whole run. */
  datatype Error =
    | SpawnFailed             // `Command::output()` could not start ffmpeg
    | FailedToGetDuration     // "failed to get duration"
    | FailedToParseTimestamp  // "Failed to parse timestamp"
    | ParseIntError           // `u64::from_str` rejected a token
    | ParseFloatError         // `f64::from_str` rejected a token
    | DurationUnderflow       // panic: `Duration - Duration` with a larger right side
    | CaptureNotNumeric       // panic: `parse().unwrap()` on a silencedetect field
    | NoFileName              // panic: `file_name().unwrap()` on a path without one
    | CellMissing             // panic: indexing a table row past its last cell
  {
    predicate IsPanic() {
      DurationUnderflow? || CaptureNotNumeric? || NoFileName? || CellMissing?
    }
  }

  datatype Result<+T> = Ok(value: T) | Err(error: Error)

  /** Apply `f` to each element in order, as a loop that pushes each value
      and returns the first failure (`?` or `unwrap` inside the loop). */
  function Collect<A, B>(xs: seq<A>, f: A -> Result<B>): (r: Result<seq<B>>)
    ensures r.Ok? ==> |r.value| == |xs|
  {
    if xs == [] then Ok([])
    else
      var n := |xs| - 1;
      match Collect(xs[..n], f)
      case Err(e) => Err(e)
      case Ok(done) =>
        match f(xs[n])
        case Err(e) => Err(e)
        case Ok(y) => Ok(done + [y])
  }

  /** Collecting succeeds exactly when every element succeeds, and then the
      k-th value is the k-th element's. */
  lemma {:induction false} CollectAllOk<A, B>(xs: seq<A>, f: A -> Result<B>)
    ensures Collect(xs, f).Ok? <==> forall k :: 0 <= k < |xs| ==> f(xs[k]).Ok?
    ensures Collect(xs, f).Ok? ==> forall k :: 0 <= k < |xs| ==> Collect(xs, f).value[k] == f(xs[k]).value
  {
    if xs != [] {
      var n := |xs| - 1;
      CollectAllOk(xs[..n], f);
      assert forall k :: 0 <= k < n ==> xs[..n][k] == xs[k];
      if Collect(xs[..n], f).Err? {
        var k :| 0 <= k < n && !f(xs[..n][k]).Ok?;
        assert !f(xs[k]).Ok?;
      }
    }
  }

  /** A failed collection reports the failure of the first element that
      fails. */
  lemma {:induction false} CollectFirstFailure<A, B>(xs: seq<A>, f: A -> Result<B>)
    requires Collect(xs, f).Err?
    ensures exists k :: 0 <= k < |xs| && f(xs[k]) == Err(Collect(xs, f).error)
                        && forall m :: 0 <= m < k ==> f(xs[m]).Ok?
  {
    var n := |xs| - 1;
    CollectAllOk(xs[..n], f);
    assert forall m :: 0 <= m < n ==> xs[..n][m] == xs[m];
    if Collect(xs[..n], f).Err? {
      CollectFirstFailure(xs[..n], f);
      var k :| 0 <= k < n && f(xs[..n][k]) == Err(Collect(xs[..n], f).error)
               && forall m :: 0 <= m < k ==> f(xs[..n][m]).Ok?;
      assert xs[..n][k] == xs[k];
    }
  }

  /** One more loop step. */
  lemma CollectStep<A, B>(xs: seq<A>, f: A -> Result<B>, i: nat, done: seq<B>)
    requires i < |xs| && Collect(xs[..i], f) == Ok(done)
    ensures Collect(xs[..i + 1], f) == match f(xs[i]) case Err(e) => Err(e) case Ok(y) => Ok(done + [y])
  {
    assert xs[..i + 1][..i] == xs[..i];
  }

  /** Once a prefix fails, the whole collection fails the same way. */
  lemma {:induction false} CollectFailureStays<A, B>(xs: seq<A>, f: A -> Result<B>, i: nat)
    requires i <= |xs| && Collect(xs[..i], f).Err?
    ensures Collect(xs, f) == Collect(xs[..i], f)
    decreases |xs| - i
  {
    if i < |xs| {
      assert xs[..i + 1][..i] == xs[..i];
      CollectFailureStays(xs, f, i + 1);
    } else {
      assert xs[..i] == xs;
    }
  }

  /** A sequence is its front and its back put together. */
  lemma FrontAndBack<T>(xs: seq<T>, k: nat)
    requires k <= |xs|
    ensures xs[..k] + xs[k..] == xs
  {
  }

  /** Collecting one more element after a successful prefix. */
  lemma CollectLast<A, B>(xs: seq<A>, x: A, f: A -> Result<B>)
    requires Collect(xs, f).Ok?
    ensures Collect(xs + [x], f) == match f(x) case Err(e) => Err(e) case Ok(y) => Ok(Collect(xs, f).value + [y])
  {
    assert (xs + [x])[..|xs|] == xs;
  }

  /** A failing front fails the whole collection the same way. */
  lemma CollectFailureFirst<A, B>(xs: seq<A>, ys: seq<A>, f: A -> Result<B>)
    requires Collect(xs, f).Err?
    ensures Collect(xs + ys, f) == Collect(xs, f)
  {
    assert (xs + ys)[..|xs|] == xs;
    CollectFailureStays(xs + ys, f, |xs|);
  }

  /** An optional value as a list of zero or one entries. */
  function AsList<T>(o: Option<T>): seq<T> {
    match o
    case None => []
    case Some(x) => [x]
  }

  /** The values `f` finds in `xs`, in order. */
  function Matches<A, B>(xs: seq<A>, f: A -> Option<B>): seq<B> {
    if xs == [] then [] else Matches(xs[..|xs| - 1], f) + AsList(f(xs[|xs| - 1]))
  }

  /** Time spans in nanoseconds. */
  type Duration = nat

  const NanosPerMilli: nat := 1_000_000
  const NanosPerCenti: nat := 10_000_000
  const NanosPerSecond: nat := 1_000_000_000

  /** One more than the largest `u64`. */
  const U64Limit: nat := 0x1_0000_0000_0000_0000

  /** `Duration::as_millis`: whole milliseconds, the rest truncated. */
  function AsMillis(d: Duration): nat {
    d / NanosPerMilli
  }

  /** `Duration::from_millis`. */
  function FromMillis(ms: nat): Duration {
    ms * NanosPerMilli
  }

  /** A `(start, end)` pair of offsets: a silence reported by ffmpeg, or a piece
      of speech between two silences. */
  datatype Interval = Interval(start: Duration, end: Duration)

  /** What running ffmpeg through `Command::output()` gave back: either it could
      not be started, or it ran and wrote this text on its standard error. */
  datatype ToolRun = NotStarted | Ran(stderr: string)
}
