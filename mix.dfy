/** Mixing the clips back into one recording, `join_audios` in
    `speech-opt/src/ffopt.rs`: one ffmpeg run takes every clip as an input,
    delays input `i` by its start with an `adelay` filter labelled `[ai]`, and
    mixes all labels with `amix`. */
module Mix {
  import opened Basics
  import opened Text

  /** The part of `std::process::Command` the tool uses: a program and the
      arguments added to it so far, in order. */
  class Command {
    var program: string
    var args: seq<string>

    constructor(program: string)
      ensures this.program == program && args == []
    {
      this.program := program;
      args := [];
    }

    /** `Command::arg`: append one argument. */
    method Arg(arg: string)
      modifies this
      ensures program == old(program) && args == old(args) + [arg]
    {
      args := args + [arg];
    }
  }

  /** The label of delayed input `i`: `[ai]`. */
  function Label(i: nat): string {
    "[a" + NatToString(i) + "]"
  }

  /** `format!("[{}]adelay={}|{}[{}]", i, ms, ms, format!("a{}", i))`, with
      `ms` the start in whole milliseconds. */
  function DelayPart(i: nat, start: Duration): string {
    var ms := NatToString(AsMillis(start));
    "[" + NatToString(i) + "]adelay=" + ms + "|" + ms + Label(i)
  }

  /** The delay filters of the inputs, in input order. */
  function DelayParts(info: seq<(Duration, string)>): (parts: seq<string>)
    ensures |parts| == |info|
  {
    seq(|info|, i requires 0 <= i < |info| => DelayPart(i, info[i].0))
  }

  /** The labels `[a0]` to `[a(n-1)]`, in order. */
  function Labels(n: nat): (labels: seq<string>)
    ensures |labels| == n
  {
    seq(n, i requires 0 <= i < n => Label(i))
  }

  /** `format!("{}amix={}", index_vec.join(""), n)`. */
  function AmixPart(n: nat): string {
    Join(Labels(n), "") + "amix=" + NatToString(n)
  }

  /** The filter graph: every delay, then the mix, joined with `;`. */
  function FilterGraph(info: seq<(Duration, string)>): string {
    Join(DelayParts(info) + [AmixPart(|info|)], ";")
  }

  /** `-i path` for every input, in order. */
  function InputArgs(info: seq<(Duration, string)>): (args: seq<string>)
    ensures |args| == 2 * |info|
  {
    if info == [] then []
    else
      var n := |info| - 1;
      InputArgs(info[..n]) + ["-i", info[n].1]
  }

  /** The arguments of the mixing run. */
  function MixArgs(info: seq<(Duration, string)>, output: string): seq<string> {
    ["-y"] + InputArgs(info) + ["-filter_complex", FilterGraph(info), output]
  }

  /** `join_audios`: build the ffmpeg command input by input, then the filter
      graph, and run it; `started` tells whether the process could be
      started (its exit status is not looked at). */
  method JoinAudios(info: seq<(Duration, string)>, output: string, started: bool)
    returns (command: Command, r: Result<()>)
    ensures fresh(command)
    ensures command.program == "ffmpeg" && command.args == MixArgs(info, output)
    ensures r == if started then Ok(()) else Err(SpawnFailed)
  {
    command := new Command("ffmpeg");
    command.Arg("-y");
    var filterComplex: seq<string> := [];
    var indexVec: seq<string> := [];
    var i := 0;
    while i < |info|
      invariant 0 <= i <= |info|
      invariant command.program == "ffmpeg" && command.args == ["-y"] + InputArgs(info[..i])
      invariant filterComplex == DelayParts(info[..i])
      invariant indexVec == Labels(i)
    {
      var (start, audio) := info[i];
      var startSpot := AsMillis(start);
      command.Arg("-i");
      command.Arg(audio);
      MixStep(info, i);
      var ms := NatToString(startSpot);
      filterComplex := filterComplex + ["[" + NatToString(i) + "]adelay=" + ms + "|" + ms + Label(i)];
      indexVec := indexVec + ["[a" + NatToString(i) + "]"];
      i := i + 1;
    }
    assert info[..i] == info;
    var amix := Join(indexVec, "") + "amix=" + NatToString(|info|);
    filterComplex := filterComplex + [amix];
    var filter := Join(filterComplex, ";");
    command.Arg("-filter_complex");
    command.Arg(filter);
    command.Arg(output);
    MixArgsAppended(info, output);
    if !started {
      return command, Err(SpawnFailed);
    }
    return command, Ok(());
  }

  /** The mixing run's arguments, as `join_audios` adds them one by one. */
  lemma MixArgsAppended(info: seq<(Duration, string)>, output: string)
    ensures ["-y"] + InputArgs(info) + ["-filter_complex"] + [FilterGraph(info)] + [output] == MixArgs(info, output)
  {
    var front, back := ["-y"] + InputArgs(info), ["-filter_complex", FilterGraph(info), output];
    assert ["-filter_complex"] + [FilterGraph(info)] + [output] == back;
    assert front + ["-filter_complex"] + [FilterGraph(info)] + [output] == front + back;
  }

  /** One more input: its `-i path`, its delay and its label. */
  lemma MixStep(info: seq<(Duration, string)>, i: nat)
    requires i < |info|
    ensures InputArgs(info[..i + 1]) == InputArgs(info[..i]) + ["-i", info[i].1]
    ensures DelayParts(info[..i + 1]) == DelayParts(info[..i]) + [DelayPart(i, info[i].0)]
    ensures Labels(i + 1) == Labels(i) + [Label(i)]
  {
    assert info[..i + 1][..i] == info[..i];
  }

  /** The mixing run's arguments: `-y`, then `-i path_i` for each clip in list
      order, then `-filter_complex`, the graph and the output path. */
  lemma {:induction false} MixArgsLayout(info: seq<(Duration, string)>, output: string)
    ensures |MixArgs(info, output)| == 2 * |info| + 4
    ensures MixArgs(info, output)[0] == "-y"
    ensures forall i :: 0 <= i < |info| ==>
              MixArgs(info, output)[2 * i + 1] == "-i" && MixArgs(info, output)[2 * i + 2] == info[i].1
    ensures MixArgs(info, output)[2 * |info| + 1] == "-filter_complex"
    ensures MixArgs(info, output)[2 * |info| + 2] == FilterGraph(info)
    ensures MixArgs(info, output)[2 * |info| + 3] == output
  {
    var args, inputs := MixArgs(info, output), InputArgs(info);
    forall i | 0 <= i < |info|
      ensures args[2 * i + 1] == "-i" && args[2 * i + 2] == info[i].1
    {
      InputArgsAt(info, i);
      assert args[2 * i + 1] == inputs[2 * i] && args[2 * i + 2] == inputs[2 * i + 1];
    }
    var n := 2 * |info|;
    assert args[n + 1] == "-filter_complex" && args[n + 2] == FilterGraph(info) && args[n + 3] == output;
  }

  lemma {:induction false} InputArgsAt(info: seq<(Duration, string)>, i: nat)
    requires i < |info|
    ensures InputArgs(info)[2 * i] == "-i" && InputArgs(info)[2 * i + 1] == info[i].1
  {
    var n := |info| - 1;
    if i < n {
      InputArgsAt(info[..n], i);
    }
  }

  lemma DigitsHaveNo(digits: string, c: char)
    requires AllDigits(digits) && !IsDigit(c)
    ensures NoneIn(digits, {c})
  {
    forall k | 0 <= k < |digits| ensures digits[k] != c {
      assert IsDigit(digits[k]);
    }
  }

  /** Concatenations of pieces without `;` have no `;`. */
  lemma NoSemicolonIn(a: string, b: string)
    requires NoneIn(a, {';'}) && NoneIn(b, {';'})
    ensures NoneIn(a + b, {';'})
  {
    forall k | 0 <= k < |a + b| ensures (a + b)[k] != ';' {
      if k < |a| {
        assert (a + b)[k] == a[k];
      } else {
        assert (a + b)[k] == b[k - |a|];
      }
    }
  }

  lemma LabelHasNoSemicolon(i: nat)
    ensures NoneIn(Label(i), {';'})
  {
    DigitsHaveNo(NatToString(i), ';');
    NoSemicolonIn("[a", NatToString(i));
    NoSemicolonIn("[a" + NatToString(i), "]");
  }

  lemma DelayHasNoSemicolon(i: nat, start: Duration)
    ensures NoneIn(DelayPart(i, start), {';'})
  {
    var ms := NatToString(AsMillis(start));
    DigitsHaveNo(ms, ';');
    DigitsHaveNo(NatToString(i), ';');
    LabelHasNoSemicolon(i);
    NoSemicolonIn("[", NatToString(i));
    NoSemicolonIn("[" + NatToString(i), "]adelay=");
    NoSemicolonIn("[" + NatToString(i) + "]adelay=", ms);
    NoSemicolonIn("[" + NatToString(i) + "]adelay=" + ms, "|");
    NoSemicolonIn("[" + NatToString(i) + "]adelay=" + ms + "|", ms);
    NoSemicolonIn("[" + NatToString(i) + "]adelay=" + ms + "|" + ms, Label(i));
  }

  lemma {:induction false} JoinHasNoSemicolon(parts: seq<string>)
    requires forall k :: 0 <= k < |parts| ==> NoneIn(parts[k], {';'})
    ensures NoneIn(Join(parts, ""), {';'})
  {
    if 1 < |parts| {
      JoinHasNoSemicolon(parts[1..]);
      assert parts[0] + "" == parts[0];
      NoSemicolonIn(parts[0], Join(parts[1..], ""));
    }
  }

  lemma AmixHasNoSemicolon(n: nat)
    ensures NoneIn(AmixPart(n), {';'})
  {
    forall k | 0 <= k < n ensures NoneIn(Labels(n)[k], {';'}) {
      LabelHasNoSemicolon(k);
    }
    JoinHasNoSemicolon(Labels(n));
    DigitsHaveNo(NatToString(n), ';');
    NoSemicolonIn(Join(Labels(n), ""), "amix=");
    NoSemicolonIn(Join(Labels(n), "") + "amix=", NatToString(n));
  }

  /** Splitting the filter graph at `;` gives back its `n + 1` parts: the delay
      of input `i` as part `i`, and the mix last. */
  lemma FilterGraphParts(info: seq<(Duration, string)>)
    ensures Split(FilterGraph(info), {';'}) == DelayParts(info) + [AmixPart(|info|)]
    ensures forall i :: 0 <= i < |info| ==> Split(FilterGraph(info), {';'})[i] == DelayPart(i, info[i].0)
    ensures Split(FilterGraph(info), {';'})[|info|] == AmixPart(|info|)
  {
    var parts := DelayParts(info) + [AmixPart(|info|)];
    forall k | 0 <= k < |parts| ensures NoneIn(parts[k], {';'}) {
      if k < |info| {
        DelayHasNoSemicolon(k, info[k].0);
      } else {
        AmixHasNoSemicolon(|info|);
      }
    }
    SplitJoin(parts, ';', {';'});
  }

  /** With no clip the graph is the mix alone, of zero inputs. */
  lemma EmptyMix()
    ensures FilterGraph([]) == "amix=0"
  {
    assert Labels(0) == [];
    assert NatToString(0) == "0";
  }

  lemma FirstLabel()
    ensures Label(0) == "[a0]"
  {
    assert NatToString(0) == "0";
  }

  lemma MillisText(start: Duration)
    requires start == FromMillis(184000)
    ensures NatToString(AsMillis(start)) == "184000"
  {
    assert AsMillis(start) == 184000;
  }

  lemma OneDelay(start: Duration, part: string)
    requires start == FromMillis(184000) && part == "[0]adelay=184000|184000[a0]"
    ensures DelayPart(0, start) == part
  {
    MillisText(start);
    FirstLabel();
    assert NatToString(0) == "0";
    OneDelayText();
  }

  lemma OneDelayText()
    ensures "[" + "0" + "]adelay=" + "184000" + "|" + "184000" + "[a0]" == "[0]adelay=184000|184000[a0]"
  {
    assert "[" + "0" + "]adelay=" == "[0]adelay=";
    assert "[0]adelay=" + "184000" == "[0]adelay=184000";
    assert "[0]adelay=184000" + "|" == "[0]adelay=184000|";
    assert "[0]adelay=184000|" + "184000" == "[0]adelay=184000|184000";
    assert "[0]adelay=184000|184000" + "[a0]" == "[0]adelay=184000|184000[a0]";
  }

  lemma OneAmix(part: string)
    requires part == "[a0]amix=1"
    ensures AmixPart(1) == part
  {
    assert NatToString(0) == "0" && NatToString(1) == "1";
    assert Label(0) == "[a0]";
    assert Labels(1) == ["[a0]"];
    assert AmixPart(1) == "[a0]" + "amix=" + "1";
  }

  /** One clip that starts 184 s in: `[0]adelay=184000|184000[a0];[a0]amix=1`. */
  lemma OneClipMix(info: seq<(Duration, string)>, graph: string)
    requires info == [(FromMillis(184000), "x#0.mp3")]
    requires graph == "[0]adelay=184000|184000[a0];[a0]amix=1"
    ensures FilterGraph(info) == graph
  {
    var delay, amix := "[0]adelay=184000|184000[a0]", "[a0]amix=1";
    OneDelay(info[0].0, delay);
    OneAmix(amix);
    assert DelayParts(info) == [delay];
    assert FilterGraph(info) == Join([delay, amix], ";");
    assert Join([delay, amix], ";") == delay + ";" + amix;
  }
}
