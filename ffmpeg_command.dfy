/** The encoder invocation the worker builds (main.py:18-23), and an ffmpeg-style reading of
    an argument list that recovers its inputs, their options, the output options and the
    output file. The reading is the independent reference the command is proved against. */
module FfmpegCommand {
  import opened Wrappers

  /** The argument list for one stitching job: loop the still image, add the audio track,
      encode with the given bitrates, stop at the shorter stream, write `output`. */
  function StitchCommand(image: string, audio: string, output: string,
                         videoBitrate: string, audioBitrate: string): (argv: seq<string>)
    ensures |argv| == 21 && argv[0] == "ffmpeg" && argv[|argv| - 1] == output
  {
    ["ffmpeg", "-loop", "1", "-i", image, "-i", audio,
     "-c:v", "libx264", "-b:v", videoBitrate, "-tune", "stillimage",
     "-c:a", "aac", "-b:a", audioBitrate, "-pix_fmt", "yuv420p",
     "-shortest", output]
  }

  /** One command-line option: with a value (`-b:v 1000k`) or a bare switch (`-shortest`). */
  datatype Arg = Valued(name: string, value: string) | Switch(name: string)

  /** An input file with the options written before it. */
  datatype Input = Input(options: seq<Arg>, path: string)

  /** A decoded command line. */
  datatype Invocation = Invocation(program: string, inputs: seq<Input>,
                                   outputOptions: seq<Arg>, output: string)

  /** The options of the command above that take a value, and the one that does not. */
  const ValuedOptions: set<string> :=
    {"-loop", "-i", "-c:v", "-b:v", "-tune", "-c:a", "-b:a", "-pix_fmt"}
  const Switches: set<string> := {"-shortest"}

  /** Reads options positionally: an element that follows a valued option is its value,
      whatever it spells. `None` when an element is not a known option or a value is missing. */
  function ParseOptions(args: seq<string>): Option<seq<Arg>>
    decreases |args|
  {
    if args == [] then Some([])
    else if args[0] in Switches then
      match ParseOptions(args[1..])
      case None => None
      case Some(rest) => Some([Switch(args[0])] + rest)
    else if args[0] in ValuedOptions && |args| >= 2 then
      match ParseOptions(args[2..])
      case None => None
      case Some(rest) => Some([Valued(args[0], args[1])] + rest)
    else None
  }

  /** Groups options the way ffmpeg applies them: options before an `-i` belong to that
      input, options after the last `-i` belong to the output. */
  function GroupInputs(opts: seq<Arg>, pending: seq<Arg>): (seq<Input>, seq<Arg>)
    decreases |opts|
  {
    if opts == [] then ([], pending)
    else if opts[0].Valued? && opts[0].name == "-i" then
      var (inputs, outputOptions) := GroupInputs(opts[1..], []);
      ([Input(pending, opts[0].value)] + inputs, outputOptions)
    else GroupInputs(opts[1..], pending + [opts[0]])
  }

  /** The program name, then options, then the output file as the last element. */
  function Decode(argv: seq<string>): Option<Invocation>
  {
    if |argv| < 2 then None
    else
      match ParseOptions(argv[1..|argv| - 1])
      case None => None
      case Some(opts) =>
        var (inputs, outputOptions) := GroupInputs(opts, []);
        Some(Invocation(argv[0], inputs, outputOptions, argv[|argv| - 1]))
  }

  /** The values given to option `name`, in order. */
  function ValuesOf(opts: seq<Arg>, name: string): seq<string>
  {
    if opts == [] then []
    else if opts[0].Valued? && opts[0].name == name then [opts[0].value] + ValuesOf(opts[1..], name)
    else ValuesOf(opts[1..], name)
  }

  /** The output options of the stitching command. */
  function StitchOutputOptions(videoBitrate: string, audioBitrate: string): seq<Arg>
  {
    [Valued("-c:v", "libx264"), Valued("-b:v", videoBitrate), Valued("-tune", "stillimage"),
     Valued("-c:a", "aac"), Valued("-b:a", audioBitrate), Valued("-pix_fmt", "yuv420p"),
     Switch("-shortest")]
  }

  /** The stitching command decodes, for every choice of paths and bitrates (even paths
      that look like options), into exactly two inputs: the image, looped, then the audio
      with no input options; the output options carry the given bitrates; the output file
      is the last element. */
  lemma StitchCommandDecodes(image: string, audio: string, output: string,
                              videoBitrate: string, audioBitrate: string)
    ensures Decode(StitchCommand(image, audio, output, videoBitrate, audioBitrate))
         == Some(Invocation("ffmpeg",
                            [Input([Valued("-loop", "1")], image), Input([], audio)],
                            StitchOutputOptions(videoBitrate, audioBitrate),
                            output))
  {
    var outs := StitchOutputOptions(videoBitrate, audioBitrate);
    var body := ["-loop", "1", "-i", image, "-i", audio] + OutputArgs(videoBitrate, audioBitrate);
    assert StitchCommand(image, audio, output, videoBitrate, audioBitrate) == ["ffmpeg"] + body + [output];
    StitchOptionsParse(image, audio, videoBitrate, audioBitrate);
    OutputOptionsUngrouped(videoBitrate, audioBitrate);
    StitchOptionsGroup(image, audio, outs);
    DecodeParts("ffmpeg", body, output);
  }

  /** A command line is its program, its options and its output file. */
  lemma DecodeParts(program: string, body: seq<string>, output: string)
    ensures Decode([program] + body + [output])
         == match ParseOptions(body)
            case None => None
            case Some(opts) => Some(Invocation(program, GroupInputs(opts, []).0,
                                               GroupInputs(opts, []).1, output))
  {
    var argv := [program] + body + [output];
    assert argv[1..|argv| - 1] == body;
  }

  /** The output options of the stitching command, as arguments. */
  function OutputArgs(videoBitrate: string, audioBitrate: string): seq<string>
  {
    ["-c:v", "libx264", "-b:v", videoBitrate, "-tune", "stillimage",
     "-c:a", "aac", "-b:a", audioBitrate, "-pix_fmt", "yuv420p", "-shortest"]
  }

  /** The options between the program name and the output file read back as written. */
  lemma StitchOptionsParse(image: string, audio: string, videoBitrate: string, audioBitrate: string)
    ensures ParseOptions(["-loop", "1", "-i", image, "-i", audio] + OutputArgs(videoBitrate, audioBitrate))
         == Some([Valued("-loop", "1"), Valued("-i", image), Valued("-i", audio)]
                 + StitchOutputOptions(videoBitrate, audioBitrate))
  {
    var tail := OutputArgs(videoBitrate, audioBitrate);
    var outs := StitchOutputOptions(videoBitrate, audioBitrate);
    OutputOptionsParse(videoBitrate, audioBitrate);
    var t3 := ["-i", audio] + tail;
    ParseValued("-i", audio, tail);
    var t2 := ["-i", image] + t3;
    ParseValued("-i", image, t3);
    var t1 := ["-loop", "1"] + t2;
    ParseValued("-loop", "1", t2);
    assert [Valued("-loop", "1")] + ([Valued("-i", image)] + ([Valued("-i", audio)] + outs))
        == [Valued("-loop", "1"), Valued("-i", image), Valued("-i", audio)] + outs;
    assert t1 == ["-loop", "1", "-i", image, "-i", audio] + tail;
  }

  /** A looped image input, an audio input, then options without `-i` group as two inputs. */
  lemma StitchOptionsGroup(image: string, audio: string, outs: seq<Arg>)
    requires GroupInputs(outs, []) == ([], outs)
    ensures GroupInputs([Valued("-loop", "1"), Valued("-i", image), Valued("-i", audio)] + outs, [])
         == ([Input([Valued("-loop", "1")], image), Input([], audio)], outs)
  {
    var loop := [Valued("-loop", "1")];
    var o3 := [Valued("-i", audio)] + outs;
    var o2 := [Valued("-i", image)] + o3;
    var o1 := loop + o2;
    GroupInput(audio, outs, []);
    assert GroupInputs(o3, []) == ([Input([], audio)], outs) by {
      assert [Input([], audio)] + [] == [Input([], audio)];
    }
    GroupInput(image, o3, loop);
    assert [Input(loop, image)] + [Input([], audio)] == [Input(loop, image), Input([], audio)];
    assert GroupInputs(o2, loop) == ([Input(loop, image), Input([], audio)], outs);
    GroupOption(Valued("-loop", "1"), o2, []);
    assert [] + loop == loop;
    assert o1 == [Valued("-loop", "1"), Valued("-i", image), Valued("-i", audio)] + outs;
  }

  /** An `-i` closes the current input with the options gathered so far. */
  lemma GroupInput(path: string, rest: seq<Arg>, pending: seq<Arg>)
    ensures GroupInputs([Valued("-i", path)] + rest, pending)
         == ([Input(pending, path)] + GroupInputs(rest, []).0, GroupInputs(rest, []).1)
  {
    assert ([Valued("-i", path)] + rest)[1..] == rest;
  }

  /** Any other option is gathered for the next input (or the output). */
  lemma GroupOption(arg: Arg, rest: seq<Arg>, pending: seq<Arg>)
    requires !(arg.Valued? && arg.name == "-i")
    ensures GroupInputs([arg] + rest, pending) == GroupInputs(rest, pending + [arg])
  {
    assert ([arg] + rest)[1..] == rest;
  }

  /** No output option of the command opens another input. */
  lemma OutputOptionsUngrouped(videoBitrate: string, audioBitrate: string)
    ensures GroupInputs(StitchOutputOptions(videoBitrate, audioBitrate), [])
         == ([], StitchOutputOptions(videoBitrate, audioBitrate))
  {
    var outs := StitchOutputOptions(videoBitrate, audioBitrate);
    NoInputAmong(outs, []);
    assert [] + outs == outs;
  }

  /** One valued option in front of a readable rest. */
  lemma ParseValued(name: string, value: string, rest: seq<string>)
    requires name in ValuedOptions && name !in Switches && ParseOptions(rest).Some?
    ensures ParseOptions([name, value] + rest) == Some([Valued(name, value)] + ParseOptions(rest).value)
  {
    assert ([name, value] + rest)[2..] == rest;
  }

  /** The output options of the command parse back to `StitchOutputOptions`. */
  lemma OutputOptionsParse(videoBitrate: string, audioBitrate: string)
    ensures ParseOptions(OutputArgs(videoBitrate, audioBitrate))
         == Some(StitchOutputOptions(videoBitrate, audioBitrate))
  {
    AudioOptionsParse(audioBitrate);
    var t3 := ["-c:a", "aac", "-b:a", audioBitrate, "-pix_fmt", "yuv420p", "-shortest"];
    var p3 := [Valued("-c:a", "aac"), Valued("-b:a", audioBitrate), Valued("-pix_fmt", "yuv420p"),
               Switch("-shortest")];
    ParseValued("-tune", "stillimage", t3);
    ParseValued("-b:v", videoBitrate, ["-tune", "stillimage"] + t3);
    ParseValued("-c:v", "libx264", ["-b:v", videoBitrate] + (["-tune", "stillimage"] + t3));
    assert ["-c:v", "libx264"] + (["-b:v", videoBitrate] + (["-tune", "stillimage"] + t3))
        == OutputArgs(videoBitrate, audioBitrate);
    assert [Valued("-c:v", "libx264")] + ([Valued("-b:v", videoBitrate)] + ([Valued("-tune", "stillimage")] + p3))
        == StitchOutputOptions(videoBitrate, audioBitrate);
  }

  /** The audio and pixel-format part of the output options. */
  lemma AudioOptionsParse(audioBitrate: string)
    ensures ParseOptions(["-c:a", "aac", "-b:a", audioBitrate, "-pix_fmt", "yuv420p", "-shortest"])
         == Some([Valued("-c:a", "aac"), Valued("-b:a", audioBitrate), Valued("-pix_fmt", "yuv420p"),
                  Switch("-shortest")])
  {
    var last: seq<string> := ["-shortest"];
    assert ParseOptions(last) == Some([Switch("-shortest")]) by {
      assert last[1..] == [];
      assert [Switch("-shortest")] + [] == [Switch("-shortest")];
    }
    ParseValued("-pix_fmt", "yuv420p", last);
    ParseValued("-b:a", audioBitrate, ["-pix_fmt", "yuv420p"] + last);
    ParseValued("-c:a", "aac", ["-b:a", audioBitrate] + (["-pix_fmt", "yuv420p"] + last));
    assert ["-c:a", "aac"] + (["-b:a", audioBitrate] + (["-pix_fmt", "yuv420p"] + last))
        == ["-c:a", "aac", "-b:a", audioBitrate, "-pix_fmt", "yuv420p", "-shortest"];
    assert [Valued("-c:a", "aac")] + ([Valued("-b:a", audioBitrate)] + ([Valued("-pix_fmt", "yuv420p")]
           + [Switch("-shortest")]))
        == [Valued("-c:a", "aac"), Valued("-b:a", audioBitrate), Valued("-pix_fmt", "yuv420p"),
            Switch("-shortest")];
  }

  /** Options without any `-i` are all output options. */
  lemma {:induction false} NoInputAmong(opts: seq<Arg>, pending: seq<Arg>)
    requires forall k :: 0 <= k < |opts| ==> !(opts[k].Valued? && opts[k].name == "-i")
    ensures GroupInputs(opts, pending) == ([], pending + opts)
  {
    if opts != [] {
      NoInputAmong(opts[1..], pending + [opts[0]]);
      assert pending + [opts[0]] + opts[1..] == pending + opts;
    } else {
      assert pending + opts == pending;
    }
  }

  /** Each bitrate is given exactly once, to the option that sets it. */
  lemma StitchBitrates(videoBitrate: string, audioBitrate: string)
    ensures ValuesOf(StitchOutputOptions(videoBitrate, audioBitrate), "-b:v") == [videoBitrate]
    ensures ValuesOf(StitchOutputOptions(videoBitrate, audioBitrate), "-b:a") == [audioBitrate]
  {
    var o7: seq<Arg> := [Switch("-shortest")];
    ValuesOfFront(Switch("-shortest"), [], "-b:v");
    ValuesOfFront(Switch("-shortest"), [], "-b:a");
    assert o7 == [Switch("-shortest")] + [];
    var o6 := [Valued("-pix_fmt", "yuv420p")] + o7;
    ValuesOfFront(Valued("-pix_fmt", "yuv420p"), o7, "-b:v");
    ValuesOfFront(Valued("-pix_fmt", "yuv420p"), o7, "-b:a");
    var o5 := [Valued("-b:a", audioBitrate)] + o6;
    ValuesOfFront(Valued("-b:a", audioBitrate), o6, "-b:v");
    ValuesOfFront(Valued("-b:a", audioBitrate), o6, "-b:a");
    assert ValuesOf(o5, "-b:a") == [audioBitrate];
    var o4 := [Valued("-c:a", "aac")] + o5;
    ValuesOfFront(Valued("-c:a", "aac"), o5, "-b:v");
    ValuesOfFront(Valued("-c:a", "aac"), o5, "-b:a");
    var o3 := [Valued("-tune", "stillimage")] + o4;
    ValuesOfFront(Valued("-tune", "stillimage"), o4, "-b:v");
    ValuesOfFront(Valued("-tune", "stillimage"), o4, "-b:a");
    var o2 := [Valued("-b:v", videoBitrate)] + o3;
    ValuesOfFront(Valued("-b:v", videoBitrate), o3, "-b:v");
    ValuesOfFront(Valued("-b:v", videoBitrate), o3, "-b:a");
    assert ValuesOf(o2, "-b:v") == [videoBitrate];
    var o1 := [Valued("-c:v", "libx264")] + o2;
    ValuesOfFront(Valued("-c:v", "libx264"), o2, "-b:v");
    ValuesOfFront(Valued("-c:v", "libx264"), o2, "-b:a");
    assert o1 == StitchOutputOptions(videoBitrate, audioBitrate);
  }

  /** The values of an option in a list that starts with `arg`. */
  lemma ValuesOfFront(arg: Arg, rest: seq<Arg>, name: string)
    ensures ValuesOf([arg] + rest, name)
         == (if arg.Valued? && arg.name == name then [arg.value] else []) + ValuesOf(rest, name)
  {
    assert ([arg] + rest)[1..] == rest;
  }
}
