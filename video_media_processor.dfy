/** The video processor's planning (`processors/videoMediaProcessor.ts`): which probed
    streams are dropped, which configured outputs are produced, and the ffmpeg
    invocation built for them. The invocation is modelled as the option strings the
    builder accumulates: global and input options, then one output per selected
    configuration with its own options and codecs. */
module VideoMediaProcessor {
  import opened Wrappers
  import opened Text
  import opened Seqs
  import Paths
  import opened MediaProcessor

  /** A frame size `[width, height]`. */
  datatype Size = Size(width: int, height: int)

  /** An ffprobe stream: its index, `codec_type`, frame size (for video) and the values
      of its `tags` object, `None` when the stream has no tags. */
  datatype Stream = Stream(index: nat, codecType: string, size: Size, tags: Option<seq<string>>)

  /** `VideoProcessingOutputConfig`: an output's name, its target size (read by the older
      processor), its candidate sample sizes, one per aspect ratio (read by the newer
      one), the codec and the preset. */
  datatype OutputConfig = OutputConfig(name: string, resolution: Size, resolutions: seq<Size>, codec: string, preset: string)

  /** `CONFIG.processing.movies`: the outputs, and the extra options added to each. The
      output file naming function is a parameter. */
  datatype ProcessingRule = ProcessingRule(outputs: seq<OutputConfig>, additionalParams: seq<string>)

  /** One output of the invocation: its file, the options added to it in order, and the
      audio and video codecs set on it. */
  datatype Output = Output(path: string, options: seq<string>, audioCodec: string, videoCodec: string)

  /** The invocation: global options, the input with its options, and the outputs. */
  datatype Command = Command(globalOptions: seq<string>, input: string, inputOptions: seq<string>, outputs: seq<Output>)

  /** How a `process` call ends: rejected before ffmpeg runs, or ffmpeg started on the
      command with the record that `done` will carry. */
  datatype PlanOutcome = Rejected(reason: string) | Started(command: Command, processing: CustomerOrderProcessing)

  const VideoStreamNotFound := "video stream not found"
  const NoSuitableResolution := "no suitable resolution found"
  const ProbeFailed := "probe failed"

  /** The options that turn on VA-API decoding on the input. */
  const VaapiInputOptions := ["-hwaccel", "vaapi", "-hwaccel_output_format", "vaapi", "-vaapi_device", "/dev/dri/renderD128"]

  /** `_findVideoStream`: the first video stream; there being none is an error. */
  function FindVideoStream(streams: seq<Stream>): (r: Result<Stream, string>)
    ensures r.Success? ==> r.value in streams && r.value.codecType == "video"
    ensures r.Success? ==>
      exists i :: 0 <= i < |streams| && streams[i] == r.value && forall j :: 0 <= j < i ==> streams[j].codecType != "video"
    ensures r.Failure? <==> forall i :: 0 <= i < |streams| ==> streams[i].codecType != "video"
  {
    match First(streams, (s: Stream) => s.codecType == "video")
    case None => Failure(VideoStreamNotFound)
    case Some(i) => Success(streams[i])
  }

  /** `values.some(tag => allowed.some(a => tag.includes(a)))` */
  predicate TagAllowed(values: seq<string>, allowed: seq<string>) {
    Any(values, (tag: string) => Any(allowed, (a: string) => Contains(tag, a)))
  }

  /** A tag list is allowed exactly when one of its values contains one of the allowed
      substrings. */
  lemma TagAllowedIff(values: seq<string>, allowed: seq<string>)
    ensures TagAllowed(values, allowed) <==>
      exists i, j :: 0 <= i < |values| && 0 <= j < |allowed| && Contains(values[i], allowed[j])
  {
    var inner := (tag: string) => Any(allowed, (a: string) => Contains(tag, a));
    AnyIff(values, inner);
    forall i | 0 <= i < |values|
      ensures inner(values[i]) <==> exists j :: 0 <= j < |allowed| && Contains(values[i], allowed[j])
    {
      AnyIff(allowed, (a: string) => Contains(values[i], a));
    }
  }

  /** The test `_filterExcludedStreams` applies: a stream with tags is dropped when it is
      audio and no tag value holds an allowed audio substring, or a subtitle and none
      holds an allowed subtitle substring. */
  predicate Excluded(config: VideoMediaConfiguration, s: Stream) {
    && s.tags.Some?
    && (if s.codecType == "audio" then !TagAllowed(s.tags.value, config.allowedAudio)
        else s.codecType == "subtitle" && !TagAllowed(s.tags.value, config.allowedSubs))
  }

  /** `_filterExcludedStreams` */
  function ExcludedStreams(streams: seq<Stream>, config: VideoMediaConfiguration): seq<Stream> {
    Filter(streams, (s: Stream) => Excluded(config, s))
  }

  /** A stream is dropped exactly when it has tags and is an audio (subtitle) stream none
      of whose tag values holds an allowed audio (subtitle) substring; streams without
      tags and streams of other kinds are kept. */
  lemma ExcludedStreamsIff(streams: seq<Stream>, config: VideoMediaConfiguration, s: Stream)
    requires s in streams
    ensures s in ExcludedStreams(streams, config) <==>
      && s.tags.Some?
      && (s.codecType == "audio" || s.codecType == "subtitle")
      && var allowed := if s.codecType == "audio" then config.allowedAudio else config.allowedSubs;
         forall i, j :: 0 <= i < |s.tags.value| && 0 <= j < |allowed| ==> !Contains(s.tags.value[i], allowed[j])
  {
    var r := ExcludedStreams(streams, config);
    if s in r {
      var k :| 0 <= k < |r| && r[k] == s;
    }
    if s.tags.Some? {
      TagAllowedIff(s.tags.value, config.allowedAudio);
      TagAllowedIff(s.tags.value, config.allowedSubs);
    }
  }

  /** The `-map -0:<index>` pairs that drop the excluded streams, in filter order. */
  function ExclusionMaps(excluded: seq<Stream>): (r: seq<string>)
    ensures |r| == 2 * |excluded|
    decreases |excluded|
  {
    if excluded == [] then []
    else ["-map", "-0:" + NatToString(excluded[0].index)] + ExclusionMaps(excluded[1..])
  }

  /** The options hold one "-map" pair per excluded stream, in order, each naming the
      stream's index negated. */
  lemma {:induction false} ExclusionMapsPairs(excluded: seq<Stream>)
    ensures forall i :: 0 <= i < |excluded| ==>
      ExclusionMaps(excluded)[2 * i] == "-map" && ExclusionMaps(excluded)[2 * i + 1] == "-0:" + NatToString(excluded[i].index)
    decreases |excluded|
  {
    if excluded != [] {
      var r, rest := ExclusionMaps(excluded), ExclusionMaps(excluded[1..]);
      ExclusionMapsPairs(excluded[1..]);
      forall i | 1 <= i < |excluded|
        ensures r[2 * i] == "-map" && r[2 * i + 1] == "-0:" + NatToString(excluded[i].index)
      {
        var j := i - 1;
        assert excluded[1..][j] == excluded[i];
        assert r[2 * i] == rest[2 * j] && r[2 * i + 1] == rest[2 * j + 1];
      }
    }
  }

  /** `aspect(size)`: `(width / height).toFixed(2)`, a floating-point computation left
      abstract; two sizes share an aspect ratio when their keys are equal. */
  type AspectKey = Size -> string

  /** The sample size `config.resolutions.find(...)` picks: the first candidate with the
      source's aspect key. */
  function SampleFor(config: OutputConfig, source: Size, aspect: AspectKey): (r: Option<Size>)
    ensures r.Some? ==> r.value in config.resolutions && aspect(r.value) == aspect(source)
    ensures r.None? <==> forall j :: 0 <= j < |config.resolutions| ==> aspect(config.resolutions[j]) != aspect(source)
  {
    match First(config.resolutions, (r: Size) => aspect(r) == aspect(source))
    case None => None
    case Some(i) => Some(config.resolutions[i])
  }

  /** Whether `process` produces an output for `config`: its name is among the
      customer's resolutions and its sample size exists and is no wider than the
      source. */
  predicate Used(config: OutputConfig, wanted: seq<string>, source: Size, aspect: AspectKey) {
    config.name in wanted && SampleFor(config, source, aspect).Some? && SampleFor(config, source, aspect).value.width <= source.width
  }

  /** `_processOutputOptions`: the video codec and the options it adds. The codec is
      `copy`, with an explicit size, when the sample size is the source size;
      otherwise it is the configured codec (so `copy` again when that is configured),
      scaled on the GPU when that codec is a VA-API one. */
  function VideoOptions(config: OutputConfig, source: Size, sample: Size): (r: (string, seq<string>))
    ensures r.0 == "copy" <==> source == sample || config.codec == "copy"
    ensures source == sample ==> r.1 == ["-s", IntToString(sample.width) + "x" + IntToString(sample.height)]
    ensures source != sample ==> r.0 == config.codec
    ensures source != sample && Contains(config.codec, "vaapi") ==>
      r.1 == ["-vf", "scale_vaapi=w=" + IntToString(sample.width) + ":h=" + IntToString(sample.height)]
    ensures source != sample && !Contains(config.codec, "vaapi") ==> r.1 == []
  {
    if source.width == sample.width && source.height == sample.height then
      ("copy", ["-s", IntToString(sample.width) + "x" + IntToString(sample.height)])
    else if Contains(config.codec, "vaapi") then
      (config.codec, ["-vf", "scale_vaapi=w=" + IntToString(sample.width) + ":h=" + IntToString(sample.height)])
    else (config.codec, [])
  }

  /** `_processInputOptions`: the VA-API input options when any configured output,
      selected or not, uses a VA-API codec. */
  function HwaccelOptions(outputs: seq<OutputConfig>): (r: seq<string>)
    ensures r == VaapiInputOptions <==> exists i :: 0 <= i < |outputs| && Contains(outputs[i].codec, "vaapi")
    ensures r == [] <==> forall i :: 0 <= i < |outputs| ==> !Contains(outputs[i].codec, "vaapi")
  {
    AnyIff(outputs, (c: OutputConfig) => Contains(c.codec, "vaapi"));
    if Any(outputs, (c: OutputConfig) => Contains(c.codec, "vaapi")) then VaapiInputOptions else []
  }

  /** Where the file of an output goes: the job directory joined with the name the
      naming function gives (base name, output name, ".mkv"). */
  function OutputPath(directory: string, naming: (string, string, string) -> string, baseName: string, config: OutputConfig): string {
    Paths.Join(directory, naming(baseName, config.name, ".mkv"))
  }

  /** The output `process` adds for a used configuration with sample size `sample`. */
  function OutputFor(config: OutputConfig, source: Size, sample: Size, excluded: seq<Stream>, additional: seq<string>,
                     path: string): (o: Output)
    ensures o.path == path && o.audioCodec == "copy"
    ensures |o.options| == 6 + |additional| + 2 * |excluded| + |VideoOptions(config, source, sample).1|
    ensures o.options[..6] == ["-preset", config.preset, "-scodec", "copy", "-map", "0"]
    ensures o.options[6..6 + |additional|] == additional
    ensures o.options[6 + |additional|..6 + |additional| + 2 * |excluded|] == ExclusionMaps(excluded)
    ensures o.options[6 + |additional| + 2 * |excluded|..] == VideoOptions(config, source, sample).1
    ensures o.videoCodec == VideoOptions(config, source, sample).0
  {
    var video := VideoOptions(config, source, sample);
    var head := ["-preset", config.preset, "-scodec", "copy", "-map", "0"];
    var options := head + additional + ExclusionMaps(excluded) + video.1;
    assert options[..6] == head;
    assert options[6..6 + |additional|] == additional;
    Output(path, options, "copy", video.0)
  }

  /** Everything one planning run depends on besides the output list. */
  datatype PlanInput = PlanInput(
    wanted: seq<string>, source: Size, aspect: AspectKey, excluded: seq<Stream>, additional: seq<string>,
    directory: string, naming: (string, string, string) -> string, baseName: string)

  /** The outputs `process` adds for the configurations `configs`, in order. */
  function Planned(configs: seq<OutputConfig>, p: PlanInput): seq<Output>
    decreases |configs|
  {
    if configs == [] then []
    else
      var last := configs[|configs| - 1];
      Planned(configs[..|configs| - 1], p) +
        if Used(last, p.wanted, p.source, p.aspect) then [PlannedOutput(last, p)] else []
  }

  /** The output a used configuration gets. */
  function PlannedOutput(config: OutputConfig, p: PlanInput): Output
    requires Used(config, p.wanted, p.source, p.aspect)
  {
    OutputFor(config, p.source, SampleFor(config, p.source, p.aspect).value, p.excluded, p.additional,
              OutputPath(p.directory, p.naming, p.baseName, config))
  }

  /** One more configuration adds its output and itself to the used ones, when it is
      used. */
  lemma PlannedSnoc(configs: seq<OutputConfig>, p: PlanInput)
    requires configs != []
    ensures var init, last := configs[..|configs| - 1], configs[|configs| - 1];
      var used := (c: OutputConfig) => Used(c, p.wanted, p.source, p.aspect);
      && (used(last) ==> Filter(configs, used) == Filter(init, used) + [last] && Planned(configs, p) == Planned(init, p) + [PlannedOutput(last, p)])
      && (!used(last) ==> Filter(configs, used) == Filter(init, used) && Planned(configs, p) == Planned(init, p))
  {
    var init, last := configs[..|configs| - 1], configs[|configs| - 1];
    var used := (c: OutputConfig) => Used(c, p.wanted, p.source, p.aspect);
    assert configs == init + [last];
    FilterAppend(init, [last], used);
    if used(last) {
      assert Filter([last], used) == [last];
    } else {
      assert Filter([last], used) == [];
      assert Filter(init, used) + [] == Filter(init, used);
    }
  }

  /** The outputs are those of the used configurations, one each, in configuration
      order. */
  lemma {:induction false} PlannedIsUsedInOrder(configs: seq<OutputConfig>, p: PlanInput)
    ensures var used := Filter(configs, (c: OutputConfig) => Used(c, p.wanted, p.source, p.aspect));
      |Planned(configs, p)| == |used| &&
      forall i :: 0 <= i < |used| ==> Planned(configs, p)[i] == PlannedOutput(used[i], p)
    decreases |configs|
  {
    if configs != [] {
      var init, last := configs[..|configs| - 1], configs[|configs| - 1];
      PlannedIsUsedInOrder(init, p);
      PlannedSnoc(configs, p);
      if Used(last, p.wanted, p.source, p.aspect) {
        var before := Filter(init, (c: OutputConfig) => Used(c, p.wanted, p.source, p.aspect));
        var after := before + [last];
        forall i | 0 <= i < |after|
          ensures Planned(configs, p)[i] == PlannedOutput(after[i], p)
        {
          if i < |before| {
            assert after[i] == before[i];
          }
        }
      }
    }
  }

  /** The paths `process` collects in `result`. */
  function OutputPaths(outputs: seq<Output>): (r: seq<string>)
    ensures |r| == |outputs| && forall i :: 0 <= i < |outputs| ==> r[i] == outputs[i].path
  {
    seq(|outputs|, i requires 0 <= i < |outputs| => outputs[i].path)
  }

  /** Every collected path lies in the job directory, named by the naming function,
      provided the name it gives is a single path segment. */
  lemma PlannedPathsInDirectory(configs: seq<OutputConfig>, p: PlanInput, i: nat)
    requires |p.directory| > 0
    requires forall c :: c in configs ==> '/' !in p.naming(p.baseName, c.name, ".mkv")
    requires i < |Planned(configs, p)|
    ensures var used := Filter(configs, (c: OutputConfig) => Used(c, p.wanted, p.source, p.aspect));
      i < |used| &&
      Paths.Dir(OutputPaths(Planned(configs, p))[i]) == p.directory &&
      Paths.Base(OutputPaths(Planned(configs, p))[i]) == p.naming(p.baseName, used[i].name, ".mkv")
  {
    PlannedIsUsedInOrder(configs, p);
    var used := Filter(configs, (c: OutputConfig) => Used(c, p.wanted, p.source, p.aspect));
    Paths.JoinParse(p.directory, p.naming(p.baseName, used[i].name, ".mkv"));
  }

  /** The loop of `process` over the configured outputs: an output and its path for each
      used configuration. */
  method BuildOutputs(configs: seq<OutputConfig>, p: PlanInput) returns (outputs: seq<Output>, result: seq<string>)
    ensures outputs == Planned(configs, p)
    ensures result == OutputPaths(outputs)
  {
    outputs, result := [], [];
    for i := 0 to |configs|
      invariant outputs == Planned(configs[..i], p)
      invariant result == OutputPaths(outputs)
    {
      var config := configs[i];
      assert configs[..i + 1][..i] == configs[..i];
      if config.name !in p.wanted {
        continue;
      }
      var sample := SampleFor(config, p.source, p.aspect);
      if sample.None? || sample.value.width > p.source.width {
        continue;
      }
      var path := OutputPath(p.directory, p.naming, p.baseName, config);
      outputs := outputs + [OutputFor(config, p.source, sample.value, p.excluded, p.additional, path)];
      result := result + [path];
    }
    assert configs[..|configs|] == configs;
  }

  /** The global options `process` starts the builder with. */
  const GlobalOptions := ["-hide_banner", "-v", "warning", "-stats"]

  /** `process` up to starting ffmpeg: a failed probe, a source without a video stream
      and a plan without outputs are rejections; otherwise ffmpeg is started on the
      built command, and `done` will carry the order with its directory, result paths
      and id. `moviesRule` is the "movies" processing rule, which is read for orders
      of every type. */
  method Process(id: string, order: CustomerOrder, probe: Result<seq<Stream>, string>, moviesRule: ProcessingRule,
                 processingDir: string, naming: (string, string, string) -> string, aspect: AspectKey)
    returns (outcome: PlanOutcome)
    ensures probe.Failure? ==> outcome == Rejected(ProbeFailed)
    ensures probe.Success? && FindVideoStream(probe.value).Failure? ==> outcome == Rejected(VideoStreamNotFound)
    ensures probe.Success? && FindVideoStream(probe.value).Success? ==>
      var p := PlanInput(order.config.resolutions, FindVideoStream(probe.value).value.size, aspect,
                         ExcludedStreams(probe.value, order.config), moviesRule.additionalParams,
                         Paths.Join(processingDir, id), naming, Paths.Name(Paths.Base(order.name)));
      var outputs := Planned(moviesRule.outputs, p);
      && (outputs == [] ==> outcome == Rejected(NoSuitableResolution))
      && (outputs != [] ==> outcome == Started(
            Command(GlobalOptions, order.pathToMedia, ["-probesize", "10M"] + HwaccelOptions(moviesRule.outputs), outputs),
            CustomerOrderProcessing(order, p.directory, OutputPaths(outputs), id)))
  {
    if probe.Failure? {
      return Rejected(ProbeFailed);
    }
    var video := FindVideoStream(probe.value);
    if video.Failure? {
      return Rejected(VideoStreamNotFound);
    }
    var directory := Paths.Join(processingDir, id);
    var p := PlanInput(order.config.resolutions, video.value.size, aspect, ExcludedStreams(probe.value, order.config),
                       moviesRule.additionalParams, directory, naming, Paths.Name(Paths.Base(order.name)));
    var inputOptions := ["-probesize", "10M"] + HwaccelOptions(moviesRule.outputs);
    var outputs, result := BuildOutputs(moviesRule.outputs, p);
    if |result| > 0 {
      outcome := Started(Command(GlobalOptions, order.pathToMedia, inputOptions, outputs),
                         CustomerOrderProcessing(order, directory, result, id));
    } else {
      outcome := Rejected(NoSuitableResolution);
    }
  }

  /** `_onStdOut`: whether a line ffmpeg writes to stderr is logged. */
  predicate StderrLogged(line: string) {
    !StartsWith(line, "frame=")
  }

  /** Progress lines are never logged. */
  lemma ProgressLinesNotLogged(rest: string)
    ensures !StderrLogged("frame=" + rest)
  {
    assert ("frame=" + rest)[..6] == "frame=";
  }
}
