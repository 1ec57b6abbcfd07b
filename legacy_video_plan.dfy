/** The older processor's plan (`_processVideo` in `service/mediaPostProcessor.ts`):
    outputs are selected by target height, the sample width is the target height scaled
    by the source's aspect ratio, and the stream filter reads the tags of every audio
    and subtitle stream without checking that they exist. */
module LegacyVideoPlan {
  import opened Wrappers
  import opened Text
  import opened Seqs
  import Paths
  import opened MediaProcessor
  import opened VideoMediaProcessor

  const TagsMissing := "stream tags missing"
  /** What fluent-ffmpeg's `run` fails with when no output was added. */
  const NoOutputSpecified := "No output specified"

  /** The audio and subtitle streams, whose tags the older filter reads. */
  predicate TagsRead(s: Stream) {
    s.codecType == "audio" || s.codecType == "subtitle"
  }

  /** The older `_filterExcludedStreams`: `Object.values` of missing tags throws, so the
      filter fails exactly when some audio or subtitle stream has no tags. When it
      succeeds it drops the same streams as the newer filter. */
  function LegacyExcludedStreams(streams: seq<Stream>, config: VideoMediaConfiguration): (r: Result<seq<Stream>, string>)
    ensures r.Failure? <==> exists i :: 0 <= i < |streams| && TagsRead(streams[i]) && streams[i].tags.None?
    ensures r.Success? ==> r.value == ExcludedStreams(streams, config)
    decreases |streams|
  {
    if streams == [] then Success([])
    else if TagsRead(streams[0]) && streams[0].tags.None? then Failure(TagsMissing)
    else match LegacyExcludedStreams(streams[1..], config)
      case Failure(e) =>
        assert exists i :: 0 <= i < |streams| - 1 && TagsRead(streams[1..][i]) && streams[1..][i].tags.None?;
        Failure(e)
      case Success(rest) =>
        assert forall i :: 1 <= i < |streams| ==> streams[i] == streams[1..][i - 1];
        Success(if Excluded(config, streams[0]) then [streams[0]] + rest else rest)
  }

  /** One audio stream without tags: the older filter throws, and the newer one keeps the
      stream. */
  lemma TaglessAudioRejected(config: VideoMediaConfiguration)
    ensures var streams := [Stream(0, "video", Size(1920, 1080), None), Stream(1, "audio", Size(0, 0), None)];
      LegacyExcludedStreams(streams, config).Failure? && ExcludedStreams(streams, config) == []
  {
    var streams := [Stream(0, "video", Size(1920, 1080), None), Stream(1, "audio", Size(0, 0), None)];
    assert TagsRead(streams[1]) && streams[1].tags.None?;
    assert streams[1..][1..] == [];
  }

  /** `config.resolution[1] * (width / height)` in floating point, and the way a number
      is written into a string; both are left abstract. */
  datatype Numbers = Numbers(scaledWidth: (Size, int) -> real, show: real -> string)

  /** Whether the older loop produces an output for `config`: its name is among the
      customer's resolutions and its target height does not exceed the source's. */
  predicate LegacyUsed(config: OutputConfig, wanted: seq<string>, source: Size) {
    config.name in wanted && config.resolution.height <= source.height
  }

  /** The output the older loop adds: `-s` with the scaled sample size, the preset,
      `-map 0`, the extra options and one `-map -0:<index>` per excluded stream; audio
      is copied, and video is copied exactly when the sample size is the source size or
      the configured codec is `copy`. */
  function LegacyOutputFor(config: OutputConfig, source: Size, excluded: seq<Stream>, additional: seq<string>,
                           path: string, numbers: Numbers): (o: Output)
    ensures o.path == path && o.audioCodec == "copy"
    ensures |o.options| == 6 + |additional| + 2 * |excluded|
    ensures o.options[0] == "-s" && o.options[2..6] == ["-preset", config.preset, "-map", "0"]
    ensures o.options[6..6 + |additional|] == additional && o.options[6 + |additional|..] == ExclusionMaps(excluded)
    ensures var sampleHeight := config.resolution.height;
      o.videoCodec == "copy" <==>
        (source.width as real == numbers.scaledWidth(source, sampleHeight) && source.height == sampleHeight) || config.codec == "copy"
  {
    var sampleHeight := config.resolution.height;
    var sampleWidth := numbers.scaledWidth(source, sampleHeight);
    var head := ["-s", numbers.show(sampleWidth) + "x" + IntToString(sampleHeight), "-preset", config.preset, "-map", "0"];
    var options := head + additional + ExclusionMaps(excluded);
    assert options[2..6] == head[2..6];
    assert options[6..6 + |additional|] == additional;
    var copy := source.width as real == sampleWidth && source.height == sampleHeight;
    Output(path, options, "copy", if copy then "copy" else config.codec)
  }

  /** Everything one older planning run depends on besides the output list. */
  datatype LegacyPlanInput = LegacyPlanInput(
    wanted: seq<string>, source: Size, excluded: seq<Stream>, additional: seq<string>,
    directory: string, naming: (string, string, string) -> string, baseName: string, numbers: Numbers)

  /** The output a used configuration gets. */
  function LegacyPlannedOutput(config: OutputConfig, p: LegacyPlanInput): Output {
    LegacyOutputFor(config, p.source, p.excluded, p.additional, OutputPath(p.directory, p.naming, p.baseName, config), p.numbers)
  }

  /** The outputs the older loop adds for the configurations `configs`, in order. */
  function LegacyPlanned(configs: seq<OutputConfig>, p: LegacyPlanInput): seq<Output>
    decreases |configs|
  {
    if configs == [] then []
    else
      var last := configs[|configs| - 1];
      LegacyPlanned(configs[..|configs| - 1], p) +
        if LegacyUsed(last, p.wanted, p.source) then [LegacyPlannedOutput(last, p)] else []
  }

  /** One more configuration adds its output and itself to the used ones, when it is
      used. */
  lemma LegacyPlannedSnoc(configs: seq<OutputConfig>, p: LegacyPlanInput)
    requires configs != []
    ensures var init, last := configs[..|configs| - 1], configs[|configs| - 1];
      var used := (c: OutputConfig) => LegacyUsed(c, p.wanted, p.source);
      && (used(last) ==> Filter(configs, used) == Filter(init, used) + [last] && LegacyPlanned(configs, p) == LegacyPlanned(init, p) + [LegacyPlannedOutput(last, p)])
      && (!used(last) ==> Filter(configs, used) == Filter(init, used) && LegacyPlanned(configs, p) == LegacyPlanned(init, p))
  {
    var init, last := configs[..|configs| - 1], configs[|configs| - 1];
    var used := (c: OutputConfig) => LegacyUsed(c, p.wanted, p.source);
    assert configs == init + [last];
    FilterAppend(init, [last], used);
    if used(last) {
      assert Filter([last], used) == [last];
    } else {
      assert Filter([last], used) == [];
      assert Filter(init, used) + [] == Filter(init, used);
    }
  }

  /** The outputs are those of the used configurations, one each, in configuration
      order. */
  lemma {:induction false} LegacyPlannedIsUsedInOrder(configs: seq<OutputConfig>, p: LegacyPlanInput)
    ensures var used := Filter(configs, (c: OutputConfig) => LegacyUsed(c, p.wanted, p.source));
      |LegacyPlanned(configs, p)| == |used| &&
      forall i :: 0 <= i < |used| ==> LegacyPlanned(configs, p)[i] == LegacyPlannedOutput(used[i], p)
    decreases |configs|
  {
    if configs != [] {
      var init, last := configs[..|configs| - 1], configs[|configs| - 1];
      LegacyPlannedIsUsedInOrder(init, p);
      LegacyPlannedSnoc(configs, p);
      if LegacyUsed(last, p.wanted, p.source) {
        var before := Filter(init, (c: OutputConfig) => LegacyUsed(c, p.wanted, p.source));
        var after := before + [last];
        forall i | 0 <= i < |after|
          ensures LegacyPlanned(configs, p)[i] == LegacyPlannedOutput(after[i], p)
        {
          if i < |before| {
            assert after[i] == before[i];
          }
        }
      }
    }
  }

  /** The older loop over the configured outputs. */
  method LegacyBuildOutputs(configs: seq<OutputConfig>, p: LegacyPlanInput) returns (outputs: seq<Output>, result: seq<string>)
    ensures outputs == LegacyPlanned(configs, p)
    ensures result == OutputPaths(outputs)
  {
    outputs, result := [], [];
    for i := 0 to |configs|
      invariant outputs == LegacyPlanned(configs[..i], p)
      invariant result == OutputPaths(outputs)
    {
      var config := configs[i];
      assert configs[..i + 1][..i] == configs[..i];
      if config.name !in p.wanted || config.resolution.height > p.source.height {
        continue;
      }
      var path := OutputPath(p.directory, p.naming, p.baseName, config);
      outputs := outputs + [LegacyOutputFor(config, p.source, p.excluded, p.additional, path, p.numbers)];
      result := result + [path];
    }
    assert configs[..|configs|] == configs;
  }

  /** The older `_processVideo` up to starting ffmpeg: a failed probe, a source without a
      video stream and a tagless audio or subtitle stream are rejections. Otherwise ffmpeg
      is run on the selected outputs; with none selected the run fails with "No output
      specified", and the promise rejects. `moviesRule` is the "movies" processing
      rule, read for orders of every type. */
  method LegacyProcess(id: string, order: CustomerOrder, probe: Result<seq<Stream>, string>, moviesRule: ProcessingRule,
                       processingDir: string, naming: (string, string, string) -> string, numbers: Numbers)
    returns (outcome: PlanOutcome)
    ensures probe.Failure? ==> outcome == Rejected(ProbeFailed)
    ensures probe.Success? && FindVideoStream(probe.value).Failure? ==> outcome == Rejected(VideoStreamNotFound)
    ensures probe.Success? && FindVideoStream(probe.value).Success? && LegacyExcludedStreams(probe.value, order.config).Failure?
      ==> outcome == Rejected(TagsMissing)
    ensures probe.Success? && FindVideoStream(probe.value).Success? && LegacyExcludedStreams(probe.value, order.config).Success? ==>
      var p := LegacyPlanInput(order.config.resolutions, FindVideoStream(probe.value).value.size,
                               ExcludedStreams(probe.value, order.config), moviesRule.additionalParams,
                               Paths.Join(processingDir, id), naming, Paths.Name(Paths.Base(order.name)), numbers);
      var outputs := LegacyPlanned(moviesRule.outputs, p);
      && (outputs == [] ==> outcome == Rejected(NoOutputSpecified))
      && (outputs != [] ==> outcome == Started(Command([], order.pathToMedia, [], outputs),
                                               CustomerOrderProcessing(order, p.directory, OutputPaths(outputs), id)))
  {
    if probe.Failure? {
      return Rejected(ProbeFailed);
    }
    var video := FindVideoStream(probe.value);
    if video.Failure? {
      return Rejected(VideoStreamNotFound);
    }
    var excluded := LegacyExcludedStreams(probe.value, order.config);
    if excluded.Failure? {
      return Rejected(TagsMissing);
    }
    var directory := Paths.Join(processingDir, id);
    var p := LegacyPlanInput(order.config.resolutions, video.value.size, excluded.value, moviesRule.additionalParams,
                             directory, naming, Paths.Name(Paths.Base(order.name)), numbers);
    var outputs, result := LegacyBuildOutputs(moviesRule.outputs, p);
    if outputs == [] {
      return Rejected(NoOutputSpecified);
    }
    outcome := Started(Command([], order.pathToMedia, [], outputs), CustomerOrderProcessing(order, directory, result, id));
  }
}
