/**
  `rifeCreate` and `rifeFree`: argument defaults and validation, the
  doubled clip length and frame rate, the model directory, the engine the
  filter owns, and the `numGPUInstances` bookkeeping around them.
 */
module Create {

  import opened Common
  import opened Rational
  import opened Padding
  import opened Commands
  import opened Selection
  import opened Engine
  import opened GpuInstances

  /** The fields of the input clip's video info the filter examines. */
  datatype Clip = Clip(constantFormat: bool, rgb: bool, floatSamples: bool, bitsPerSample: int,
                       numFrames: int, fps: Ratio)

  /** The filter's arguments; an absent optional argument is `None`. */
  datatype Args = Args(model: Option<int>, gpuId: Option<int>, gpuThread: Option<int>,
                       tta: Option<int>, uhd: Option<int>, sc: Option<int>, listGpu: Option<int>)

  /** One GPU as ncnn reports it: its name and its number of compute queues. */
  datatype Gpu = Gpu(name: string, computeQueues: nat)

  /**
    What the environment answers: the GPUs, the default GPU index, whether
    `create_gpu_instance` fails, the error the Text filter reports (if any),
    the plugin's own path and the files that exist.
   */
  datatype Host = Host(gpus: seq<Gpu>, defaultGpu: int, gpuInitFails: bool, textError: Option<string>,
                       pluginPath: string, files: set<string>)

  /** The values the filter reads from its arguments, after defaults. */
  datatype Settings = Settings(model: int, gpuId: int, gpuThread: int, tta: bool, uhd: bool, sceneChange: bool)

  const FormatMessage := "only constant RGB format 32 bit float input supported"
  const GpuInitMessage := "failed to create GPU instance"
  const ModelMessage := "failed to load model"

  /** `mapGetIntSaturated`: the value clamped to 32 bits; an absent key reads as 0. */
  function Saturated(v: Option<int>): (r: int)
    ensures IntMin <= r <= IntMax
    ensures v.Some? && IntMin <= v.value <= IntMax ==> r == v.value
    ensures v.None? ==> r == 0
  {
    if v.None? then 0
    else if v.value < IntMin then IntMin
    else if v.value > IntMax then IntMax
    else v.value
  }

  /** `!!mapGetInt(...)`: a nonzero value; an absent key reads as 0. */
  predicate Flag(v: Option<int>)
  {
    v.Some? && v.value != 0
  }

  /** The reads of lines 145-157: `gpu_id` defaults to the default GPU, `gpu_thread` to 2. */
  function Read(args: Args, defaultGpu: int): Settings
  {
    Settings(Saturated(args.model),
             if args.gpuId.None? then defaultGpu else Saturated(args.gpuId),
             if args.gpuThread.None? then 2 else Saturated(args.gpuThread),
             Flag(args.tta), Flag(args.uhd), Flag(args.sc))
  }

  /** The clip is constant-format 32-bit float RGB. */
  predicate FormatOk(clip: Clip)
  {
    clip.constantFormat && clip.rgb && clip.floatSamples && clip.bitsPerSample == 32
  }

  function ThreadMessage(queues: nat): string
  {
    "gpu_thread must be between 1 and " + Digits(queues) + " (inclusive)"
  }

  /** The compute queues of GPU `id`, or 0 for an index ncnn does not know. */
  function QueuesOf(gpus: seq<Gpu>, id: int): nat
  {
    if 0 <= id < |gpus| then gpus[id].computeQueues else 0
  }

  /** The checks of `rifeCreate`, in the order it makes them, each with the message it throws. */
  function Checks(s: Settings, gpus: seq<Gpu>, numFrames: int): seq<(bool, string)>
  {
    [(0 <= s.model <= 2, "model must be 0, 1, or 2"),
     (0 <= s.gpuId < |gpus|, "invalid GPU device"),
     (1 <= s.gpuThread <= QueuesOf(gpus, s.gpuId), ThreadMessage(QueuesOf(gpus, s.gpuId))),
     (2 <= numFrames, "number of frames must be at least 2"),
     (numFrames <= IntMax / 2, "resulting clip is too long")]
  }

  /** The message of the first check that fails, if any. */
  function FirstFailure(checks: seq<(bool, string)>): Option<string>
  {
    if |checks| == 0 then None
    else if !checks[0].0 then Some(checks[0].1)
    else FirstFailure(checks[1..])
  }

  /** The first failing check decides the message: every check before it holds. */
  lemma {:induction false} FirstFailureIsFirst(checks: seq<(bool, string)>)
    ensures FirstFailure(checks).None? <==> forall i :: 0 <= i < |checks| ==> checks[i].0
    ensures FirstFailure(checks).Some? ==>
              exists i :: 0 <= i < |checks| && !checks[i].0 && checks[i].1 == FirstFailure(checks).value
                          && forall j :: 0 <= j < i ==> checks[j].0
  {
    if |checks| > 0 {
      FirstFailureIsFirst(checks[1..]);
      if checks[0].0 {
        if FirstFailure(checks).Some? {
          var i :| 0 <= i < |checks[1..]| && !checks[1..][i].0 && checks[1..][i].1 == FirstFailure(checks).value
                   && forall j :: 0 <= j < i ==> checks[1..][j].0;
          assert !checks[i + 1].0 && checks[i + 1].1 == FirstFailure(checks).value;
          assert forall j :: 0 <= j < i + 1 ==> checks[j].0 by {
            forall j | 0 <= j < i + 1 ensures checks[j].0 {
              if j > 0 {
                assert checks[j] == checks[1..][j - 1];
              }
            }
          }
        } else {
          forall i | 0 <= i < |checks| ensures checks[i].0 {
            if i > 0 {
              assert checks[i] == checks[1..][i - 1];
            }
          }
        }
      } else {
        assert !checks[0].0 && checks[0].1 == FirstFailure(checks).value;
      }
    }
  }

  /** The message reported is that of a failing check all of whose predecessors hold. */
  lemma {:induction false} FirstFailureAt(checks: seq<(bool, string)>, i: nat)
    requires i < |checks| && !checks[i].0
    requires forall j :: 0 <= j < i ==> checks[j].0
    ensures FirstFailure(checks) == Some(checks[i].1)
  {
    if i > 0 {
      assert forall j :: 0 <= j < i - 1 ==> checks[1..][j] == checks[j + 1];
      FirstFailureAt(checks[1..], i - 1);
    }
  }

  /** The validation rules as one condition. */
  predicate Accepted(s: Settings, gpus: seq<Gpu>, numFrames: int)
  {
    && 0 <= s.model <= 2
    && 0 <= s.gpuId < |gpus|
    && 1 <= s.gpuThread <= gpus[s.gpuId].computeQueues
    && 2 <= numFrames <= IntMax / 2
  }

  /** No check fails exactly when every rule holds. */
  lemma AcceptedIff(s: Settings, gpus: seq<Gpu>, numFrames: int)
    ensures FirstFailure(Checks(s, gpus, numFrames)).None? <==> Accepted(s, gpus, numFrames)
  {
    var cs := Checks(s, gpus, numFrames);
    FirstFailureIsFirst(cs);
    if Accepted(s, gpus, numFrames) {
      assert forall i :: 0 <= i < |cs| ==> cs[i].0;
    } else {
      assert !cs[0].0 || !cs[1].0 || !cs[2].0 || !cs[3].0 || !cs[4].0;
    }
  }

  /** The throwing checks of lines 159-172. */
  method CheckSettings(s: Settings, gpus: seq<Gpu>, numFrames: int) returns (error: Option<string>)
    ensures error == FirstFailure(Checks(s, gpus, numFrames))
  {
    var cs := Checks(s, gpus, numFrames);
    if s.model < 0 || s.model > 2 {
      FirstFailureAt(cs, 0);
      return Some("model must be 0, 1, or 2");
    }
    if s.gpuId < 0 || s.gpuId >= |gpus| {
      FirstFailureAt(cs, 1);
      return Some("invalid GPU device");
    }
    if s.gpuThread < 1 || s.gpuThread > gpus[s.gpuId].computeQueues {
      FirstFailureAt(cs, 2);
      return Some(ThreadMessage(gpus[s.gpuId].computeQueues));
    }
    if numFrames < 2 {
      FirstFailureAt(cs, 3);
      return Some("number of frames must be at least 2");
    }
    if numFrames > IntMax / 2 {
      FirstFailureAt(cs, 4);
      return Some("resulting clip is too long");
    }
    FirstFailureIsFirst(cs);
    return None;
  }

  /** `rfind('/')`: the index of the last '/' of `s`, if it has one. */
  function LastSlash(s: string): (r: Option<nat>)
    ensures r.Some? ==> r.value < |s| && s[r.value] == '/' && forall j :: r.value < j < |s| ==> s[j] != '/'
    ensures r.None? ==> forall j :: 0 <= j < |s| ==> s[j] != '/'
  {
    if |s| == 0 then None
    else if s[|s| - 1] == '/' then Some(|s| - 1)
    else LastSlash(s[..|s| - 1])
  }

  /** `pluginPath.substr(0, pluginPath.rfind('/'))`; without a '/', `npos` keeps the whole path. */
  function PluginDir(pluginPath: string): string
  {
    match LastSlash(pluginPath)
    case Some(i) => pluginPath[..i]
    case None => pluginPath
  }

  /** The model directory under the plugin's directory for models 0, 1 and 2. */
  function ModelPath(pluginPath: string, model: int): string
    requires 0 <= model <= 2
  {
    PluginDir(pluginPath) + "/models" + ModelSubdir(model)
  }

  /** The directory of each model under `models`. */
  function ModelSubdir(model: int): string
    requires 0 <= model <= 2
  {
    if model == 0 then "/rife-v3.1" else if model == 1 then "/rife-v2.4" else "/rife-anime"
  }

  /**
    The directory cut from the plugin path is the part before its last
    '/', so no '/' of the path follows it.
   */
  lemma PluginDirIsParent(pluginPath: string)
    ensures PluginDir(pluginPath) <= pluginPath
    ensures |PluginDir(pluginPath)| < |pluginPath| ==> pluginPath[|PluginDir(pluginPath)|] == '/'
    ensures forall j :: |PluginDir(pluginPath)| < j < |pluginPath| ==> pluginPath[j] != '/'
  {
  }

  /** Each of the three models has its own directory. */
  lemma ModelPathsDistinct(pluginPath: string, a: int, b: int)
    requires 0 <= a <= 2 && 0 <= b <= 2
    requires ModelPath(pluginPath, a) == ModelPath(pluginPath, b)
    ensures a == b
  {
    var base := PluginDir(pluginPath) + "/models";
    assert ModelPath(pluginPath, a)[|base|..] == ModelSubdir(a);
    assert ModelPath(pluginPath, b)[|base|..] == ModelSubdir(b);
  }

  /** One line of the `list_gpu` text. */
  function GpuLine(i: nat, name: string): string
  {
    Digits(i) + ": " + name + "\n"
  }

  /** The `list_gpu` text: one line per GPU, in index order. */
  function Listing(gpus: seq<Gpu>): string
  {
    if |gpus| == 0 then "" else Listing(gpus[..|gpus| - 1]) + GpuLine(|gpus| - 1, gpus[|gpus| - 1].name)
  }

  /** The listing of the first `k` GPUs begins the listing of all of them. */
  lemma {:induction false} ListingPrefix(gpus: seq<Gpu>, k: nat)
    requires k <= |gpus|
    ensures Listing(gpus[..k]) <= Listing(gpus)
    decreases |gpus|
  {
    if k < |gpus| {
      var init := gpus[..|gpus| - 1];
      ListingPrefix(init, k);
      assert init[..k] == gpus[..k];
    } else {
      assert gpus[..k] == gpus;
    }
  }

  /** The loop of lines 177-178 that builds the `list_gpu` text. */
  method ListText(gpus: seq<Gpu>) returns (text: string)
    ensures text == Listing(gpus)
  {
    text := "";
    for i := 0 to |gpus|
      invariant text == Listing(gpus[..i])
    {
      assert gpus[..i + 1][..i] == gpus[..i];
      text := text + GpuLine(i, gpus[i].name);
    }
    assert gpus[..|gpus|] == gpus;
  }

  /** What the filter keeps for the clip it creates (`RIFEData`). */
  datatype FilterData = FilterData(numFrames: int, fps: Ratio, sceneChange: bool, gpuThread: int, rife: Rife)

  /** How `rifeCreate` ends: a new filter, the `list_gpu` text clip, or an error on `out`. */
  datatype Created = Filter(data: FilterData) | Listed(text: string) | Failed(msg: string)

  /** The course `rifeCreate` takes, apart from the instance counter. */
  datatype Plan =
    | Throws(msg: string)                           // a `throw` caught at line 238
    | ListsGpus(text: string)                       // the `list_gpu` return of line 201
    | ListFails(msg: string)                        // the `list_gpu` return of line 192
    | Builds(s: Settings, numFrames: int, fps: Ratio, modelPath: string)

  /** The specification of `rifeCreate`'s course from its inputs. */
  function PlanOf(clip: Clip, args: Args, host: Host): Plan
  {
    if !FormatOk(clip) then Throws(FormatMessage)
    else if host.gpuInitFails then Throws(GpuInitMessage)
    else
      var s := Read(args, host.defaultGpu);
      match FirstFailure(Checks(s, host.gpus, clip.numFrames))
      case Some(m) => Throws(m)
      case None =>
        if Flag(args.listGpu) then
          if host.textError.Some? then ListFails(host.textError.value) else ListsGpus(Listing(host.gpus))
        else
          var path := ModelPath(host.pluginPath, s.model);
          if path + "/contextnet.param" !in host.files then Throws(ModelMessage)
          else Builds(s, clip.numFrames * 2, MulDiv(clip.fps, 2, 1), path)
  }

  /**
    A filter is built only for valid input, and then the clip is exactly
    twice as long, which still fits in an `int`, at twice the frame rate;
    the engine gets the v2 flag for models 0 and 1.
   */
  lemma BuildsDoubles(clip: Clip, args: Args, host: Host)
    requires PlanOf(clip, args, host).Builds?
    ensures FormatOk(clip) && !host.gpuInitFails && !Flag(args.listGpu)
    ensures Accepted(PlanOf(clip, args, host).s, host.gpus, clip.numFrames)
    ensures PlanOf(clip, args, host).numFrames == 2 * clip.numFrames
    ensures 4 <= PlanOf(clip, args, host).numFrames <= IntMax
    ensures clip.fps.den != 0 ==>
              PlanOf(clip, args, host).fps.den != 0
              && PlanOf(clip, args, host).fps.num * clip.fps.den == 2 * clip.fps.num * PlanOf(clip, args, host).fps.den
    ensures PlanOf(clip, args, host).modelPath + "/contextnet.param" in host.files
  {
    AcceptedIff(Read(args, host.defaultGpu), host.gpus, clip.numFrames);
    if clip.fps.den != 0 {
      DoubledValue(clip.fps);
    }
  }

  /**
    The format is checked before anything else, then the GPU instance,
    then the arguments: each failure is reported with the first failing
    check's message.
   */
  lemma ErrorOrder(clip: Clip, args: Args, host: Host)
    ensures !FormatOk(clip) ==> PlanOf(clip, args, host) == Throws(FormatMessage)
    ensures FormatOk(clip) && host.gpuInitFails ==> PlanOf(clip, args, host) == Throws(GpuInitMessage)
    ensures FormatOk(clip) && !host.gpuInitFails && !Accepted(Read(args, host.defaultGpu), host.gpus, clip.numFrames)
            ==> PlanOf(clip, args, host).Throws?
                && Some(PlanOf(clip, args, host).msg) == FirstFailure(Checks(Read(args, host.defaultGpu), host.gpus, clip.numFrames))
  {
    AcceptedIff(Read(args, host.defaultGpu), host.gpus, clip.numFrames);
  }

  /** The filter's engine was constructed for the settings and loaded from `path`. */
  ghost predicate Built(d: FilterData, s: Settings, numFrames: int, fps: Ratio, path: string)
    reads d.rife
  {
    && d.numFrames == numFrames && d.fps == fps && d.sceneChange == s.sceneChange && d.gpuThread == s.gpuThread
    && d.rife.hasDevice == (s.gpuId != -1) && d.rife.ttaMode == s.tta && d.rife.uhdMode == s.uhd
    && d.rife.numThreads == 1 && d.rife.rifeV2 == (s.model != 2) && !d.rife.rifeV4 && d.rife.padding == 32
    && !d.rife.ttaTemporalMode && d.rife.loaded
    && d.rife.nets == LoadedNets(false) && d.rife.netFiles == NetFiles(path, false)
    && d.rife.pipelines == BuiltPipelines(d.rife.hasDevice, s.tta, false, s.model != 2, false)
    && d.rife.layers == CreatedLayers(s.uhd, s.model != 2)
  }

  /**
    Line 226 and 234: the engine built from the five arguments of the
    header's constructor, loaded from the model directory. That constructor
    has no v4 flag and no padding; the model fills them with `false` and
    32, and the padding is only ever read by the v4 path.
   */
  method MakeEngine(s: Settings, path: string) returns (rife: Rife)
    ensures fresh(rife)
    ensures rife.hasDevice == (s.gpuId != -1) && rife.ttaMode == s.tta && rife.uhdMode == s.uhd
    ensures rife.numThreads == 1 && rife.rifeV2 == (s.model != 2) && !rife.rifeV4 && rife.padding == 32
    ensures !rife.ttaTemporalMode && rife.loaded
    ensures rife.nets == LoadedNets(false) && rife.netFiles == NetFiles(path, false)
    ensures rife.pipelines == BuiltPipelines(rife.hasDevice, s.tta, false, s.model != 2, false)
    ensures rife.layers == CreatedLayers(s.uhd, s.model != 2)
  {
    rife := new Rife(s.gpuId, s.tta, s.uhd, 1, s.model != 2, false, LegacyAlignment);
    var _ := rife.Load(path);
  }

  /** How the body of the `try` ends. */
  datatype Attempt = Threw(msg: string) | Returned(created: Created)

  /**
    The body of the `try` block: each `throw` ends it with its message; the
    `list_gpu` returns release their own reference. `incremented` tells
    whether line 143 was reached.
   */
  method TryBody(counter: Counter, clip: Clip, args: Args, host: Host) returns (attempt: Attempt, incremented: bool)
    modifies counter
    ensures incremented == (FormatOk(clip) && !host.gpuInitFails)
    ensures PlanOf(clip, args, host).Throws? ==> attempt == Threw(PlanOf(clip, args, host).msg)
    ensures PlanOf(clip, args, host).ListFails? ==> attempt == Returned(Failed(PlanOf(clip, args, host).msg))
    ensures PlanOf(clip, args, host).ListsGpus? ==> attempt == Returned(Listed(PlanOf(clip, args, host).text))
    ensures PlanOf(clip, args, host).Builds? ==>
              attempt.Returned? && attempt.created.Filter? && fresh(attempt.created.data.rife)
              && Built(attempt.created.data, PlanOf(clip, args, host).s, PlanOf(clip, args, host).numFrames,
                       PlanOf(clip, args, host).fps, PlanOf(clip, args, host).modelPath)
    ensures var listed := PlanOf(clip, args, host).ListsGpus? || PlanOf(clip, args, host).ListFails?;
            && counter.count == old(counter.count) + (if incremented then 1 else 0) - (if listed then 1 else 0)
            && counter.alive == ((old(counter.alive) || incremented) && !(listed && counter.count == 0))
  {
    incremented := false;
    if !FormatOk(clip) {
      return Threw(FormatMessage), incremented;
    }
    var ok := counter.CreateInstance(host.gpuInitFails);
    if !ok {
      return Threw(GpuInitMessage), incremented;
    }
    counter.Increment();
    incremented := true;
    var s := Read(args, host.defaultGpu);
    var error := CheckSettings(s, host.gpus, clip.numFrames);
    if error.Some? {
      return Threw(error.value), incremented;
    }
    AcceptedIff(s, host.gpus, clip.numFrames);
    if Flag(args.listGpu) {
      var text := ListText(host.gpus);
      var _ := counter.Decrement();
      if host.textError.Some? {
        return Returned(Failed(host.textError.value)), incremented;
      }
      return Returned(Listed(text)), incremented;
    }
    var numFrames := clip.numFrames * 2;
    var fps := MulDiv(clip.fps, 2, 1);
    var path := ModelPath(host.pluginPath, s.model);
    if path + "/contextnet.param" !in host.files {
      return Threw(ModelMessage), incremented;
    }
    var rife := MakeEngine(s, path);
    var data := FilterData(numFrames, fps, s.sceneChange, s.gpuThread, rife);
    return Returned(Filter(data)), incremented;
  }

  /** The result `rifeCreate` leaves on `out` for the course `plan`, with the "RIFE: " prefix on caught errors. */
  ghost predicate Delivers(result: Created, plan: Plan)
    reads if result.Filter? then {result.data.rife} else {}
  {
    match plan
    case Throws(m) => result == Failed("RIFE: " + m)
    case ListFails(m) => result == Failed(m)
    case ListsGpus(t) => result == Listed(t)
    case Builds(s, numFrames, fps, path) => result.Filter? && Built(result.data, s, numFrames, fps, path)
  }

  /** `create_gpu_instance` is reached and succeeds. */
  predicate GpuCreated(clip: Clip, host: Host)
  {
    FormatOk(clip) && !host.gpuInitFails
  }

  /**
    `rifeCreate` as written: the `catch` block decrements the counter
    whichever `throw` it caught, including the two (lines 139 and 142)
    that come before the increment of line 143.
   */
  method Create(counter: Counter, clip: Clip, args: Args, host: Host) returns (result: Created)
    modifies counter
    ensures Delivers(result, PlanOf(clip, args, host))
    ensures result.Filter? ==> fresh(result.data.rife)
    ensures counter.count == old(counter.count) + (if GpuCreated(clip, host) then 1 else 0) - (if result.Filter? then 0 else 1)
    ensures counter.alive == ((old(counter.alive) || GpuCreated(clip, host)) && (result.Filter? || counter.count != 0))
  {
    var attempt, incremented := TryBody(counter, clip, args, host);
    if attempt.Threw? {
      var _ := counter.Decrement();
      result := Failed("RIFE: " + attempt.msg);
    } else {
      result := attempt.created;
    }
  }

  /**
    `rifeCreate` with the evident intent of its counter: the `catch` block
    releases the reference only when line 143 took it. Every path then
    keeps the counter consistent, and only a new filter holds a reference.
   */
  method CreateGuarded(counter: Counter, clip: Clip, args: Args, host: Host) returns (result: Created)
    requires counter.Consistent()
    modifies counter
    ensures Delivers(result, PlanOf(clip, args, host))
    ensures result.Filter? ==> fresh(result.data.rife)
    ensures counter.count == old(counter.count) + (if result.Filter? then 1 else 0)
    ensures counter.Consistent()
    ensures result.Filter? ==> counter.alive
  {
    var attempt, incremented := TryBody(counter, clip, args, host);
    if attempt.Threw? {
      if incremented {
        var _ := counter.Decrement();
      }
      result := Failed("RIFE: " + attempt.msg);
    } else {
      result := attempt.created;
    }
  }

  /**
    `rifeFree`: deleting the filter destroys its engine, which leaves no
    pipeline and no layer, then the filter's reference is released.
   */
  method Free(counter: Counter, d: FilterData) returns (teardown: bool)
    requires d.rife.layers == CreatedLayers(d.rife.uhdMode, d.rife.rifeV2)
    modifies counter, d.rife
    ensures d.rife.pipelines == map[] && d.rife.layers == {}
    ensures counter.count == old(counter.count) - 1
    ensures teardown <==> counter.count == 0
    ensures counter.alive == (old(counter.alive) && !teardown)
    ensures old(counter.Consistent()) && old(counter.count) > 0 ==> counter.Consistent()
  {
    d.rife.Destroy();
    teardown := counter.Decrement();
  }

  /**
    A filter's whole life under the corrected creation: whatever the
    inputs, the counter ends where it started and stays consistent.
   */
  method FilterLifetime(counter: Counter, clip: Clip, args: Args, host: Host) returns (result: Created)
    requires counter.Consistent()
    modifies counter
    ensures counter.count == old(counter.count) && counter.Consistent()
  {
    result := CreateGuarded(counter, clip, args, host);
    if result.Filter? {
      var _ := Free(counter, result.data);
    }
  }

  /**
    The flaw of `Create`: while one filter holds the GPU instance, creating
    a second one on a clip that is not RGB drops the counter to zero and
    tears the instance down under the live filter; on a fresh counter the
    same call leaves it at -1.
   */
  method CatchUnderflowWitness() returns (liveFilters: int, count: int, alive: bool, freshCount: int)
    ensures liveFilters == 1 && count == 0 && !alive
    ensures freshCount == -1
  {
    var notRgb := Clip(true, false, true, 32, 100, Ratio(24, 1));
    var args := Args(None, None, None, None, None, None, None);
    var host := Host([Gpu("gpu", 2)], 0, false, None, "/usr/lib/vapoursynth/librife.so", {});
    var counter := new Counter();
    var _ := counter.CreateInstance(false);
    counter.Increment();
    liveFilters := 1;
    var _ := Create(counter, notRgb, args, host);
    count, alive := counter.count, counter.alive;
    var other := new Counter();
    var _ := Create(other, notRgb, args, host);
    freshCount := other.count;
  }
}
