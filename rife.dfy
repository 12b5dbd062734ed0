/**
  The `RIFE` object: its flags, which networks, compute pipelines and layers
  `load` sets up, what the destructor tears down, and `process`, which packs
  the host planes, records the device work and unpacks the downloaded result.
 */
module Engine {

  import opened Padding
  import opened Planes
  import opened Commands
  import opened Record
  import opened Selection
  import opened Resources
  import opened ReleaseDiscipline
  import opened Counts

  /** The three planes of a frame. */
  datatype Rgb<T> = Rgb(r: array<T>, g: array<T>, b: array<T>)

  /**
    The pipeline blocks of `load`: preprocess, postprocess and the TTA averages
    before the layers, the v4 timestep pipeline after them.
   */
  method BuildPipelines(device: bool, tta: bool, temporal: bool, v2: bool, v4: bool) returns (built: map<Kernel, Shader>)
    ensures built == BuiltPipelines(device, tta, temporal, v2, v4)
  {
    built := map[];
    if device {
      built := built[Preproc := if tta then PreprocTtaShader else PreprocShader];
      built := built[Postproc := if tta then PostprocTtaShader else PostprocShader];
    }
    if device && tta {
      built := built[FlowTtaAvg := if v2 then V2FlowTtaAvgShader else FlowTtaAvgShader];
    }
    if device && temporal {
      built := built[FlowTtaTemporalAvg := if v2 then V2FlowTtaTemporalAvgShader else FlowTtaTemporalAvgShader];
    }
    if device && temporal {
      built := built[OutTtaTemporalAvg := OutTtaTemporalAvgShader];
    }
    assert built == BuiltPipelines(device, tta, temporal, v2, false);
    if v4 && device {
      built := built[V4Timestep := V4TimestepShader];
    }
    BuiltPipelinesV4(device, tta, temporal, v2, v4);
  }

  /** The v4 timestep pipeline, built last, is the only one the v4 flag adds. */
  lemma BuiltPipelinesV4(device: bool, tta: bool, temporal: bool, v2: bool, v4: bool)
    ensures BuiltPipelines(device, tta, temporal, v2, v4)
            == if v4 && device then BuiltPipelines(device, tta, temporal, v2, false)[V4Timestep := V4TimestepShader]
               else BuiltPipelines(device, tta, temporal, v2, false)
  {
  }

  class Rife {
    var hasDevice: bool          // vkdev != 0
    var ttaMode: bool
    var ttaTemporalMode: bool
    var uhdMode: bool
    var numThreads: int
    var rifeV2: bool
    var rifeV4: bool
    var padding: int

    var loaded: bool                  // load has run
    var nets: set<Net>                // nets whose param and model files were loaded
    var netFiles: seq<string>         // the files load_param_model opened, in order
    var pipelines: map<Kernel, Shader>
    var layers: set<Layer>

    /** The flags `process` dispatches on. */
    function Cfg(): Config
      reads this
    {
      Config(ttaMode, ttaTemporalMode, uhdMode, rifeV2, rifeV4, padding)
    }

    /** Once loaded, the instance holds exactly what `load` selects for its flags. */
    predicate Valid()
      reads this
    {
      loaded ==>
        && nets == LoadedNets(rifeV4)
        && pipelines == BuiltPipelines(hasDevice, ttaMode, ttaTemporalMode, rifeV2, rifeV4)
        && layers == CreatedLayers(uhdMode, rifeV2)
    }

    /** `RIFE::RIFE`: no device for `gpuid == -1`, every pipeline and layer unset, temporal TTA off. */
    constructor(gpuId: int, tta: bool, uhd: bool, threads: int, v2: bool, v4: bool, pad: int)
      ensures hasDevice == (gpuId != -1)
      ensures ttaMode == tta && uhdMode == uhd && numThreads == threads
      ensures rifeV2 == v2 && rifeV4 == v4 && padding == pad
      ensures !ttaTemporalMode
      ensures !loaded && nets == {} && netFiles == [] && pipelines == map[] && layers == {}
      ensures Valid()
    {
      hasDevice := gpuId != -1;
      ttaMode := tta;
      ttaTemporalMode := false;
      uhdMode := uhd;
      numThreads := threads;
      rifeV2 := v2;
      rifeV4 := v4;
      padding := pad;
      loaded := false;
      nets := {};
      netFiles := [];
      pipelines := map[];
      layers := {};
    }

    /**
      `RIFE::load`: loads the networks, builds the compute pipelines and
      creates the optional layers the flags ask for (see `LoadedNets`,
      `BuiltPipelines`, `CreatedLayers`).
     */
    method Load(modelDir: string) returns (status: int)
      modifies this
      ensures status == 0 && loaded && Valid()
      ensures nets == LoadedNets(rifeV4)
      ensures netFiles == NetFiles(modelDir, rifeV4)
      ensures pipelines == BuiltPipelines(hasDevice, ttaMode, ttaTemporalMode, rifeV2, rifeV4)
      ensures layers == CreatedLayers(uhdMode, rifeV2)
      ensures hasDevice == old(hasDevice) && numThreads == old(numThreads)
      ensures ttaMode == old(ttaMode) && ttaTemporalMode == old(ttaTemporalMode) && uhdMode == old(uhdMode)
      ensures rifeV2 == old(rifeV2) && rifeV4 == old(rifeV4) && padding == old(padding)
    {
      var device, tta, temporal, uhd, v2, v4 := hasDevice, ttaMode, ttaTemporalMode, uhdMode, rifeV2, rifeV4;
      var loadedNets := {FlowNet};
      var files := ModelFiles(modelDir, "flownet");
      if !v4 {
        loadedNets := loadedNets + {ContextNet, FusionNet};
        files := files + (ModelFiles(modelDir, "contextnet") + ModelFiles(modelDir, "fusionnet"));
      }
      var built := BuildPipelines(device, tta, temporal, v2, v4);
      var created := {};
      if uhd {
        created := created + {UhdDownscaleImage, UhdUpscaleFlow, UhdDoubleFlow};
      }
      if v2 {
        created := created + {V2SliceFlow};
      }
      assert created == CreatedLayers(uhd, v2);
      nets, netFiles, pipelines, layers, loaded := loadedNets, files, built, created, true;
      status := 0;
    }

    /**
      `RIFE::~RIFE`: every pipeline is deleted; the UHD layers are destroyed
      under UHD mode and the slice layer under v2, through pointers that only
      `load` sets, so the flags' layers must exist. Afterwards the instance
      no longer counts as loaded.
     */
    method Destroy()
      modifies this
      requires uhdMode ==> UhdDownscaleImage in layers && UhdUpscaleFlow in layers && UhdDoubleFlow in layers
      requires rifeV2 ==> V2SliceFlow in layers
      ensures !loaded && pipelines == map[]
      ensures layers == old(layers)
                        - (if uhdMode then {UhdDownscaleImage, UhdUpscaleFlow, UhdDoubleFlow} else {})
                        - (if rifeV2 then {V2SliceFlow} else {})
      ensures hasDevice == old(hasDevice) && nets == old(nets) && uhdMode == old(uhdMode) && rifeV2 == old(rifeV2)
    {
      pipelines, loaded := map[], false;
      if uhdMode {
        layers := layers - {UhdDownscaleImage, UhdUpscaleFlow, UhdDoubleFlow};
      }
      if rifeV2 {
        layers := layers - {V2SliceFlow};
      }
    }

    /** The device work `process` records; it needs only what `load` set up. */
    method RecordWork(w: nat, h: nat, timestep: real) returns (cmd: seq<Op>)
      requires hasDevice && loaded && Valid()
      requires rifeV4 ==> padding > 0
      ensures cmd == ProcessCommands(Cfg(), w, h, timestep)
      ensures UsesOnly(cmd, Held(nets, pipelines.Keys, layers))
    {
      cmd := RecordProcess(Cfg(), w, h, timestep);
      HeldOnDevice(Cfg(), nets, pipelines, layers);
    }

    /**
      `RIFE::process` (and `process_v4`, to which it delegates under v4): the
      six input planes are packed with `toNet`, the device work is recorded,
      and the downloaded planes `result` are unpacked into `dst` with `fromNet`.
      What the device computes is not modelled: `result` stands for it. The
      `timestep` reaches the trace only under v4, as the timestep map's fill.
     */
    method Process<T(0)>(src0: Rgb<T>, src1: Rgb<T>, dst: Rgb<T>, result: Rgb<T>,
                         w: nat, h: nat, stride: nat, timestep: real, toNet: T -> T, fromNet: T -> T)
      returns (in0: seq<seq<T>>, in1: seq<seq<T>>, cmd: seq<Op>, status: int)
      requires hasDevice && loaded && Valid()
      requires rifeV4 ==> padding > 0
      requires PlaneFits(src0.r.Length, w, h, stride) && PlaneFits(src0.g.Length, w, h, stride)
      requires PlaneFits(src0.b.Length, w, h, stride)
      requires PlaneFits(src1.r.Length, w, h, stride) && PlaneFits(src1.g.Length, w, h, stride)
      requires PlaneFits(src1.b.Length, w, h, stride)
      requires PlaneFits(dst.r.Length, w, h, stride) && PlaneFits(dst.g.Length, w, h, stride)
      requires PlaneFits(dst.b.Length, w, h, stride)
      requires result.r.Length == w * h && result.g.Length == w * h && result.b.Length == w * h
      requires dst.r != dst.g && dst.g != dst.b && dst.r != dst.b
      requires result.r != dst.r && result.r != dst.g && result.r != dst.b
      requires result.g != dst.r && result.g != dst.g && result.g != dst.b
      requires result.b != dst.r && result.b != dst.g && result.b != dst.b
      modifies dst.r, dst.g, dst.b
      ensures status == 0
      ensures in0 == [Packed(old(src0.r[..]), w, h, stride, toNet), Packed(old(src0.g[..]), w, h, stride, toNet),
                      Packed(old(src0.b[..]), w, h, stride, toNet)]
      ensures in1 == [Packed(old(src1.r[..]), w, h, stride, toNet), Packed(old(src1.g[..]), w, h, stride, toNet),
                      Packed(old(src1.b[..]), w, h, stride, toNet)]
      ensures cmd == ProcessCommands(Cfg(), w, h, timestep)
      ensures UsesOnly(cmd, Held(nets, pipelines.Keys, layers))
      ensures dst.r[..] == Unpacked(old(dst.r[..]), old(result.r[..]), w, h, stride, fromNet)
      ensures dst.g[..] == Unpacked(old(dst.g[..]), old(result.g[..]), w, h, stride, fromNet)
      ensures dst.b[..] == Unpacked(old(dst.b[..]), old(result.b[..]), w, h, stride, fromNet)
    {
      in0 := PackFrame(src0, w, h, stride, toNet);
      in1 := PackFrame(src1, w, h, stride, toNet);
      cmd := RecordWork(w, h, timestep);
      UnpackPlane(result.r, dst.r, w, h, stride, fromNet);
      UnpackPlane(result.g, dst.g, w, h, stride, fromNet);
      UnpackPlane(result.b, dst.b, w, h, stride, fromNet);
      status := 0;
    }
  }

  /**
    The device work of one `process` call: `process_v4` under v4, otherwise
    the uploads, the TTA or plain branch (frames padded to 32) and the download.
    The recorded work needs only what `load` sets up, never touches a tensor
    after releasing it, and runs each network as often as the flags say.
   */
  method RecordProcess(cfg: Config, w: nat, h: nat, timestep: real) returns (cmd: seq<Op>)
    requires cfg.v4 ==> cfg.padding > 0
    ensures cmd == ProcessCommands(cfg, w, h, timestep)
    ensures UsesOnly(cmd, LoadedFor(cfg))
    ensures ReleaseSafe(cmd)
    ensures Evaluations(cmd, FlowNet) == if cfg.v4 then 1 else Variants(cfg) * Directions(cfg)
    ensures Evaluations(cmd, ContextNet) == if cfg.v4 then 0 else 2 * Variants(cfg)
    ensures Evaluations(cmd, FusionNet) == if cfg.v4 then 0 else Variants(cfg) * Directions(cfg)
  {
    if cfg.v4 {
      cmd := V4Commands(cfg.padding, w, h, timestep);
    } else {
      var wPadded := PaddedSize(w, LegacyAlignment);
      var hPadded := PaddedSize(h, LegacyAlignment);
      var branch;
      if cfg.tta {
        branch := RecordTta(cfg, w, h, wPadded, hPadded);
      } else {
        branch := PlainCommands(cfg, w, h, wPadded, hPadded);
      }
      cmd := Uploads() + branch + DownloadAndSubmit();
    }
    ProcessUsesLoaded(cfg, w, h, timestep);
    ProcessReleaseSafe(cfg, w, h, timestep);
    ProcessEvaluations(cfg, w, h, timestep);
  }

  /** The pack loops of one frame into freshly created `w * h` planes (`in0.create(w, h, 3)`). */
  method PackFrame<T(0)>(src: Rgb<T>, w: nat, h: nat, stride: nat, toNet: T -> T) returns (packed: seq<seq<T>>)
    requires PlaneFits(src.r.Length, w, h, stride) && PlaneFits(src.g.Length, w, h, stride)
    requires PlaneFits(src.b.Length, w, h, stride)
    ensures packed == [Packed(src.r[..], w, h, stride, toNet), Packed(src.g[..], w, h, stride, toNet),
                       Packed(src.b[..], w, h, stride, toNet)]
  {
    var r := new T[w * h];
    var g := new T[w * h];
    var b := new T[w * h];
    PackPlane(src.r, r, w, h, stride, toNet);
    PackPlane(src.g, g, w, h, stride, toNet);
    PackPlane(src.b, b, w, h, stride, toNet);
    packed := [r[..], g[..], b[..]];
  }

  /**
    The lifetime `rifeCreate` and `rifeFree` give an instance: construct, load,
    destroy. Loading meets every precondition of the destructor, and the
    destructor leaves no pipeline and no layer behind.
   */
  method Lifetime(gpuId: int, tta: bool, uhd: bool, threads: int, v2: bool, v4: bool, pad: int, modelDir: string)
    returns (engine: Rife)
    ensures engine.pipelines == map[] && engine.layers == {}
    ensures engine.nets == if v4 then {FlowNet} else {FlowNet, ContextNet, FusionNet}
  {
    engine := new Rife(gpuId, tta, uhd, threads, v2, v4, pad);
    var status := engine.Load(modelDir);
    engine.Destroy();
  }
}
