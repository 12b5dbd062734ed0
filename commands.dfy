/**
  The GPU work that `RIFE::process` and `RIFE::process_v4` record into one
  command buffer, as an abstract trace. Tensors (`ncnn::VkMat`) are named
  handles; network evaluations, compute-kernel dispatches, layer forwards and
  `release()` calls are operations appended to the trace in the order the
  source records them. The numerics of every operation are out of scope.
 */
module Commands {

  import opened Padding

  /** The three networks: `flownet` (the only one of the v4 family), `contextnet`, `fusionnet`. */
  datatype Net = FlowNet | ContextNet | FusionNet

  /** The compute pipelines `RIFE::load` can build. */
  datatype Kernel = Preproc | Postproc | FlowTtaAvg | FlowTtaTemporalAvg | OutTtaTemporalAvg | V4Timestep

  /** The ncnn layers `RIFE::load` can create. */
  datatype Layer = UhdDownscaleImage | UhdUpscaleFlow | UhdDoubleFlow | V2SliceFlow

  /** Input frame 0 (`src0`, `in0`) or 1 (`src1`, `in1`). */
  datatype Frame = Frame0 | Frame1

  /** Flow from frame 0 to frame 1, or the reversed pass of temporal augmentation. */
  datatype Dir = Forward | Reversed

  /**
    Device tensors of one call. `v` is the TTA variant (always 0 without TTA);
    the names follow the local variables of `RIFE::process`.
   */
  datatype Tensor =
    | Uploaded(f: Frame)                         // in0_gpu, in1_gpu
    | Padded(f: Frame, v: nat)                   // in0_gpu_padded[v], in1_gpu_padded[v]
    | Downscaled(f: Frame, v: nat, d: Dir)       // in*_gpu_padded_downscaled (UHD)
    | FlowDownscaled(v: nat, d: Dir)             // flow_downscaled (UHD)
    | FlowHalf(v: nat, d: Dir)                   // flow_half (UHD)
    | Flow(v: nat)                               // flow[v]
    | FlowReversed(v: nat)                       // flow_reversed[v]
    | FlowSlice(f: Frame, v: nat)                // flow0[v], flow1[v] (v2 family)
    | Context(f: Frame, v: nat, level: nat)      // ctx0[level], ctx1[level]
    | OutPadded(v: nat)                          // out_gpu_padded[v]
    | OutPaddedReversed(v: nat)                  // out_gpu_padded_reversed
    | TimestepPadded                             // timestep_gpu_padded (v4 family)
    | OutGpu                                     // out_gpu

  /** Host buffers: the packed input frames and the downloaded output. */
  datatype Host = HostIn(f: Frame) | HostOut

  /** The blob names the three networks are fed and extracted under. */
  datatype Port =
    | Input0 | Input1 | FlowBlob                       // flownet of the legacy and v2 families
    | In0 | In1 | In2 | Out0                           // flownet of the v4 family
    | InputDot1 | FlowDot0 | FlowDot1 | Feature(k: nat) // contextnet
    | Img0 | Img1 | Numbered(n: nat) | OutputBlob      // fusionnet (FlowBlob is its flow input)

  /** The blob name of a port, as the source spells it. */
  function PortName(p: Port): string
  {
    match p
    case Input0 => "input0"
    case Input1 => "input1"
    case FlowBlob => "flow"
    case In0 => "in0"
    case In1 => "in1"
    case In2 => "in2"
    case Out0 => "out0"
    case InputDot1 => "input.1"
    case FlowDot0 => "flow.0"
    case FlowDot1 => "flow.1"
    case Feature(k) => "f" + Digits(k)
    case Img0 => "img0"
    case Img1 => "img1"
    case Numbered(n) => Digits(n)
    case OutputBlob => "output"
  }

  /** Decimal digits of `n`, most significant first. */
  function Digits(n: nat): string
  {
    if n < 10 then [DigitChar(n)] else Digits(n / 10) + [DigitChar(n % 10)]
  }

  function DigitChar(d: nat): char
    requires d < 10
  {
    ['0', '1', '2', '3', '4', '5', '6', '7', '8', '9'][d]
  }

  /** A network input or output (`ex.input(name, t)`, `ex.extract(name, t)`). */
  datatype Binding = Binding(port: Port, t: Tensor)

  datatype Op =
    | Upload(from: Host, to: Tensor)                                  // cmd.record_clone host -> device
    | Create(t: Tensor, w: int, h: int, c: nat)                       // VkMat::create
    | Dispatch(k: Kernel, inputs: seq<Tensor>, outputs: seq<Tensor>) // cmd.record_pipeline
    | Fill(k: Kernel, filled: Tensor, value: real)                   // cmd.record_pipeline writing a push constant
    | LayerForward(l: Layer, inputs: seq<Tensor>, outputs: seq<Tensor>)
    | Feed(net: Net, fed: seq<Binding>)                                 // the ex.input calls of one extractor
    | Extract(net: Net, extracted: seq<Binding>)                        // the ex.extract calls of that extractor
    | Release(t: Tensor)                                              // VkMat::release
    | Download(source: Tensor, target: Host)                                // cmd.record_clone device -> host
    | SubmitAndWait

  /** The flags of a `RIFE` instance that shape its pipeline, and the v4 alignment. */
  datatype Config = Config(tta: bool, temporal: bool, uhd: bool, v2: bool, v4: bool, padding: int)

  /** Number of TTA variants: the 8 elements of the dihedral group, or the identity alone. */
  function Variants(cfg: Config): nat
  {
    if cfg.tta then 8 else 1
  }

  /** Number of directions: forward, and reversed when temporal augmentation is on. */
  function Directions(cfg: Config): nat
  {
    if cfg.temporal then 2 else 1
  }

  /** The width of TTA variant `v`: variants 4 to 7 are transposed. */
  function VariantWidth(v: nat, wPadded: int, hPadded: int): int
  {
    if v < 4 then wPadded else hPadded
  }

  /** The height of TTA variant `v`. */
  function VariantHeight(v: nat, wPadded: int, hPadded: int): int
  {
    if v < 4 then hPadded else wPadded
  }

  /** The tensors bound by a sequence of network inputs or outputs. */
  function Tensors(bs: seq<Binding>): set<Tensor>
  {
    set b | b in bs :: b.t
  }

  /** The tensors an operation reads. */
  function Reads(op: Op): set<Tensor>
  {
    match op
    case Upload(_, _) => {}
    case Create(_, _, _, _) => {}
    case Dispatch(_, rs, _) => set t | t in rs
    case Fill(_, _, _) => {}
    case LayerForward(_, ins, _) => set t | t in ins
    case Feed(_, ins) => Tensors(ins)
    case Extract(_, _) => {}
    case Release(_) => {}
    case Download(t, _) => {t}
    case SubmitAndWait => {}
  }

  /** The tensors an operation creates or writes. */
  function Writes(op: Op): set<Tensor>
  {
    match op
    case Upload(_, t) => {t}
    case Create(t, _, _, _) => {t}
    case Dispatch(_, _, ws) => set t | t in ws
    case Fill(_, t, _) => {t}
    case LayerForward(_, _, outs) => set t | t in outs
    case Feed(_, _) => {}
    case Extract(_, outs) => Tensors(outs)
    case Release(_) => {}
    case Download(_, _) => {}
    case SubmitAndWait => {}
  }

  /** The operation reads or writes `t` (a release does neither). */
  predicate Touches(op: Op, t: Tensor)
  {
    t in Reads(op) || t in Writes(op)
  }

  /** The extract of one evaluation of `net`. */
  predicate IsEvaluation(op: Op, net: Net)
  {
    op.Extract? && op.net == net
  }

  // ----- the pieces the source records -----

  /** `cmd.record_clone(in0, in0_gpu)` and the same for `in1`. */
  function Uploads(): seq<Op>
  {
    [Upload(HostIn(Frame0), Uploaded(Frame0)), Upload(HostIn(Frame1), Uploaded(Frame1))]
  }

  /** Download of `out_gpu` and `cmd.submit_and_wait()`. */
  function DownloadAndSubmit(): seq<Op>
  {
    [Download(OutGpu, HostOut), SubmitAndWait]
  }

  /** Creation of the 8 padded variants of frame `f` and the TTA preprocess dispatch that fills them. */
  function PreprocTta(f: Frame, wPadded: int, hPadded: int): seq<Op>
  {
    [ Create(Padded(f, 0), wPadded, hPadded, 3), Create(Padded(f, 1), wPadded, hPadded, 3),
      Create(Padded(f, 2), wPadded, hPadded, 3), Create(Padded(f, 3), wPadded, hPadded, 3),
      Create(Padded(f, 4), hPadded, wPadded, 3), Create(Padded(f, 5), hPadded, wPadded, 3),
      Create(Padded(f, 6), hPadded, wPadded, 3), Create(Padded(f, 7), hPadded, wPadded, 3),
      Dispatch(Preproc, [Uploaded(f)],
               [Padded(f, 0), Padded(f, 1), Padded(f, 2), Padded(f, 3),
                Padded(f, 4), Padded(f, 5), Padded(f, 6), Padded(f, 7)]) ]
  }

  /** Creation of the single padded tensor of frame `f` and the preprocess dispatch that fills it. */
  function PreprocPlain(f: Frame, wPadded: int, hPadded: int): seq<Op>
  {
    [Create(Padded(f, 0), wPadded, hPadded, 3), Dispatch(Preproc, [Uploaded(f)], [Padded(f, 0)])]
  }

  /** The flow tensor a direction produces for variant `v`. */
  function FlowOf(v: nat, d: Dir): Tensor
  {
    if d == Forward then Flow(v) else FlowReversed(v)
  }

  /** The frame fed as "input0" / "img0" in direction `d`; the other one is fed second. */
  function FirstFrame(d: Dir): Frame
  {
    if d == Forward then Frame0 else Frame1
  }

  function SecondFrame(d: Dir): Frame
  {
    if d == Forward then Frame1 else Frame0
  }

  /**
    One flownet evaluation for variant `v` in direction `d`. In UHD mode both padded
    inputs are downscaled first and the flow is upscaled and doubled afterwards.
   */
  function FlowStep(uhd: bool, v: nat, d: Dir): seq<Op>
  {
    if uhd then
      [ LayerForward(UhdDownscaleImage, [Padded(Frame0, v)], [Downscaled(Frame0, v, d)]),
        LayerForward(UhdDownscaleImage, [Padded(Frame1, v)], [Downscaled(Frame1, v, d)]),
        Feed(FlowNet, [Binding(Input0, Downscaled(FirstFrame(d), v, d)),
                       Binding(Input1, Downscaled(SecondFrame(d), v, d))]),
        Extract(FlowNet, [Binding(FlowBlob, FlowDownscaled(v, d))]),
        LayerForward(UhdUpscaleFlow, [FlowDownscaled(v, d)], [FlowHalf(v, d)]),
        LayerForward(UhdDoubleFlow, [FlowHalf(v, d)], [FlowOf(v, d)]) ]
    else
      [ Feed(FlowNet, [Binding(Input0, Padded(FirstFrame(d), v)),
                       Binding(Input1, Padded(SecondFrame(d), v))]),
        Extract(FlowNet, [Binding(FlowBlob, FlowOf(v, d))]) ]
  }

  /** The `ti` loop over the first `n` variants of flownet in direction `d`. */
  function FlowLoop(uhd: bool, d: Dir, n: nat): seq<Op>
  {
    if n == 0 then [] else FlowLoop(uhd, d, n - 1) + FlowStep(uhd, n - 1, d)
  }

  /** The 8 flow tensors of direction `d`, as bound to the TTA flow-average kernel. */
  function TtaFlows(d: Dir): seq<Tensor>
  {
    [FlowOf(0, d), FlowOf(1, d), FlowOf(2, d), FlowOf(3, d),
     FlowOf(4, d), FlowOf(5, d), FlowOf(6, d), FlowOf(7, d)]
  }

  /** Temporal merge of `flow[v]` with `flow_reversed[v]`, written back into `flow[v]`. */
  function MergeFlow(v: nat): Op
  {
    Dispatch(FlowTtaTemporalAvg, [Flow(v), FlowReversed(v)], [Flow(v)])
  }

  function MergeFlowLoop(n: nat): seq<Op>
  {
    if n == 0 then [] else MergeFlowLoop(n - 1) + [MergeFlow(n - 1)]
  }

  /** The v2 slice of `flow[v]` into `flow0[v]` (frame 0) and `flow1[v]` (frame 1). */
  function SliceFlow(v: nat): Op
  {
    LayerForward(V2SliceFlow, [Flow(v)], [FlowSlice(Frame0, v), FlowSlice(Frame1, v)])
  }

  function SliceLoop(n: nat): seq<Op>
  {
    if n == 0 then [] else SliceLoop(n - 1) + [SliceFlow(n - 1)]
  }

  /** The four context feature maps "f1" to "f4" of frame `f`, variant `v`. */
  function ContextOutputs(f: Frame, v: nat): seq<Binding>
  {
    [Binding(Feature(1), Context(f, v, 0)), Binding(Feature(2), Context(f, v, 1)),
     Binding(Feature(3), Context(f, v, 2)), Binding(Feature(4), Context(f, v, 3))]
  }

  /**
    The two contextnet evaluations of variant `v`. Under v2 each frame is conditioned
    on its own slice of the flow; otherwise both get the undivided flow, frame 1 under
    the name "flow.1".
   */
  function ContextStep(v2: bool, v: nat): seq<Op>
  {
    [ Feed(ContextNet, [Binding(InputDot1, Padded(Frame0, v)),
                        if v2 then Binding(FlowDot0, FlowSlice(Frame0, v)) else Binding(FlowDot0, Flow(v))]),
      Extract(ContextNet, ContextOutputs(Frame0, v)),
      Feed(ContextNet, [Binding(InputDot1, Padded(Frame1, v)),
                        if v2 then Binding(FlowDot0, FlowSlice(Frame1, v)) else Binding(FlowDot1, Flow(v))]),
      Extract(ContextNet, ContextOutputs(Frame1, v)) ]
  }

  /** The inputs of a fusionnet evaluation; the reversed pass swaps the frames and their contexts. */
  function FusionInputs(v: nat, d: Dir): seq<Binding>
  {
    var a, b := FirstFrame(d), SecondFrame(d);
    [ Binding(Img0, Padded(a, v)), Binding(Img1, Padded(b, v)), Binding(FlowBlob, FlowOf(v, d)),
      Binding(Numbered(3), Context(a, v, 0)), Binding(Numbered(4), Context(a, v, 1)),
      Binding(Numbered(5), Context(a, v, 2)), Binding(Numbered(6), Context(a, v, 3)),
      Binding(Numbered(7), Context(b, v, 0)), Binding(Numbered(8), Context(b, v, 1)),
      Binding(Numbered(9), Context(b, v, 2)), Binding(Numbered(10), Context(b, v, 3)) ]
  }

  function FusionOutput(v: nat, d: Dir): Tensor
  {
    if d == Forward then OutPadded(v) else OutPaddedReversed(v)
  }

  /** The release of the two unpadded uploads `in0_gpu`, `in1_gpu`. */
  function UploadReleases(): seq<Op>
  {
    [Release(Uploaded(Frame0)), Release(Uploaded(Frame1))]
  }

  /** The release of the padded inputs of variant `v`. */
  function PaddedReleases(v: nat): seq<Op>
  {
    [Release(Padded(Frame0, v)), Release(Padded(Frame1, v))]
  }

  /** The release of the eight context tensors of variant `v`. */
  function ContextReleases(v: nat): seq<Op>
  {
    [ Release(Context(Frame0, v, 0)), Release(Context(Frame0, v, 1)),
      Release(Context(Frame0, v, 2)), Release(Context(Frame0, v, 3)),
      Release(Context(Frame1, v, 0)), Release(Context(Frame1, v, 1)),
      Release(Context(Frame1, v, 2)), Release(Context(Frame1, v, 3)) ]
  }

  /** Temporal merge of the forward and reversed outputs of variant `v` into `out_gpu_padded[v]`. */
  function MergeOutput(v: nat): Op
  {
    Dispatch(OutTtaTemporalAvg, [OutPadded(v), OutPaddedReversed(v)], [OutPadded(v)])
  }

  /** The memory-saving releases between the inputs and the extract of the forward TTA fusion. */
  function TtaForwardReleases(temporal: bool, v: nat): seq<Op>
  {
    (if !temporal then (if v == 0 then UploadReleases() else PaddedReleases(v - 1)) + ContextReleases(v) else [])
    + (if v != 0 then [Release(Flow(v - 1))] else [])
  }

  /** The memory-saving releases of the reversed TTA fusion. */
  function TtaReversedReleases(v: nat): seq<Op>
  {
    (if v == 0 then UploadReleases() else PaddedReleases(v - 1) + [Release(FlowReversed(v - 1))])
    + ContextReleases(v)
  }

  /** A fusionnet evaluation: inputs, the releases recorded in between, the extract. */
  function Fusion(v: nat, d: Dir, releases: seq<Op>): seq<Op>
  {
    [Feed(FusionNet, FusionInputs(v, d))] + releases + [Extract(FusionNet, [Binding(OutputBlob, FusionOutput(v, d))])]
  }

  /** One iteration of the TTA fusion loop. */
  function TtaFusionStep(cfg: Config, v: nat): seq<Op>
  {
    ContextStep(cfg.v2, v)
    + Fusion(v, Forward, TtaForwardReleases(cfg.temporal, v))
    + (if cfg.temporal then Fusion(v, Reversed, TtaReversedReleases(v)) + [MergeOutput(v)] else [])
  }

  function TtaFusionLoop(cfg: Config, n: nat): seq<Op>
  {
    if n == 0 then [] else TtaFusionLoop(cfg, n - 1) + TtaFusionStep(cfg, n - 1)
  }

  /** Creation of `out_gpu` and the postprocess dispatch that crops the padded outputs into it. */
  function Postprocess(outs: seq<Tensor>, w: int, h: int): seq<Op>
  {
    [Create(OutGpu, w, h, 3), Dispatch(Postproc, outs, [OutGpu])]
  }

  /** The preprocess of both frames into their eight padded variants. */
  function TtaPreprocess(wPadded: int, hPadded: int): seq<Op>
  {
    PreprocTta(Frame0, wPadded, hPadded) + PreprocTta(Frame1, wPadded, hPadded)
  }

  /** The flownet loop, and the reversed one under temporal augmentation. */
  function TtaFlowPasses(cfg: Config): seq<Op>
  {
    FlowLoop(cfg.uhd, Forward, 8) + (if cfg.temporal then FlowLoop(cfg.uhd, Reversed, 8) else [])
  }

  /** The TTA flow average of each direction and the temporal merge of the two. */
  function TtaFlowAverage(cfg: Config): seq<Op>
  {
    [Dispatch(FlowTtaAvg, TtaFlows(Forward), TtaFlows(Forward))]
    + (if cfg.temporal then [Dispatch(FlowTtaAvg, TtaFlows(Reversed), TtaFlows(Reversed))] + MergeFlowLoop(8) else [])
  }

  /** The v2 slicing of the eight averaged flows. */
  function TtaSlices(cfg: Config): seq<Op>
  {
    if cfg.v2 then SliceLoop(8) else []
  }

  /** Everything the TTA branch records before its fusion loop. */
  function TtaPrefix(cfg: Config, wPadded: int, hPadded: int): seq<Op>
  {
    TtaPreprocess(wPadded, hPadded) + TtaFlowPasses(cfg) + TtaFlowAverage(cfg) + TtaSlices(cfg)
  }

  /** The TTA branch of `RIFE::process`. */
  function TtaCommands(cfg: Config, w: int, h: int, wPadded: int, hPadded: int): seq<Op>
  {
    TtaPrefix(cfg, wPadded, hPadded)
    + TtaFusionLoop(cfg, 8)
    + Postprocess([OutPadded(0), OutPadded(1), OutPadded(2), OutPadded(3),
                   OutPadded(4), OutPadded(5), OutPadded(6), OutPadded(7)], w, h)
  }

  /** Everything the plain branch records before its fusion. */
  function PlainPrefix(cfg: Config, wPadded: int, hPadded: int): seq<Op>
  {
    PreprocPlain(Frame0, wPadded, hPadded) + PreprocPlain(Frame1, wPadded, hPadded)
    + FlowStep(cfg.uhd, 0, Forward)
    + (if cfg.temporal then FlowStep(cfg.uhd, 0, Reversed) + [MergeFlow(0)] else [])
    + (if cfg.v2 then [SliceFlow(0)] else [])
    + ContextStep(cfg.v2, 0)
  }

  /** The fusion evaluations of the plain branch, with their releases. */
  function PlainFusion(cfg: Config): seq<Op>
  {
    Fusion(0, Forward, (if !cfg.temporal then UploadReleases() + ContextReleases(0) else []) + [Release(Flow(0))])
    + (if cfg.temporal
       then Fusion(0, Reversed, UploadReleases() + ContextReleases(0) + [Release(FlowReversed(0))]) + [MergeOutput(0)]
       else [])
  }

  /** The branch of `RIFE::process` without TTA. */
  function PlainCommands(cfg: Config, w: int, h: int, wPadded: int, hPadded: int): seq<Op>
  {
    PlainPrefix(cfg, wPadded, hPadded) + PlainFusion(cfg) + Postprocess([OutPadded(0)], w, h)
  }

  /** Everything `RIFE::process` records for the legacy and v2 families (frames padded to 32). */
  function LegacyCommands(cfg: Config, w: nat, h: nat): seq<Op>
  {
    var wPadded, hPadded := PaddedSize(w, LegacyAlignment), PaddedSize(h, LegacyAlignment);
    Uploads()
    + (if cfg.tta then TtaCommands(cfg, w, h, wPadded, hPadded) else PlainCommands(cfg, w, h, wPadded, hPadded))
    + DownloadAndSubmit()
  }

  /**
    Everything `RIFE::process_v4` records: one network fed both frames and a
    one-channel map that the timestep kernel fills with the caller's `timestep`.
   */
  function V4Commands(padding: nat, w: nat, h: nat, timestep: real): seq<Op>
    requires padding > 0
  {
    var wPadded, hPadded := PaddedSize(w, padding), PaddedSize(h, padding);
    Uploads()
    + PreprocPlain(Frame0, wPadded, hPadded) + PreprocPlain(Frame1, wPadded, hPadded)
    + [ Create(TimestepPadded, wPadded, hPadded, 1),
        Fill(V4Timestep, TimestepPadded, timestep),
        Feed(FlowNet, [Binding(In0, Padded(Frame0, 0)), Binding(In1, Padded(Frame1, 0)),
                       Binding(In2, TimestepPadded)]),
        Extract(FlowNet, [Binding(Out0, OutPadded(0))]) ]
    + Postprocess([OutPadded(0)], w, h)
    + DownloadAndSubmit()
  }

  /**
    What one call of `RIFE::process` records: v4 instances delegate to
    `process_v4` with the timestep; the legacy families never read it.
   */
  function ProcessCommands(cfg: Config, w: nat, h: nat, timestep: real): seq<Op>
    requires cfg.v4 ==> cfg.padding > 0
  {
    if cfg.v4 then V4Commands(cfg.padding, w, h, timestep) else LegacyCommands(cfg, w, h)
  }
}
