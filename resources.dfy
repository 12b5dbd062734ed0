/**
  Every network, compute pipeline and layer that `RIFE::process` uses is
  one that `RIFE::load` set up for the same flags on a device: the
  recorded work never touches a null pipeline, a missing layer or a net
  whose files were not loaded.
 */
module Resources {

  import opened Commands
  import opened Selection
  import opened Padding
  import opened ReleaseDiscipline

  /** What a loaded instance holds: its nets, the kernels with a pipeline, its layers. */
  datatype Held = Held(nets: set<Net>, kernels: set<Kernel>, layers: set<Layer>)

  /** The resources `load` sets up on a device for the flags of `cfg`. */
  function LoadedFor(cfg: Config): Held
  {
    Held(LoadedNets(cfg.v4), BuiltPipelines(true, cfg.tta, cfg.temporal, cfg.v2, cfg.v4).Keys,
         CreatedLayers(cfg.uhd, cfg.v2))
  }

  /** An instance that holds what `load` selects on a device holds `LoadedFor(cfg)`. */
  lemma HeldOnDevice(cfg: Config, nets: set<Net>, pipelines: map<Kernel, Shader>, layers: set<Layer>)
    requires nets == LoadedNets(cfg.v4)
    requires pipelines == BuiltPipelines(true, cfg.tta, cfg.temporal, cfg.v2, cfg.v4)
    requires layers == CreatedLayers(cfg.uhd, cfg.v2)
    ensures Held(nets, pipelines.Keys, layers) == LoadedFor(cfg)
  {
  }

  /** The resource an operation needs is held. */
  predicate Uses(op: Op, r: Held)
  {
    match op
    case Dispatch(k, _, _) => k in r.kernels
    case Fill(k, _, _) => k in r.kernels
    case LayerForward(l, _, _) => l in r.layers
    case Feed(n, _) => n in r.nets
    case Extract(n, _) => n in r.nets
    case _ => true
  }

  /** Every operation of `s` uses only held resources. */
  ghost predicate UsesOnly(s: seq<Op>, r: Held)
  {
    forall i :: 0 <= i < |s| ==> Uses(At(s, i), r)
  }

  lemma MembersUse(s: seq<Op>, r: Held)
    requires forall op :: op in s ==> Uses(op, r)
    ensures UsesOnly(s, r)
  {
    forall i | 0 <= i < |s|
      ensures Uses(At(s, i), r)
    {
      AtIndex(s, i);
      assert s[i] in s;
    }
  }

  lemma UsesAppend(a: seq<Op>, b: seq<Op>, r: Held)
    requires UsesOnly(a, r) && UsesOnly(b, r)
    ensures UsesOnly(a + b, r)
  {
    forall i | 0 <= i < |a + b|
      ensures Uses(At(a + b, i), r)
    {
      AtAppend(a, b, i);
    }
  }

  /** Which resources `load` holds for `cfg`, one flag at a time. */
  lemma LoadedForFacts(cfg: Config)
    ensures var r := LoadedFor(cfg);
            && FlowNet in r.nets
            && (!cfg.v4 ==> ContextNet in r.nets && FusionNet in r.nets)
            && Preproc in r.kernels && Postproc in r.kernels
            && (cfg.tta ==> FlowTtaAvg in r.kernels)
            && (cfg.temporal ==> FlowTtaTemporalAvg in r.kernels && OutTtaTemporalAvg in r.kernels)
            && (cfg.v4 ==> V4Timestep in r.kernels)
            && (cfg.uhd ==> UhdDownscaleImage in r.layers && UhdUpscaleFlow in r.layers && UhdDoubleFlow in r.layers)
            && (cfg.v2 ==> V2SliceFlow in r.layers)
  {
    var m := BuiltPipelines(true, cfg.tta, cfg.temporal, cfg.v2, cfg.v4);
    assert Preproc in m && Postproc in m;
    if cfg.tta {
      assert FlowTtaAvg in m;
    }
    if cfg.temporal {
      assert FlowTtaTemporalAvg in m && OutTtaTemporalAvg in m;
    }
    if cfg.v4 {
      assert V4Timestep in m;
    }
  }

  /** The held resources the legacy trace requires, as a condition on any `r`. */
  predicate LegacyHeld(cfg: Config, r: Held)
  {
    && FlowNet in r.nets && ContextNet in r.nets && FusionNet in r.nets
    && Preproc in r.kernels && Postproc in r.kernels
    && (cfg.tta ==> FlowTtaAvg in r.kernels)
    && (cfg.temporal ==> FlowTtaTemporalAvg in r.kernels && OutTtaTemporalAvg in r.kernels)
    && (cfg.uhd ==> UhdDownscaleImage in r.layers && UhdUpscaleFlow in r.layers && UhdDoubleFlow in r.layers)
    && (cfg.v2 ==> V2SliceFlow in r.layers)
  }

  lemma FlowStepUses(cfg: Config, v: nat, d: Dir, r: Held)
    requires LegacyHeld(cfg, r)
    ensures UsesOnly(FlowStep(cfg.uhd, v, d), r)
  {
    MembersUse(FlowStep(cfg.uhd, v, d), r);
  }

  lemma {:induction false} FlowLoopUses(cfg: Config, d: Dir, n: nat, r: Held)
    requires LegacyHeld(cfg, r)
    ensures UsesOnly(FlowLoop(cfg.uhd, d, n), r)
  {
    if n > 0 {
      FlowLoopUses(cfg, d, n - 1, r);
      FlowStepUses(cfg, n - 1, d, r);
      UsesAppend(FlowLoop(cfg.uhd, d, n - 1), FlowStep(cfg.uhd, n - 1, d), r);
    }
  }

  lemma {:induction false} MergeFlowLoopUses(cfg: Config, n: nat, r: Held)
    requires LegacyHeld(cfg, r) && cfg.temporal
    ensures UsesOnly(MergeFlowLoop(n), r)
  {
    if n > 0 {
      MergeFlowLoopUses(cfg, n - 1, r);
      MembersUse([MergeFlow(n - 1)], r);
      UsesAppend(MergeFlowLoop(n - 1), [MergeFlow(n - 1)], r);
    }
  }

  lemma {:induction false} SliceLoopUses(cfg: Config, n: nat, r: Held)
    requires LegacyHeld(cfg, r) && cfg.v2
    ensures UsesOnly(SliceLoop(n), r)
  {
    if n > 0 {
      SliceLoopUses(cfg, n - 1, r);
      MembersUse([SliceFlow(n - 1)], r);
      UsesAppend(SliceLoop(n - 1), [SliceFlow(n - 1)], r);
    }
  }

  lemma ContextStepUses(cfg: Config, v: nat, r: Held)
    requires LegacyHeld(cfg, r)
    ensures UsesOnly(ContextStep(cfg.v2, v), r)
  {
    MembersUse(ContextStep(cfg.v2, v), r);
  }

  /** A fusion uses fusionnet and, among its releases, nothing else. */
  lemma FusionUses(cfg: Config, v: nat, d: Dir, releases: seq<Op>, r: Held)
    requires LegacyHeld(cfg, r)
    requires forall op :: op in releases ==> op.Release?
    ensures UsesOnly(Fusion(v, d, releases), r)
  {
    MembersUse(Fusion(v, d, releases), r);
  }

  lemma TtaFusionStepUses(cfg: Config, v: nat, r: Held)
    requires LegacyHeld(cfg, r)
    ensures UsesOnly(TtaFusionStep(cfg, v), r)
  {
    ContextStepUses(cfg, v, r);
    var fwd := TtaForwardReleases(cfg.temporal, v);
    assert forall op :: op in fwd ==> op.Release?;
    FusionUses(cfg, v, Forward, fwd, r);
    UsesAppend(ContextStep(cfg.v2, v), Fusion(v, Forward, fwd), r);
    if cfg.temporal {
      var rev := TtaReversedReleases(v);
      assert forall op :: op in rev ==> op.Release?;
      FusionUses(cfg, v, Reversed, rev, r);
      MembersUse([MergeOutput(v)], r);
      UsesAppend(Fusion(v, Reversed, rev), [MergeOutput(v)], r);
      UsesAppend(ContextStep(cfg.v2, v) + Fusion(v, Forward, fwd), Fusion(v, Reversed, rev) + [MergeOutput(v)], r);
    } else {
      UsesAppend(ContextStep(cfg.v2, v) + Fusion(v, Forward, fwd), [], r);
    }
  }

  lemma {:induction false} TtaFusionLoopUses(cfg: Config, n: nat, r: Held)
    requires LegacyHeld(cfg, r)
    ensures UsesOnly(TtaFusionLoop(cfg, n), r)
  {
    if n > 0 {
      TtaFusionLoopUses(cfg, n - 1, r);
      TtaFusionStepUses(cfg, n - 1, r);
      UsesAppend(TtaFusionLoop(cfg, n - 1), TtaFusionStep(cfg, n - 1), r);
    }
  }

  lemma TtaPrefixUses(cfg: Config, wPadded: int, hPadded: int, r: Held)
    requires LegacyHeld(cfg, r) && cfg.tta
    ensures UsesOnly(TtaPrefix(cfg, wPadded, hPadded), r)
  {
    MembersUse(TtaPreprocess(wPadded, hPadded), r);
    FlowLoopUses(cfg, Forward, 8, r);
    FlowLoopUses(cfg, Reversed, 8, r);
    UsesAppend(FlowLoop(cfg.uhd, Forward, 8), if cfg.temporal then FlowLoop(cfg.uhd, Reversed, 8) else [], r);
    var avg := [Dispatch(FlowTtaAvg, TtaFlows(Forward), TtaFlows(Forward))];
    MembersUse(avg, r);
    if cfg.temporal {
      MergeFlowLoopUses(cfg, 8, r);
      MembersUse([Dispatch(FlowTtaAvg, TtaFlows(Reversed), TtaFlows(Reversed))], r);
      UsesAppend([Dispatch(FlowTtaAvg, TtaFlows(Reversed), TtaFlows(Reversed))], MergeFlowLoop(8), r);
      UsesAppend(avg, [Dispatch(FlowTtaAvg, TtaFlows(Reversed), TtaFlows(Reversed))] + MergeFlowLoop(8), r);
    } else {
      UsesAppend(avg, [], r);
    }
    if cfg.v2 {
      SliceLoopUses(cfg, 8, r);
    }
    UsesAppend(TtaPreprocess(wPadded, hPadded), TtaFlowPasses(cfg), r);
    UsesAppend(TtaPreprocess(wPadded, hPadded) + TtaFlowPasses(cfg), TtaFlowAverage(cfg), r);
    UsesAppend(TtaPreprocess(wPadded, hPadded) + TtaFlowPasses(cfg) + TtaFlowAverage(cfg), TtaSlices(cfg), r);
  }

  lemma TtaCommandsUses(cfg: Config, w: int, h: int, wPadded: int, hPadded: int, r: Held)
    requires LegacyHeld(cfg, r) && cfg.tta
    ensures UsesOnly(TtaCommands(cfg, w, h, wPadded, hPadded), r)
  {
    var outs := [OutPadded(0), OutPadded(1), OutPadded(2), OutPadded(3),
                 OutPadded(4), OutPadded(5), OutPadded(6), OutPadded(7)];
    TtaPrefixUses(cfg, wPadded, hPadded, r);
    TtaFusionLoopUses(cfg, 8, r);
    UsesAppend(TtaPrefix(cfg, wPadded, hPadded), TtaFusionLoop(cfg, 8), r);
    MembersUse(Postprocess(outs, w, h), r);
    UsesAppend(TtaPrefix(cfg, wPadded, hPadded) + TtaFusionLoop(cfg, 8), Postprocess(outs, w, h), r);
  }

  lemma PlainCommandsUses(cfg: Config, w: int, h: int, wPadded: int, hPadded: int, r: Held)
    requires LegacyHeld(cfg, r)
    ensures UsesOnly(PlainCommands(cfg, w, h, wPadded, hPadded), r)
  {
    var pre := PreprocPlain(Frame0, wPadded, hPadded) + PreprocPlain(Frame1, wPadded, hPadded);
    MembersUse(pre, r);
    FlowStepUses(cfg, 0, Forward, r);
    var rev := if cfg.temporal then FlowStep(cfg.uhd, 0, Reversed) + [MergeFlow(0)] else [];
    if cfg.temporal {
      FlowStepUses(cfg, 0, Reversed, r);
      MembersUse([MergeFlow(0)], r);
      UsesAppend(FlowStep(cfg.uhd, 0, Reversed), [MergeFlow(0)], r);
    }
    var slice := if cfg.v2 then [SliceFlow(0)] else [];
    MembersUse(slice, r);
    ContextStepUses(cfg, 0, r);
    UsesAppend(pre, FlowStep(cfg.uhd, 0, Forward), r);
    UsesAppend(pre + FlowStep(cfg.uhd, 0, Forward), rev, r);
    UsesAppend(pre + FlowStep(cfg.uhd, 0, Forward) + rev, slice, r);
    UsesAppend(pre + FlowStep(cfg.uhd, 0, Forward) + rev + slice, ContextStep(cfg.v2, 0), r);
    assert PlainPrefix(cfg, wPadded, hPadded) == pre + FlowStep(cfg.uhd, 0, Forward) + rev + slice + ContextStep(cfg.v2, 0);
    var fwdReleases := (if !cfg.temporal then UploadReleases() + ContextReleases(0) else []) + [Release(Flow(0))];
    var revReleases := UploadReleases() + ContextReleases(0) + [Release(FlowReversed(0))];
    FusionUses(cfg, 0, Forward, fwdReleases, r);
    var tail := if cfg.temporal then Fusion(0, Reversed, revReleases) + [MergeOutput(0)] else [];
    if cfg.temporal {
      FusionUses(cfg, 0, Reversed, revReleases, r);
      MembersUse([MergeOutput(0)], r);
      UsesAppend(Fusion(0, Reversed, revReleases), [MergeOutput(0)], r);
    }
    UsesAppend(Fusion(0, Forward, fwdReleases), tail, r);
    UsesAppend(PlainPrefix(cfg, wPadded, hPadded), PlainFusion(cfg), r);
    MembersUse(Postprocess([OutPadded(0)], w, h), r);
    UsesAppend(PlainPrefix(cfg, wPadded, hPadded) + PlainFusion(cfg), Postprocess([OutPadded(0)], w, h), r);
  }

  lemma LegacyUses(cfg: Config, w: nat, h: nat, r: Held)
    requires LegacyHeld(cfg, r)
    ensures UsesOnly(LegacyCommands(cfg, w, h), r)
  {
    var wPadded, hPadded := PaddedSize(w, LegacyAlignment), PaddedSize(h, LegacyAlignment);
    var body := if cfg.tta then TtaCommands(cfg, w, h, wPadded, hPadded) else PlainCommands(cfg, w, h, wPadded, hPadded);
    if cfg.tta {
      TtaCommandsUses(cfg, w, h, wPadded, hPadded, r);
    } else {
      PlainCommandsUses(cfg, w, h, wPadded, hPadded, r);
    }
    MembersUse(Uploads(), r);
    MembersUse(DownloadAndSubmit(), r);
    UsesAppend(Uploads(), body, r);
    UsesAppend(Uploads() + body, DownloadAndSubmit(), r);
  }

  /** `process_v4` uses flownet and the preprocess, timestep and postprocess pipelines, nothing more. */
  lemma V4Uses(padding: nat, w: nat, h: nat, timestep: real, r: Held)
    requires padding > 0
    requires FlowNet in r.nets && Preproc in r.kernels && Postproc in r.kernels && V4Timestep in r.kernels
    ensures UsesOnly(V4Commands(padding, w, h, timestep), r)
  {
    MembersUse(V4Commands(padding, w, h, timestep), r);
  }

  /**
    The resources `process` uses are among those `load` set up on a device
    for the same flags.
   */
  lemma ProcessUsesLoaded(cfg: Config, w: nat, h: nat, timestep: real)
    requires cfg.v4 ==> cfg.padding > 0
    ensures UsesOnly(ProcessCommands(cfg, w, h, timestep), LoadedFor(cfg))
  {
    LoadedForFacts(cfg);
    if cfg.v4 {
      V4Uses(cfg.padding, w, h, timestep, LoadedFor(cfg));
    } else {
      LegacyUses(cfg, w, h, LoadedFor(cfg));
    }
  }
}
