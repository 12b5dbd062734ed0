/**
  How often each network is evaluated in one call of `RIFE::process`: one
  extractor per evaluation, counted by its `Extract` operation.
 */
module Counts {

  import opened Padding
  import opened Commands

  /** The number of evaluations of `net` in trace `tr`. */
  function Evaluations(tr: seq<Op>, net: Net): nat
  {
    if |tr| == 0 then 0
    else Evaluations(tr[..|tr| - 1], net) + (if IsEvaluation(tr[|tr| - 1], net) then 1 else 0)
  }

  /** Selects one of three per-network numbers. */
  function Tally(flow: nat, context: nat, fusion: nat, net: Net): nat
  {
    match net
    case FlowNet => flow
    case ContextNet => context
    case FusionNet => fusion
  }

  // ----- counting over concatenation -----

  lemma {:induction false} EvaluationsAppend(a: seq<Op>, b: seq<Op>, net: Net)
    ensures Evaluations(a + b, net) == Evaluations(a, net) + Evaluations(b, net)
  {
    if |b| == 0 {
      assert a + b == a;
    } else {
      EvaluationsAppend(a, b[..|b| - 1], net);
      assert (a + b)[..|a + b| - 1] == a + b[..|b| - 1];
    }
  }

  lemma {:induction false} NoEvaluations(s: seq<Op>, net: Net)
    requires forall op :: op in s ==> !IsEvaluation(op, net)
    ensures Evaluations(s, net) == 0
  {
    if |s| > 0 {
      var init := s[..|s| - 1];
      forall op | op in init
        ensures !IsEvaluation(op, net)
      {
        var k :| 0 <= k < |init| && init[k] == op;
        assert s[k] == op;
      }
      NoEvaluations(init, net);
      assert s[|s| - 1] in s;
    }
  }

  lemma Single(x: Op, net: Net)
    ensures Evaluations([x], net) == if IsEvaluation(x, net) then 1 else 0
  {
    assert [x][..0] == [];
  }

  /** `a + [x] + b` where only `x` may be an evaluation. */
  lemma OneAmong(a: seq<Op>, x: Op, b: seq<Op>, net: Net)
    requires forall op :: op in a ==> !IsEvaluation(op, net)
    requires forall op :: op in b ==> !IsEvaluation(op, net)
    ensures Evaluations(a + [x] + b, net) == if IsEvaluation(x, net) then 1 else 0
  {
    NoEvaluations(a, net);
    NoEvaluations(b, net);
    Single(x, net);
    EvaluationsAppend(a, [x], net);
    EvaluationsAppend(a + [x], b, net);
  }

  // ----- the pieces -----

  /** A flownet step evaluates flownet once and nothing else. */
  lemma FlowStepEvaluations(uhd: bool, v: nat, d: Dir, net: Net)
    ensures Evaluations(FlowStep(uhd, v, d), net) == Tally(1, 0, 0, net)
  {
    var s := FlowStep(uhd, v, d);
    if uhd {
      OneAmong(s[..3], s[3], s[4..], net);
      assert s == s[..3] + [s[3]] + s[4..];
    } else {
      OneAmong(s[..1], s[1], [], net);
      assert s == s[..1] + [s[1]] + [];
    }
  }

  lemma {:induction false} FlowLoopEvaluations(uhd: bool, d: Dir, n: nat, net: Net)
    ensures Evaluations(FlowLoop(uhd, d, n), net) == Tally(n, 0, 0, net)
  {
    if n > 0 {
      FlowLoopEvaluations(uhd, d, n - 1, net);
      FlowStepEvaluations(uhd, n - 1, d, net);
      EvaluationsAppend(FlowLoop(uhd, d, n - 1), FlowStep(uhd, n - 1, d), net);
    }
  }

  lemma {:induction false} MergeFlowLoopEvaluations(n: nat, net: Net)
    ensures Evaluations(MergeFlowLoop(n), net) == 0
  {
    if n > 0 {
      MergeFlowLoopEvaluations(n - 1, net);
      Single(MergeFlow(n - 1), net);
      EvaluationsAppend(MergeFlowLoop(n - 1), [MergeFlow(n - 1)], net);
    }
  }

  lemma {:induction false} SliceLoopEvaluations(n: nat, net: Net)
    ensures Evaluations(SliceLoop(n), net) == 0
  {
    if n > 0 {
      SliceLoopEvaluations(n - 1, net);
      Single(SliceFlow(n - 1), net);
      EvaluationsAppend(SliceLoop(n - 1), [SliceFlow(n - 1)], net);
    }
  }

  /** Two contextnet evaluations per variant. */
  lemma ContextStepEvaluations(v2: bool, v: nat, net: Net)
    ensures Evaluations(ContextStep(v2, v), net) == Tally(0, 2, 0, net)
  {
    var s := ContextStep(v2, v);
    OneAmong([s[0]], s[1], [], net);
    OneAmong([s[2]], s[3], [], net);
    EvaluationsAppend(s[..2], s[2..], net);
    assert s[..2] == [s[0]] + [s[1]] + [];
    assert s[2..] == [s[2]] + [s[3]] + [];
    assert s == s[..2] + s[2..];
  }

  /** A fusion with releases in between evaluates fusionnet once. */
  lemma FusionEvaluations(v: nat, d: Dir, releases: seq<Op>, net: Net)
    requires forall op :: op in releases ==> op.Release?
    ensures Evaluations(Fusion(v, d, releases), net) == Tally(0, 0, 1, net)
  {
    var x := Extract(FusionNet, [Binding(OutputBlob, FusionOutput(v, d))]);
    OneAmong([Feed(FusionNet, FusionInputs(v, d))] + releases, x, [], net);
    assert Fusion(v, d, releases) == [Feed(FusionNet, FusionInputs(v, d))] + releases + [x] + [];
  }

  lemma ForwardReleasesAreReleases(temporal: bool, v: nat)
    ensures forall op :: op in TtaForwardReleases(temporal, v) ==> op.Release?
  {
  }

  lemma ReversedReleasesAreReleases(v: nat)
    ensures forall op :: op in TtaReversedReleases(v) ==> op.Release?
  {
  }

  /** One TTA variant: two contextnet and one fusionnet evaluation per direction. */
  lemma TtaFusionStepEvaluations(cfg: Config, v: nat, net: Net)
    ensures Evaluations(TtaFusionStep(cfg, v), net) == Tally(0, 2, Directions(cfg), net)
  {
    var context := ContextStep(cfg.v2, v);
    var forward := Fusion(v, Forward, TtaForwardReleases(cfg.temporal, v));
    var reversed := if cfg.temporal then Fusion(v, Reversed, TtaReversedReleases(v)) + [MergeOutput(v)] else [];
    ContextStepEvaluations(cfg.v2, v, net);
    ForwardReleasesAreReleases(cfg.temporal, v);
    FusionEvaluations(v, Forward, TtaForwardReleases(cfg.temporal, v), net);
    ReversedReleasesAreReleases(v);
    FusionEvaluations(v, Reversed, TtaReversedReleases(v), net);
    Single(MergeOutput(v), net);
    EvaluationsAppend(Fusion(v, Reversed, TtaReversedReleases(v)), [MergeOutput(v)], net);
    assert Evaluations(reversed, net) == if cfg.temporal then Tally(0, 0, 1, net) else 0;
    EvaluationsAppend(context, forward, net);
    EvaluationsAppend(context + forward, reversed, net);
  }

  lemma {:induction false} TtaFusionLoopEvaluations(cfg: Config, n: nat, net: Net)
    ensures Evaluations(TtaFusionLoop(cfg, n), net) == Tally(0, 2 * n, n * Directions(cfg), net)
  {
    if n > 0 {
      TtaFusionLoopEvaluations(cfg, n - 1, net);
      TtaFusionStepEvaluations(cfg, n - 1, net);
      TtaFusionLoopAppend(cfg, n, net);
      TallyStep(n, Directions(cfg), net);
    }
  }

  /** The loop after `n` iterations is the loop after `n - 1` followed by one more step. */
  lemma TtaFusionLoopAppend(cfg: Config, n: nat, net: Net)
    requires n > 0
    ensures Evaluations(TtaFusionLoop(cfg, n), net)
         == Evaluations(TtaFusionLoop(cfg, n - 1), net) + Evaluations(TtaFusionStep(cfg, n - 1), net)
  {
    EvaluationsAppend(TtaFusionLoop(cfg, n - 1), TtaFusionStep(cfg, n - 1), net);
  }

  /** The tallies of `n - 1` variants and of one more add up to those of `n`. */
  lemma TallyStep(n: nat, directions: nat, net: Net)
    requires n > 0
    ensures Tally(0, 2 * (n - 1), (n - 1) * directions, net) + Tally(0, 2, directions, net)
         == Tally(0, 2 * n, n * directions, net)
  {
    assert n * directions == (n - 1) * directions + directions;
  }

  /** No evaluation among the uploads, the preprocess, the postprocess and the download. */
  lemma FramingEvaluations(wPadded: int, hPadded: int, w: int, h: int, outs: seq<Tensor>, net: Net)
    ensures Evaluations(Uploads(), net) == 0
    ensures Evaluations(DownloadAndSubmit(), net) == 0
    ensures Evaluations(TtaPreprocess(wPadded, hPadded), net) == 0
    ensures Evaluations(PreprocPlain(Frame0, wPadded, hPadded) + PreprocPlain(Frame1, wPadded, hPadded), net) == 0
    ensures Evaluations(Postprocess(outs, w, h), net) == 0
  {
    NoEvaluations(Uploads(), net);
    NoEvaluations(DownloadAndSubmit(), net);
    NoEvaluations(TtaPreprocess(wPadded, hPadded), net);
    NoEvaluations(PreprocPlain(Frame0, wPadded, hPadded) + PreprocPlain(Frame1, wPadded, hPadded), net);
    NoEvaluations(Postprocess(outs, w, h), net);
  }

  /** The TTA flownet passes: eight per direction. */
  lemma TtaFlowPassesEvaluations(cfg: Config, net: Net)
    ensures Evaluations(TtaFlowPasses(cfg), net) == Tally(8 * Directions(cfg), 0, 0, net)
  {
    FlowLoopEvaluations(cfg.uhd, Forward, 8, net);
    FlowLoopEvaluations(cfg.uhd, Reversed, 8, net);
    EvaluationsAppend(FlowLoop(cfg.uhd, Forward, 8), if cfg.temporal then FlowLoop(cfg.uhd, Reversed, 8) else [], net);
  }

  /** The flow averages, temporal merges and v2 slices evaluate no network. */
  lemma TtaFlowAverageEvaluations(cfg: Config, net: Net)
    ensures Evaluations(TtaFlowAverage(cfg), net) == 0
    ensures Evaluations(TtaSlices(cfg), net) == 0
  {
    var average := Dispatch(FlowTtaAvg, TtaFlows(Forward), TtaFlows(Forward));
    var averageReversed := Dispatch(FlowTtaAvg, TtaFlows(Reversed), TtaFlows(Reversed));
    Single(average, net);
    Single(averageReversed, net);
    MergeFlowLoopEvaluations(8, net);
    EvaluationsAppend([averageReversed], MergeFlowLoop(8), net);
    EvaluationsAppend([average], if cfg.temporal then [averageReversed] + MergeFlowLoop(8) else [], net);
    SliceLoopEvaluations(8, net);
  }

  /** Before its fusion loop, the TTA branch evaluates flownet once per variant and direction. */
  lemma TtaPrefixEvaluations(cfg: Config, wPadded: int, hPadded: int, net: Net)
    ensures Evaluations(TtaPrefix(cfg, wPadded, hPadded), net) == Tally(8 * Directions(cfg), 0, 0, net)
  {
    var pre, passes := TtaPreprocess(wPadded, hPadded), TtaFlowPasses(cfg);
    FramingEvaluations(wPadded, hPadded, 0, 0, [], net);
    TtaFlowPassesEvaluations(cfg, net);
    TtaFlowAverageEvaluations(cfg, net);
    EvaluationsAppend(pre, passes, net);
    EvaluationsAppend(pre + passes, TtaFlowAverage(cfg), net);
    EvaluationsAppend(pre + passes + TtaFlowAverage(cfg), TtaSlices(cfg), net);
  }

  /** The plain branch before its fusion: one flownet per direction, then two contextnets. */
  lemma PlainPrefixEvaluations(cfg: Config, wPadded: int, hPadded: int, net: Net)
    ensures Evaluations(PlainPrefix(cfg, wPadded, hPadded), net) == Tally(Directions(cfg), 2, 0, net)
  {
    var pre := PreprocPlain(Frame0, wPadded, hPadded) + PreprocPlain(Frame1, wPadded, hPadded);
    var forward := FlowStep(cfg.uhd, 0, Forward);
    var reversed := if cfg.temporal then FlowStep(cfg.uhd, 0, Reversed) + [MergeFlow(0)] else [];
    var sliced := if cfg.v2 then [SliceFlow(0)] else [];
    FramingEvaluations(wPadded, hPadded, 0, 0, [], net);
    FlowStepEvaluations(cfg.uhd, 0, Forward, net);
    FlowStepEvaluations(cfg.uhd, 0, Reversed, net);
    Single(MergeFlow(0), net);
    EvaluationsAppend(FlowStep(cfg.uhd, 0, Reversed), [MergeFlow(0)], net);
    Single(SliceFlow(0), net);
    ContextStepEvaluations(cfg.v2, 0, net);
    EvaluationsAppend(pre, forward, net);
    EvaluationsAppend(pre + forward, reversed, net);
    EvaluationsAppend(pre + forward + reversed, sliced, net);
    EvaluationsAppend(pre + forward + reversed + sliced, ContextStep(cfg.v2, 0), net);
  }

  /** The plain branch's fusion: one fusionnet per direction. */
  lemma PlainFusionEvaluations(cfg: Config, net: Net)
    ensures Evaluations(PlainFusion(cfg), net) == Tally(0, 0, Directions(cfg), net)
  {
    var forwardReleases := (if !cfg.temporal then UploadReleases() + ContextReleases(0) else []) + [Release(Flow(0))];
    var reversedReleases := UploadReleases() + ContextReleases(0) + [Release(FlowReversed(0))];
    assert forall op :: op in forwardReleases ==> op.Release?;
    assert forall op :: op in reversedReleases ==> op.Release?;
    FusionEvaluations(0, Forward, forwardReleases, net);
    FusionEvaluations(0, Reversed, reversedReleases, net);
    Single(MergeOutput(0), net);
    EvaluationsAppend(Fusion(0, Reversed, reversedReleases), [MergeOutput(0)], net);
    EvaluationsAppend(Fusion(0, Forward, forwardReleases),
                      if cfg.temporal then Fusion(0, Reversed, reversedReleases) + [MergeOutput(0)] else [], net);
  }

  lemma TtaCommandsEvaluations(cfg: Config, w: int, h: int, wPadded: int, hPadded: int, net: Net)
    requires cfg.tta
    ensures Evaluations(TtaCommands(cfg, w, h, wPadded, hPadded), net)
            == Tally(8 * Directions(cfg), 16, 8 * Directions(cfg), net)
  {
    var outs := [OutPadded(0), OutPadded(1), OutPadded(2), OutPadded(3),
                 OutPadded(4), OutPadded(5), OutPadded(6), OutPadded(7)];
    TtaPrefixEvaluations(cfg, wPadded, hPadded, net);
    TtaFusionLoopEvaluations(cfg, 8, net);
    FramingEvaluations(wPadded, hPadded, w, h, outs, net);
    EvaluationsAppend(TtaPrefix(cfg, wPadded, hPadded), TtaFusionLoop(cfg, 8), net);
    EvaluationsAppend(TtaPrefix(cfg, wPadded, hPadded) + TtaFusionLoop(cfg, 8), Postprocess(outs, w, h), net);
  }

  lemma PlainCommandsEvaluations(cfg: Config, w: int, h: int, wPadded: int, hPadded: int, net: Net)
    ensures Evaluations(PlainCommands(cfg, w, h, wPadded, hPadded), net)
            == Tally(Directions(cfg), 2, Directions(cfg), net)
  {
    PlainPrefixEvaluations(cfg, wPadded, hPadded, net);
    PlainFusionEvaluations(cfg, net);
    FramingEvaluations(wPadded, hPadded, w, h, [OutPadded(0)], net);
    EvaluationsAppend(PlainPrefix(cfg, wPadded, hPadded), PlainFusion(cfg), net);
    EvaluationsAppend(PlainPrefix(cfg, wPadded, hPadded) + PlainFusion(cfg), Postprocess([OutPadded(0)], w, h), net);
  }

  /** The uploads before and the download after a branch add no evaluation. */
  lemma FramedEvaluations(branch: seq<Op>, net: Net)
    ensures Evaluations(Uploads() + branch + DownloadAndSubmit(), net) == Evaluations(branch, net)
  {
    FramingEvaluations(0, 0, 0, 0, [], net);
    EvaluationsAppend(Uploads(), branch, net);
    EvaluationsAppend(Uploads() + branch, DownloadAndSubmit(), net);
  }

  lemma LegacyEvaluations(cfg: Config, w: nat, h: nat, net: Net)
    ensures Evaluations(LegacyCommands(cfg, w, h), net)
            == Tally(Variants(cfg) * Directions(cfg), 2 * Variants(cfg), Variants(cfg) * Directions(cfg), net)
  {
    var wPadded, hPadded := PaddedSize(w, LegacyAlignment), PaddedSize(h, LegacyAlignment);
    if cfg.tta {
      TtaCommandsEvaluations(cfg, w, h, wPadded, hPadded, net);
      FramedEvaluations(TtaCommands(cfg, w, h, wPadded, hPadded), net);
    } else {
      PlainCommandsEvaluations(cfg, w, h, wPadded, hPadded, net);
      FramedEvaluations(PlainCommands(cfg, w, h, wPadded, hPadded), net);
    }
  }

  /** `process_v4` evaluates flownet once and neither of the other networks. */
  lemma V4Evaluations(padding: nat, w: nat, h: nat, timestep: real, net: Net)
    requires padding > 0
    ensures Evaluations(V4Commands(padding, w, h, timestep), net) == Tally(1, 0, 0, net)
  {
    var s := V4Commands(padding, w, h, timestep);
    var k := |s| - 5;
    OneAmong(s[..k], s[k], s[k + 1..], net);
    assert s == s[..k] + [s[k]] + s[k + 1..];
  }

  /**
    Per call, flownet runs once per TTA variant and direction, contextnet twice
    per variant and fusionnet once per variant and direction; a v4 instance runs
    flownet once and nothing else.
   */
  lemma ProcessEvaluations(cfg: Config, w: nat, h: nat, timestep: real)
    requires cfg.v4 ==> cfg.padding > 0
    ensures Evaluations(ProcessCommands(cfg, w, h, timestep), FlowNet)
            == if cfg.v4 then 1 else Variants(cfg) * Directions(cfg)
    ensures Evaluations(ProcessCommands(cfg, w, h, timestep), ContextNet)
            == if cfg.v4 then 0 else 2 * Variants(cfg)
    ensures Evaluations(ProcessCommands(cfg, w, h, timestep), FusionNet)
            == if cfg.v4 then 0 else Variants(cfg) * Directions(cfg)
  {
    if cfg.v4 {
      V4Evaluations(cfg.padding, w, h, timestep, FlowNet);
      V4Evaluations(cfg.padding, w, h, timestep, ContextNet);
      V4Evaluations(cfg.padding, w, h, timestep, FusionNet);
    } else {
      LegacyEvaluations(cfg, w, h, FlowNet);
      LegacyEvaluations(cfg, w, h, ContextNet);
      LegacyEvaluations(cfg, w, h, FusionNet);
    }
  }
}
