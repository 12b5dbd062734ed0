/**
  The hand-placed `release()` calls of `RIFE::process`. Each release frees a
  device tensor early to bound memory; the discipline is sound when no later
  operation of the same call reads or writes the released tensor.
 */
module ReleaseDiscipline {

  import opened Padding
  import opened Commands

  /** No operation after a release touches the released tensor. */
  ghost predicate ReleaseSafe(tr: seq<Op>)
  {
    forall i, j :: 0 <= i < j < |tr| ==> NotAfterRelease(At(tr, i), At(tr, j))
  }

  /**
    The operation at position `i`, defined recursively so that the solver
    unfolds it only as far as a proof asks (`AtIndex`, `AtAppend`); stating the
    trace predicates through it keeps their quantifiers from firing on every
    index of a long trace.
   */
  ghost function At(tr: seq<Op>, i: nat): Op
    requires i < |tr|
  {
    if i == 0 then tr[0] else At(tr[1..], i - 1)
  }

  lemma {:induction false} AtIndex(tr: seq<Op>, i: nat)
    requires i < |tr|
    ensures At(tr, i) == tr[i]
  {
    if i > 0 {
      AtIndex(tr[1..], i - 1);
    }
  }

  lemma AtAppend(a: seq<Op>, b: seq<Op>, i: nat)
    requires i < |a + b|
    ensures At(a + b, i) == if i < |a| then At(a, i) else At(b, i - |a|)
  {
    AtIndex(a + b, i);
    if i < |a| {
      AtIndex(a, i);
    } else {
      AtIndex(b, i - |a|);
    }
  }

  /** `later` does not touch what `earlier` released. */
  predicate NotAfterRelease(earlier: Op, later: Op)
  {
    earlier.Release? ==> !Touches(later, earlier.t)
  }

  /** The TTA variant a tensor belongs to; the unpadded uploads come before variant 0. */
  function Stamp(t: Tensor): int
  {
    match t
    case Uploaded(_) => -1
    case Padded(_, v) => v
    case Downscaled(_, v, _) => v
    case FlowDownscaled(v, _) => v
    case FlowHalf(v, _) => v
    case Flow(v) => v
    case FlowReversed(v) => v
    case FlowSlice(_, v) => v
    case Context(_, v, _) => v
    case OutPadded(v) => v
    case OutPaddedReversed(v) => v
    case TimestepPadded => 0
    case OutGpu => -1
  }

  /** The network outputs and the cropped output; the source never releases them. */
  predicate IsOutput(t: Tensor)
  {
    t.OutPadded? || t.OutPaddedReversed? || t.OutGpu?
  }

  /** Sets of tensors, named so that the proofs below need no lambdas. */
  datatype Region =
    | Nothing
    | Everything
    | Outputs                        // the tensors IsOutput accepts
    | NonOutputs                     // every tensor but those
    | NonOutputsBelow(n: int)        // non-output tensors of the variants before n
    | Variant(n: int)                // every tensor of variant n
    | Just(t: Tensor)                // one tensor
    | VariantBut(n: int, t: Tensor)  // every tensor of variant n except t

  predicate InRegion(t: Tensor, r: Region)
  {
    match r
    case Nothing => false
    case Everything => true
    case Outputs => IsOutput(t)
    case NonOutputs => !IsOutput(t)
    case NonOutputsBelow(n) => Stamp(t) < n && !IsOutput(t)
    case Variant(n) => Stamp(t) == n
    case Just(u) => t == u
    case VariantBut(n, u) => Stamp(t) == n && t != u
  }

  ghost predicate Subregion(r1: Region, r2: Region)
  {
    forall t :: InRegion(t, r1) ==> InRegion(t, r2)
  }

  ghost predicate Disjoint(r1: Region, r2: Region)
  {
    forall t :: InRegion(t, r1) ==> !InRegion(t, r2)
  }

  /** `op` releases nothing outside `r`. */
  predicate OpReleasesOnly(op: Op, r: Region)
  {
    op.Release? ==> InRegion(op.t, r)
  }

  /** `op` reads and writes nothing outside `r`. */
  ghost predicate OpTouchesOnly(op: Op, r: Region)
  {
    forall t :: Touches(op, t) ==> InRegion(t, r)
  }

  /** Every tensor `s` releases lies in `r`; with `Nothing`, `s` releases nothing. */
  ghost predicate ReleasesOnly(s: seq<Op>, r: Region)
  {
    forall i :: 0 <= i < |s| ==> OpReleasesOnly(At(s, i), r)
  }

  /** Every tensor `s` reads or writes lies in `r`. */
  ghost predicate TouchesOnly(s: seq<Op>, r: Region)
  {
    forall i :: 0 <= i < |s| ==> OpTouchesOnly(At(s, i), r)
  }

  /** `s` consists of releases alone. */
  ghost predicate AllReleases(s: seq<Op>)
  {
    forall i :: 0 <= i < |s| ==> At(s, i).Release?
  }

  // ----- from the members of a short trace to the trace -----

  lemma MembersReleaseOnly(s: seq<Op>, r: Region)
    requires forall op :: op in s ==> OpReleasesOnly(op, r)
    ensures ReleasesOnly(s, r)
  {
    forall i | 0 <= i < |s|
      ensures OpReleasesOnly(At(s, i), r)
    {
      AtIndex(s, i);
      assert s[i] in s;
    }
  }

  lemma MembersTouchOnly(s: seq<Op>, r: Region)
    requires forall op :: op in s ==> OpTouchesOnly(op, r)
    ensures TouchesOnly(s, r)
  {
    forall i | 0 <= i < |s|
      ensures OpTouchesOnly(At(s, i), r)
    {
      AtIndex(s, i);
      assert s[i] in s;
    }
  }

  lemma MembersAreReleases(s: seq<Op>)
    requires forall op :: op in s ==> op.Release?
    ensures AllReleases(s)
  {
    forall i | 0 <= i < |s|
      ensures At(s, i).Release?
    {
      AtIndex(s, i);
      assert s[i] in s;
    }
  }

  // ----- composition -----

  /**
    Sequencing two safe traces stays safe when nothing the first releases is
    touched by the second.
   */
  lemma SafeAppend(a: seq<Op>, b: seq<Op>, released: Region, touched: Region)
    requires ReleaseSafe(a) && ReleaseSafe(b)
    requires ReleasesOnly(a, released) && TouchesOnly(b, touched)
    requires Disjoint(released, touched)
    ensures ReleaseSafe(a + b)
  {
    var tr := a + b;
    forall i, j | 0 <= i < j < |tr|
      ensures NotAfterRelease(At(tr, i), At(tr, j))
    {
      AtAppend(a, b, i);
      AtAppend(a, b, j);
      if i < |a| <= j {
        assert OpReleasesOnly(At(a, i), released);
        assert OpTouchesOnly(At(b, j - |a|), touched);
      }
    }
  }

  lemma ReleasesOnlyAppend(a: seq<Op>, b: seq<Op>, r: Region)
    requires ReleasesOnly(a, r) && ReleasesOnly(b, r)
    ensures ReleasesOnly(a + b, r)
  {
    forall i | 0 <= i < |a + b|
      ensures OpReleasesOnly(At(a + b, i), r)
    {
      AtAppend(a, b, i);
    }
  }

  lemma TouchesOnlyAppend(a: seq<Op>, b: seq<Op>, r: Region)
    requires TouchesOnly(a, r) && TouchesOnly(b, r)
    ensures TouchesOnly(a + b, r)
  {
    forall i | 0 <= i < |a + b|
      ensures OpTouchesOnly(At(a + b, i), r)
    {
      AtAppend(a, b, i);
    }
  }

  lemma ReleasesOnlyWeaken(s: seq<Op>, r1: Region, r2: Region)
    requires ReleasesOnly(s, r1) && Subregion(r1, r2)
    ensures ReleasesOnly(s, r2)
  {
    forall i | 0 <= i < |s|
      ensures OpReleasesOnly(At(s, i), r2)
    {
      assert OpReleasesOnly(At(s, i), r1);
    }
  }

  lemma TouchesOnlyWeaken(s: seq<Op>, r1: Region, r2: Region)
    requires TouchesOnly(s, r1) && Subregion(r1, r2)
    ensures TouchesOnly(s, r2)
  {
    forall i | 0 <= i < |s|
      ensures OpTouchesOnly(At(s, i), r2)
    {
      assert OpTouchesOnly(At(s, i), r1);
    }
  }

  /** A trace without releases is safe. */
  lemma NoReleasesSafe(s: seq<Op>)
    requires ReleasesOnly(s, Nothing)
    ensures ReleaseSafe(s)
  {
    forall i, j | 0 <= i < j < |s|
      ensures NotAfterRelease(At(s, i), At(s, j))
    {
      assert OpReleasesOnly(At(s, i), Nothing);
    }
  }

  /** A safe trace stays safe behind a prefix that releases nothing. */
  lemma SafeAfterNoReleases(a: seq<Op>, b: seq<Op>)
    requires ReleasesOnly(a, Nothing) && ReleaseSafe(b)
    ensures ReleaseSafe(a + b)
  {
    NoReleasesSafe(a);
    forall i | 0 <= i < |b|
      ensures OpTouchesOnly(At(b, i), Everything)
    {
    }
    SafeAppend(a, b, Nothing, Everything);
  }

  /** A run of releases is safe and touches nothing: a release neither reads nor writes. */
  lemma AllReleasesSafe(s: seq<Op>)
    requires AllReleases(s)
    ensures ReleaseSafe(s)
    ensures TouchesOnly(s, Nothing)
  {
    forall i | 0 <= i < |s|
      ensures OpTouchesOnly(At(s, i), Nothing)
    {
      assert At(s, i).Release?;
    }
  }

  // ----- the pieces before the fusion loop release nothing -----

  lemma {:induction false} FlowLoopReleasesNothing(uhd: bool, d: Dir, n: nat)
    ensures ReleasesOnly(FlowLoop(uhd, d, n), Nothing)
  {
    if n > 0 {
      FlowLoopReleasesNothing(uhd, d, n - 1);
      MembersReleaseOnly(FlowStep(uhd, n - 1, d), Nothing);
      ReleasesOnlyAppend(FlowLoop(uhd, d, n - 1), FlowStep(uhd, n - 1, d), Nothing);
    }
  }

  lemma {:induction false} MergeFlowLoopReleasesNothing(n: nat)
    ensures ReleasesOnly(MergeFlowLoop(n), Nothing)
  {
    if n > 0 {
      MergeFlowLoopReleasesNothing(n - 1);
      MembersReleaseOnly([MergeFlow(n - 1)], Nothing);
      ReleasesOnlyAppend(MergeFlowLoop(n - 1), [MergeFlow(n - 1)], Nothing);
    }
  }

  lemma {:induction false} SliceLoopReleasesNothing(n: nat)
    ensures ReleasesOnly(SliceLoop(n), Nothing)
  {
    if n > 0 {
      SliceLoopReleasesNothing(n - 1);
      MembersReleaseOnly([SliceFlow(n - 1)], Nothing);
      ReleasesOnlyAppend(SliceLoop(n - 1), [SliceFlow(n - 1)], Nothing);
    }
  }

  /** The uploads and everything the TTA branch records before its fusion loop release nothing. */
  lemma TtaPrefixReleasesNothing(cfg: Config, wPadded: int, hPadded: int)
    ensures ReleasesOnly(Uploads() + TtaPrefix(cfg, wPadded, hPadded), Nothing)
  {
    FlowLoopReleasesNothing(cfg.uhd, Forward, 8);
    FlowLoopReleasesNothing(cfg.uhd, Reversed, 8);
    MergeFlowLoopReleasesNothing(8);
    SliceLoopReleasesNothing(8);
    var reversed := if cfg.temporal then FlowLoop(cfg.uhd, Reversed, 8) else [];
    var average := [Dispatch(FlowTtaAvg, TtaFlows(Forward), TtaFlows(Forward))];
    var merged := if cfg.temporal then [Dispatch(FlowTtaAvg, TtaFlows(Reversed), TtaFlows(Reversed))] + MergeFlowLoop(8) else [];
    MembersReleaseOnly(Uploads(), Nothing);
    MembersReleaseOnly(TtaPreprocess(wPadded, hPadded), Nothing);
    MembersReleaseOnly(average, Nothing);
    MembersReleaseOnly([Dispatch(FlowTtaAvg, TtaFlows(Reversed), TtaFlows(Reversed))], Nothing);
    ReleasesOnlyAppend([Dispatch(FlowTtaAvg, TtaFlows(Reversed), TtaFlows(Reversed))], MergeFlowLoop(8), Nothing);
    ReleasesOnlyAppend(FlowLoop(cfg.uhd, Forward, 8), reversed, Nothing);
    ReleasesOnlyAppend(average, merged, Nothing);
    ReleasesOnlyAppend(TtaPreprocess(wPadded, hPadded), TtaFlowPasses(cfg), Nothing);
    ReleasesOnlyAppend(TtaPreprocess(wPadded, hPadded) + TtaFlowPasses(cfg), TtaFlowAverage(cfg), Nothing);
    ReleasesOnlyAppend(TtaPreprocess(wPadded, hPadded) + TtaFlowPasses(cfg) + TtaFlowAverage(cfg), TtaSlices(cfg), Nothing);
    ReleasesOnlyAppend(Uploads(), TtaPrefix(cfg, wPadded, hPadded), Nothing);
  }

  /** The uploads and everything the plain branch records before its fusion release nothing. */
  lemma PlainPrefixReleasesNothing(cfg: Config, wPadded: int, hPadded: int)
    ensures ReleasesOnly(Uploads() + PlainPrefix(cfg, wPadded, hPadded), Nothing)
  {
    var preproc := PreprocPlain(Frame0, wPadded, hPadded) + PreprocPlain(Frame1, wPadded, hPadded);
    var reversed := if cfg.temporal then FlowStep(cfg.uhd, 0, Reversed) + [MergeFlow(0)] else [];
    var sliced := if cfg.v2 then [SliceFlow(0)] else [];
    MembersReleaseOnly(Uploads(), Nothing);
    MembersReleaseOnly(preproc, Nothing);
    MembersReleaseOnly(FlowStep(cfg.uhd, 0, Forward), Nothing);
    MembersReleaseOnly(reversed, Nothing);
    MembersReleaseOnly(sliced, Nothing);
    ContextStepShape(cfg.v2, 0);
    ReleasesOnlyAppend(preproc, FlowStep(cfg.uhd, 0, Forward), Nothing);
    ReleasesOnlyAppend(preproc + FlowStep(cfg.uhd, 0, Forward), reversed, Nothing);
    ReleasesOnlyAppend(preproc + FlowStep(cfg.uhd, 0, Forward) + reversed, sliced, Nothing);
    ReleasesOnlyAppend(preproc + FlowStep(cfg.uhd, 0, Forward) + reversed + sliced, ContextStep(cfg.v2, 0), Nothing);
    ReleasesOnlyAppend(Uploads(), PlainPrefix(cfg, wPadded, hPadded), Nothing);
  }

  // ----- the two contextnet and the fusionnet evaluations of one variant -----

  /** The two contextnet evaluations of variant `v` release nothing and touch only variant `v`. */
  lemma ContextStepShape(v2: bool, v: nat)
    ensures ReleasesOnly(ContextStep(v2, v), Nothing)
    ensures TouchesOnly(ContextStep(v2, v), Variant(v))
  {
    MembersReleaseOnly(ContextStep(v2, v), Nothing);
    MembersTouchOnly(ContextStep(v2, v), Variant(v));
  }

  /** The feed of a fusionnet evaluation of variant `v` touches variant `v`, and no forward flow when reversed. */
  lemma FusionFeedShape(v: nat, d: Dir)
    ensures TouchesOnly([Feed(FusionNet, FusionInputs(v, d))], Variant(v))
    ensures d == Reversed ==> TouchesOnly([Feed(FusionNet, FusionInputs(v, d))], VariantBut(v, Flow(v)))
  {
    MembersTouchOnly([Feed(FusionNet, FusionInputs(v, d))], Variant(v));
    if d == Reversed {
      ReversedFeedShape(v);
    }
  }

  /** The reversed feed binds the reversed flow, never the forward one. */
  lemma ReversedFeedShape(v: nat)
    ensures TouchesOnly([Feed(FusionNet, FusionInputs(v, Reversed))], VariantBut(v, Flow(v)))
  {
    MembersTouchOnly([Feed(FusionNet, FusionInputs(v, Reversed))], VariantBut(v, Flow(v)));
  }

  /** The extract of a fusionnet evaluation writes the output of variant `v` alone. */
  lemma FusionExtractShape(v: nat, d: Dir)
    ensures TouchesOnly([Extract(FusionNet, [Binding(OutputBlob, FusionOutput(v, d))])], Outputs)
    ensures TouchesOnly([Extract(FusionNet, [Binding(OutputBlob, FusionOutput(v, d))])], VariantBut(v, Flow(v)))
  {
    MembersTouchOnly([Extract(FusionNet, [Binding(OutputBlob, FusionOutput(v, d))])], Outputs);
    MembersTouchOnly([Extract(FusionNet, [Binding(OutputBlob, FusionOutput(v, d))])], VariantBut(v, Flow(v)));
  }

  /**
    A fusionnet evaluation whose in-between releases free only non-output
    tensors in `r` is safe: the inputs are read at the feed, before any of those
    releases, and the extract afterwards writes only the output.
   */
  lemma FusionShape(v: nat, d: Dir, releases: seq<Op>, r: Region)
    requires AllReleases(releases) && ReleasesOnly(releases, r) && Subregion(r, NonOutputs)
    ensures ReleaseSafe(Fusion(v, d, releases))
    ensures ReleasesOnly(Fusion(v, d, releases), r)
    ensures TouchesOnly(Fusion(v, d, releases), Variant(v))
    ensures d == Reversed ==> TouchesOnly(Fusion(v, d, releases), VariantBut(v, Flow(v)))
  {
    var feed := [Feed(FusionNet, FusionInputs(v, d))];
    var extract := [Extract(FusionNet, [Binding(OutputBlob, FusionOutput(v, d))])];
    FusionFeedShape(v, d);
    FusionExtractShape(v, d);
    AllReleasesSafe(releases);
    MembersReleaseOnly(feed, Nothing);
    MembersReleaseOnly(extract, Nothing);
    SafeAfterNoReleases(feed, releases);
    ReleasesOnlyAppend(feed, releases, r);
    ReleasesOnlyWeaken(feed + releases, r, NonOutputs);
    NoReleasesSafe(extract);
    SafeAppend(feed + releases, extract, NonOutputs, Outputs);
    ReleasesOnlyAppend(feed + releases, extract, r);
    TouchesOnlyWeaken(releases, Nothing, Variant(v));
    TouchesOnlyWeaken(extract, VariantBut(v, Flow(v)), Variant(v));
    TouchesOnlyAppend(feed, releases, Variant(v));
    TouchesOnlyAppend(feed + releases, extract, Variant(v));
    if d == Reversed {
      TouchesOnlyWeaken(releases, Nothing, VariantBut(v, Flow(v)));
      TouchesOnlyAppend(feed, releases, VariantBut(v, Flow(v)));
      TouchesOnlyAppend(feed + releases, extract, VariantBut(v, Flow(v)));
    }
  }

  /** The temporal merge of the two outputs of variant `v`. */
  lemma MergeOutputShape(v: nat)
    ensures ReleaseSafe([MergeOutput(v)]) && ReleasesOnly([MergeOutput(v)], Nothing)
    ensures TouchesOnly([MergeOutput(v)], Outputs)
    ensures TouchesOnly([MergeOutput(v)], VariantBut(v, Flow(v)))
  {
    MembersReleaseOnly([MergeOutput(v)], Nothing);
    MembersTouchOnly([MergeOutput(v)], Outputs);
    MembersTouchOnly([MergeOutput(v)], VariantBut(v, Flow(v)));
    NoReleasesSafe([MergeOutput(v)]);
  }

  /** A reversed fusion followed by the temporal merge of its output. */
  lemma ReversedFusionShape(v: nat, releases: seq<Op>, r: Region)
    requires AllReleases(releases) && ReleasesOnly(releases, r) && Subregion(r, NonOutputs)
    ensures ReleaseSafe(Fusion(v, Reversed, releases) + [MergeOutput(v)])
    ensures ReleasesOnly(Fusion(v, Reversed, releases) + [MergeOutput(v)], r)
    ensures TouchesOnly(Fusion(v, Reversed, releases) + [MergeOutput(v)], VariantBut(v, Flow(v)))
  {
    var fusion := Fusion(v, Reversed, releases);
    FusionShape(v, Reversed, releases, r);
    MergeOutputShape(v);
    ReleasesOnlyWeaken(fusion, r, NonOutputs);
    SafeAppend(fusion, [MergeOutput(v)], NonOutputs, Outputs);
    ReleasesOnlyWeaken([MergeOutput(v)], Nothing, r);
    ReleasesOnlyAppend(fusion, [MergeOutput(v)], r);
    TouchesOnlyAppend(fusion, [MergeOutput(v)], VariantBut(v, Flow(v)));
  }

  // ----- the TTA fusion loop -----

  /** The releases of the forward fusion of TTA variant `v`. */
  lemma TtaForwardReleasesShape(temporal: bool, v: nat)
    ensures AllReleases(TtaForwardReleases(temporal, v))
    ensures ReleasesOnly(TtaForwardReleases(temporal, v), if temporal then NonOutputsBelow(v) else NonOutputsBelow(v + 1))
  {
    MembersAreReleases(TtaForwardReleases(temporal, v));
    MembersReleaseOnly(TtaForwardReleases(temporal, v), if temporal then NonOutputsBelow(v) else NonOutputsBelow(v + 1));
  }

  /** The releases of the reversed fusion of TTA variant `v`. */
  lemma TtaReversedReleasesShape(v: nat)
    ensures AllReleases(TtaReversedReleases(v))
    ensures ReleasesOnly(TtaReversedReleases(v), NonOutputsBelow(v + 1))
  {
    MembersAreReleases(TtaReversedReleases(v));
    MembersReleaseOnly(TtaReversedReleases(v), NonOutputsBelow(v + 1));
  }

  /**
    One iteration `v` of the TTA fusion loop is safe on its own, releases only
    non-output tensors of variants up to `v`, and touches only variant `v`.
   */
  lemma TtaFusionStepSafe(cfg: Config, v: nat)
    ensures ReleaseSafe(TtaFusionStep(cfg, v))
    ensures ReleasesOnly(TtaFusionStep(cfg, v), NonOutputsBelow(v + 1))
    ensures TouchesOnly(TtaFusionStep(cfg, v), Variant(v))
  {
    var context := ContextStep(cfg.v2, v);
    var forwardReleases := TtaForwardReleases(cfg.temporal, v);
    var forward := Fusion(v, Forward, forwardReleases);
    var forwardRegion := if cfg.temporal then NonOutputsBelow(v) else NonOutputsBelow(v + 1);
    ContextStepShape(cfg.v2, v);
    TtaForwardReleasesShape(cfg.temporal, v);
    FusionShape(v, Forward, forwardReleases, forwardRegion);
    SafeAfterNoReleases(context, forward);
    ReleasesOnlyWeaken(context, Nothing, forwardRegion);
    ReleasesOnlyAppend(context, forward, forwardRegion);
    TouchesOnlyAppend(context, forward, Variant(v));
    if cfg.temporal {
      var reversed := Fusion(v, Reversed, TtaReversedReleases(v)) + [MergeOutput(v)];
      TtaReversedReleasesShape(v);
      ReversedFusionShape(v, TtaReversedReleases(v), NonOutputsBelow(v + 1));
      SafeAppend(context + forward, reversed, NonOutputsBelow(v), Variant(v));
      ReleasesOnlyWeaken(context + forward, NonOutputsBelow(v), NonOutputsBelow(v + 1));
      ReleasesOnlyAppend(context + forward, reversed, NonOutputsBelow(v + 1));
      TouchesOnlyWeaken(reversed, VariantBut(v, Flow(v)), Variant(v));
      TouchesOnlyAppend(context + forward, reversed, Variant(v));
      assert TtaFusionStep(cfg, v) == context + forward + reversed;
    } else {
      assert TtaFusionStep(cfg, v) == context + forward + [];
      assert context + forward + [] == context + forward;
    }
  }

  /**
    The first `n` iterations of the TTA fusion loop are safe and release only
    non-output tensors of the variants before `n`.
   */
  lemma {:induction false} TtaFusionLoopSafe(cfg: Config, n: nat)
    ensures ReleaseSafe(TtaFusionLoop(cfg, n))
    ensures ReleasesOnly(TtaFusionLoop(cfg, n), NonOutputsBelow(n))
  {
    if n == 0 {
      NoReleasesSafe([]);
    } else {
      TtaFusionLoopSafe(cfg, n - 1);
      TtaFusionLoopExtend(cfg, n);
    }
  }

  /** The induction step of `TtaFusionLoopSafe`: one more variant keeps the loop safe. */
  lemma TtaFusionLoopExtend(cfg: Config, n: nat)
    requires n > 0
    requires ReleaseSafe(TtaFusionLoop(cfg, n - 1)) && ReleasesOnly(TtaFusionLoop(cfg, n - 1), NonOutputsBelow(n - 1))
    ensures ReleaseSafe(TtaFusionLoop(cfg, n)) && ReleasesOnly(TtaFusionLoop(cfg, n), NonOutputsBelow(n))
  {
    TtaFusionStepSafe(cfg, n - 1);
    ExtendLoopSafe(TtaFusionLoop(cfg, n - 1), TtaFusionStep(cfg, n - 1), n - 1);
  }

  /** Appending a step that releases only below `v + 1` and touches only variant `v`. */
  lemma ExtendLoopSafe(loop: seq<Op>, step: seq<Op>, v: int)
    requires ReleaseSafe(loop) && ReleasesOnly(loop, NonOutputsBelow(v))
    requires ReleaseSafe(step) && ReleasesOnly(step, NonOutputsBelow(v + 1)) && TouchesOnly(step, Variant(v))
    ensures ReleaseSafe(loop + step) && ReleasesOnly(loop + step, NonOutputsBelow(v + 1))
  {
    SafeAppend(loop, step, NonOutputsBelow(v), Variant(v));
    ReleasesOnlyWeaken(loop, NonOutputsBelow(v), NonOutputsBelow(v + 1));
    ReleasesOnlyAppend(loop, step, NonOutputsBelow(v + 1));
  }

  // ----- the plain fusion -----

  /**
    The fusion of the branch without TTA. Without temporal augmentation the
    forward fusion frees the uploads, the contexts and the flow; with it, the
    forward fusion frees only the flow, which the reversed fusion and the merge
    never touch.
   */
  lemma PlainFusionSafe(cfg: Config)
    ensures ReleaseSafe(PlainFusion(cfg))
    ensures ReleasesOnly(PlainFusion(cfg), NonOutputs)
  {
    var forwardReleases := (if !cfg.temporal then UploadReleases() + ContextReleases(0) else []) + [Release(Flow(0))];
    var forward := Fusion(0, Forward, forwardReleases);
    MembersAreReleases(forwardReleases);
    MembersReleaseOnly(forwardReleases, NonOutputs);
    FusionShape(0, Forward, forwardReleases, NonOutputs);
    if cfg.temporal {
      var reversedReleases := UploadReleases() + ContextReleases(0) + [Release(FlowReversed(0))];
      var reversed := Fusion(0, Reversed, reversedReleases) + [MergeOutput(0)];
      MembersAreReleases(reversedReleases);
      MembersReleaseOnly(reversedReleases, NonOutputs);
      assert forwardReleases == [Release(Flow(0))];
      MembersReleaseOnly(forwardReleases, Just(Flow(0)));
      FusionShape(0, Forward, forwardReleases, Just(Flow(0)));
      ReversedFusionShape(0, reversedReleases, NonOutputs);
      SafeAppend(forward, reversed, Just(Flow(0)), VariantBut(0, Flow(0)));
      ReleasesOnlyAppend(forward, reversed, NonOutputs);
      assert PlainFusion(cfg) == forward + reversed;
    } else {
      assert PlainFusion(cfg) == forward + [];
      assert forward + [] == forward;
    }
  }

  // ----- one whole call -----

  /** The postprocess and the download touch only the outputs and release nothing. */
  lemma OutputStageShape(outs: seq<Tensor>, w: int, h: int)
    requires forall t :: t in outs ==> IsOutput(t)
    ensures ReleasesOnly(Postprocess(outs, w, h) + DownloadAndSubmit(), Nothing)
    ensures TouchesOnly(Postprocess(outs, w, h) + DownloadAndSubmit(), Outputs)
    ensures ReleaseSafe(Postprocess(outs, w, h) + DownloadAndSubmit())
  {
    MembersReleaseOnly(Postprocess(outs, w, h) + DownloadAndSubmit(), Nothing);
    MembersTouchOnly(Postprocess(outs, w, h) + DownloadAndSubmit(), Outputs);
    NoReleasesSafe(Postprocess(outs, w, h) + DownloadAndSubmit());
  }

  /** Safety of `prefix + middle + tail` when only `middle` releases, and only non-outputs. */
  lemma ThreeStageSafe(prefix: seq<Op>, middle: seq<Op>, tail: seq<Op>)
    requires ReleasesOnly(prefix, Nothing)
    requires ReleaseSafe(middle) && ReleasesOnly(middle, NonOutputs)
    requires ReleaseSafe(tail) && TouchesOnly(tail, Outputs)
    ensures ReleaseSafe(prefix + middle + tail)
  {
    SafeAfterNoReleases(prefix, middle);
    ReleasesOnlyWeaken(prefix, Nothing, NonOutputs);
    ReleasesOnlyAppend(prefix, middle, NonOutputs);
    SafeAppend(prefix + middle, tail, NonOutputs, Outputs);
  }

  /** The eight padded outputs the TTA postprocess reads. */
  function TtaOutputs(): seq<Tensor>
  {
    [OutPadded(0), OutPadded(1), OutPadded(2), OutPadded(3),
     OutPadded(4), OutPadded(5), OutPadded(6), OutPadded(7)]
  }

  /** A TTA call regrouped into the part before the fusion loop, the loop, and the output stage. */
  lemma TtaCallStages(cfg: Config, w: nat, h: nat)
    requires cfg.tta
    ensures LegacyCommands(cfg, w, h)
            == (Uploads() + TtaPrefix(cfg, PaddedSize(w, LegacyAlignment), PaddedSize(h, LegacyAlignment)))
               + TtaFusionLoop(cfg, 8)
               + (Postprocess(TtaOutputs(), w, h) + DownloadAndSubmit())
  {
  }

  /** A plain call regrouped the same way. */
  lemma PlainCallStages(cfg: Config, w: nat, h: nat)
    requires !cfg.tta
    ensures LegacyCommands(cfg, w, h)
            == (Uploads() + PlainPrefix(cfg, PaddedSize(w, LegacyAlignment), PaddedSize(h, LegacyAlignment)))
               + PlainFusion(cfg)
               + (Postprocess([OutPadded(0)], w, h) + DownloadAndSubmit())
  {
  }

  /** The TTA branch of one legacy call is release-safe. */
  lemma TtaCallSafe(cfg: Config, w: nat, h: nat)
    requires !cfg.v4 && cfg.tta
    ensures ReleaseSafe(LegacyCommands(cfg, w, h))
  {
    var wPadded, hPadded := PaddedSize(w, LegacyAlignment), PaddedSize(h, LegacyAlignment);
    TtaPrefixReleasesNothing(cfg, wPadded, hPadded);
    TtaFusionLoopSafe(cfg, 8);
    ReleasesOnlyWeaken(TtaFusionLoop(cfg, 8), NonOutputsBelow(8), NonOutputs);
    OutputStageShape(TtaOutputs(), w, h);
    ThreeStageSafe(Uploads() + TtaPrefix(cfg, wPadded, hPadded), TtaFusionLoop(cfg, 8),
                   Postprocess(TtaOutputs(), w, h) + DownloadAndSubmit());
    TtaCallStages(cfg, w, h);
  }

  /** The plain branch of one legacy call is release-safe. */
  lemma PlainCallSafe(cfg: Config, w: nat, h: nat)
    requires !cfg.v4 && !cfg.tta
    ensures ReleaseSafe(LegacyCommands(cfg, w, h))
  {
    var wPadded, hPadded := PaddedSize(w, LegacyAlignment), PaddedSize(h, LegacyAlignment);
    PlainPrefixReleasesNothing(cfg, wPadded, hPadded);
    PlainFusionSafe(cfg);
    OutputStageShape([OutPadded(0)], w, h);
    ThreeStageSafe(Uploads() + PlainPrefix(cfg, wPadded, hPadded), PlainFusion(cfg),
                   Postprocess([OutPadded(0)], w, h) + DownloadAndSubmit());
    PlainCallStages(cfg, w, h);
  }

  /** `process_v4` records no release at all. */
  lemma V4ReleasesNothing(padding: nat, w: nat, h: nat, timestep: real)
    requires padding > 0
    ensures ReleasesOnly(V4Commands(padding, w, h, timestep), Nothing)
  {
    MembersReleaseOnly(V4Commands(padding, w, h, timestep), Nothing);
  }

  /**
    In every configuration, no tensor that one call of `RIFE::process` releases
    is read or written by a later operation of that call.
   */
  lemma ProcessReleaseSafe(cfg: Config, w: nat, h: nat, timestep: real)
    requires cfg.v4 ==> cfg.padding > 0
    ensures ReleaseSafe(ProcessCommands(cfg, w, h, timestep))
  {
    if cfg.v4 {
      V4ReleasesNothing(cfg.padding, w, h, timestep);
      NoReleasesSafe(V4Commands(cfg.padding, w, h, timestep));
    } else if cfg.tta {
      TtaCallSafe(cfg, w, h);
    } else {
      PlainCallSafe(cfg, w, h);
    }
  }
}
