/**
  Which tensor each network input is bound to, the shapes of the TTA
  variants, and which tensors each iteration of the TTA fusion loop releases.
 */
module Wiring {

  import opened Common
  import opened Padding
  import opened Commands

  /** The tensor bound under port `p` (the first binding of that name), if any. */
  function Bound(bs: seq<Binding>, p: Port): (r: Option<Tensor>)
    ensures r.Some? ==> Binding(p, r.value) in bs
    ensures r.None? ==> forall b :: b in bs ==> b.port != p
  {
    if |bs| == 0 then None
    else if bs[0].port == p then Some(bs[0].t)
    else Bound(bs[1..], p)
  }

  /** The tensors `s` releases. */
  function Released(s: seq<Op>): set<Tensor>
  {
    set op | op in s && op.Release? :: op.t
  }

  // ----- contextnet conditioning -----

  /**
    Under v2 the contextnet of each frame is conditioned on that frame's own
    slice of the flow, under the port "flow.0" both times; otherwise both get
    the undivided `flow[v]`, frame 1 under "flow.1".
   */
  lemma ContextFlowWiring(v2: bool, v: nat)
    ensures |ContextStep(v2, v)| == 4
    ensures ContextStep(v2, v)[0].Feed? && ContextStep(v2, v)[0].net == ContextNet
    ensures ContextStep(v2, v)[2].Feed? && ContextStep(v2, v)[2].net == ContextNet
    ensures Bound(ContextStep(v2, v)[0].fed, InputDot1) == Some(Padded(Frame0, v))
    ensures Bound(ContextStep(v2, v)[2].fed, InputDot1) == Some(Padded(Frame1, v))
    ensures v2 ==> Bound(ContextStep(v2, v)[0].fed, FlowDot0) == Some(FlowSlice(Frame0, v))
    ensures v2 ==> Bound(ContextStep(v2, v)[2].fed, FlowDot0) == Some(FlowSlice(Frame1, v))
    ensures v2 ==> Bound(ContextStep(v2, v)[2].fed, FlowDot1) == None
    ensures !v2 ==> Bound(ContextStep(v2, v)[0].fed, FlowDot0) == Some(Flow(v))
    ensures !v2 ==> Bound(ContextStep(v2, v)[2].fed, FlowDot1) == Some(Flow(v))
    ensures !v2 ==> Bound(ContextStep(v2, v)[2].fed, FlowDot0) == None
  {
  }

  /** The v2 slice splits `flow[v]` into two distinct tensors, one per frame. */
  lemma SliceFlowSplits(v: nat)
    ensures Reads(SliceFlow(v)) == {Flow(v)}
    ensures Writes(SliceFlow(v)) == {FlowSlice(Frame0, v), FlowSlice(Frame1, v)}
    ensures FlowSlice(Frame0, v) != FlowSlice(Frame1, v)
  {
    assert Flow(v) in Reads(SliceFlow(v));
    assert FlowSlice(Frame0, v) in Writes(SliceFlow(v)) && FlowSlice(Frame1, v) in Writes(SliceFlow(v));
  }

  /** Under v2 every flow the fusion loop needs is sliced before the loop begins. */
  lemma SlicesPrecedeContexts(cfg: Config, wPadded: int, hPadded: int)
    requires cfg.v2
    ensures forall v :: 0 <= v < 8 ==> SliceFlow(v) in TtaPrefix(cfg, wPadded, hPadded)
  {
    forall v | 0 <= v < 8
      ensures SliceFlow(v) in TtaPrefix(cfg, wPadded, hPadded)
    {
      SliceInLoop(v, 8);
    }
  }

  lemma {:induction false} SliceInLoop(v: nat, n: nat)
    requires v < n
    ensures SliceFlow(v) in SliceLoop(n)
  {
    if v < n - 1 {
      SliceInLoop(v, n - 1);
    }
  }

  // ----- variant shapes -----

  /** Variants 0 to 3 keep the padded frame's shape; variants 4 to 7 are transposed. */
  lemma TtaVariantShapes(f: Frame, wPadded: int, hPadded: int)
    ensures forall v :: 0 <= v < 8 ==>
              Create(Padded(f, v), if v < 4 then wPadded else hPadded, if v < 4 then hPadded else wPadded, 3)
              in PreprocTta(f, wPadded, hPadded)
    ensures forall v :: 0 <= v < 8 ==> Padded(f, v) in Writes(PreprocTta(f, wPadded, hPadded)[8])
    ensures Reads(PreprocTta(f, wPadded, hPadded)[8]) == {Uploaded(f)}
  {
    var s := PreprocTta(f, wPadded, hPadded);
    forall v | 0 <= v < 8
      ensures Create(Padded(f, v), if v < 4 then wPadded else hPadded, if v < 4 then hPadded else wPadded, 3) in s
      ensures Padded(f, v) in Writes(s[8])
    {
      assert s[v] == Create(Padded(f, v), if v < 4 then wPadded else hPadded, if v < 4 then hPadded else wPadded, 3);
      assert s[8].outputs[v] == Padded(f, v);
    }
    assert Uploaded(f) in Reads(s[8]);
  }

  // ----- the v4 family -----

  /** The four operations through which `process_v4` runs its network. */
  function V4Evaluation(wPadded: int, hPadded: int, timestep: real): seq<Op>
  {
    [ Create(TimestepPadded, wPadded, hPadded, 1),
      Fill(V4Timestep, TimestepPadded, timestep),
      Feed(FlowNet, [Binding(In0, Padded(Frame0, 0)), Binding(In1, Padded(Frame1, 0)), Binding(In2, TimestepPadded)]),
      Extract(FlowNet, [Binding(Out0, OutPadded(0))]) ]
  }

  lemma V4Split(padding: nat, w: nat, h: nat, timestep: real)
    requires padding > 0
    ensures V4Commands(padding, w, h, timestep)
            == Uploads() + PreprocPlain(Frame0, PaddedSize(w, padding), PaddedSize(h, padding))
               + PreprocPlain(Frame1, PaddedSize(w, padding), PaddedSize(h, padding))
               + V4Evaluation(PaddedSize(w, padding), PaddedSize(h, padding), timestep)
               + (Postprocess([OutPadded(0)], w, h) + DownloadAndSubmit())
  {
  }

  lemma InMiddle(pre: seq<Op>, core: seq<Op>, post: seq<Op>, x: Op)
    requires x in core
    ensures x in pre + core + post
  {
    var k :| 0 <= k < |core| && core[k] == x;
    assert (pre + core + post)[|pre| + k] == x;
  }

  /**
    `process_v4` creates a one-channel timestep map of the padded size, has
    the timestep kernel fill it with the caller's `timestep`, and only then
    feeds flownet both padded frames and that map; it extracts one output.
   */
  lemma V4Wiring(padding: nat, w: nat, h: nat, timestep: real)
    requires padding > 0
    ensures Create(TimestepPadded, PaddedSize(w, padding), PaddedSize(h, padding), 1) in V4Commands(padding, w, h, timestep)
    ensures exists i, j, bs ::
              0 <= i < j < |V4Commands(padding, w, h, timestep)|
              && V4Commands(padding, w, h, timestep)[i] == Fill(V4Timestep, TimestepPadded, timestep)
              && V4Commands(padding, w, h, timestep)[j] == Feed(FlowNet, bs)
              && Bound(bs, In0) == Some(Padded(Frame0, 0))
              && Bound(bs, In1) == Some(Padded(Frame1, 0))
              && Bound(bs, In2) == Some(TimestepPadded)
    ensures Extract(FlowNet, [Binding(Out0, OutPadded(0))]) in V4Commands(padding, w, h, timestep)
  {
    var wPadded, hPadded := PaddedSize(w, padding), PaddedSize(h, padding);
    var pre := Uploads() + PreprocPlain(Frame0, wPadded, hPadded) + PreprocPlain(Frame1, wPadded, hPadded);
    var core := V4Evaluation(wPadded, hPadded, timestep);
    var post := Postprocess([OutPadded(0)], w, h) + DownloadAndSubmit();
    V4Split(padding, w, h, timestep);
    var cmd := V4Commands(padding, w, h, timestep);
    var bs := [Binding(In0, Padded(Frame0, 0)), Binding(In1, Padded(Frame1, 0)), Binding(In2, TimestepPadded)];
    assert Bound(bs, In2) == Some(TimestepPadded);
    InMiddle(pre, core, post, core[0]);
    InMiddle(pre, core, post, core[3]);
    assert cmd[|pre| + 1] == core[1] == Fill(V4Timestep, TimestepPadded, timestep);
    assert cmd[|pre| + 2] == core[2] == Feed(FlowNet, bs);
  }

  /**
    The map fed to flownet as "in2" holds the caller's timestep: the only
    operations of `process_v4` that write it are its creation and the fill.
   */
  lemma V4TimestepWriters(padding: nat, w: nat, h: nat, timestep: real)
    requires padding > 0
    ensures forall op :: op in V4Commands(padding, w, h, timestep) && TimestepPadded in Writes(op) ==>
              op == Create(TimestepPadded, PaddedSize(w, padding), PaddedSize(h, padding), 1)
              || op == Fill(V4Timestep, TimestepPadded, timestep)
  {
    var wPadded, hPadded := PaddedSize(w, padding), PaddedSize(h, padding);
    var pre := Uploads() + PreprocPlain(Frame0, wPadded, hPadded) + PreprocPlain(Frame1, wPadded, hPadded);
    var core := V4Evaluation(wPadded, hPadded, timestep);
    var post := Postprocess([OutPadded(0)], w, h) + DownloadAndSubmit();
    V4Split(padding, w, h, timestep);
    assert forall op :: op in pre + core + post ==> op in pre || op in core || op in post;
  }

  /** The legacy families never read the timestep: their trace is the same for every value. */
  lemma LegacyIgnoresTimestep(cfg: Config, w: nat, h: nat, t1: real, t2: real)
    requires !cfg.v4
    ensures ProcessCommands(cfg, w, h, t1) == ProcessCommands(cfg, w, h, t2) == LegacyCommands(cfg, w, h)
  {
  }

  /** Every extractor `process_v4` uses belongs to flownet: contextnet and fusionnet are never used. */
  lemma V4OnlyFlowNet(padding: nat, w: nat, h: nat, timestep: real)
    requires padding > 0
    ensures forall op :: op in V4Commands(padding, w, h, timestep) && (op.Feed? || op.Extract?) ==> op.net == FlowNet
  {
    var wPadded, hPadded := PaddedSize(w, padding), PaddedSize(h, padding);
    var pre := Uploads() + PreprocPlain(Frame0, wPadded, hPadded) + PreprocPlain(Frame1, wPadded, hPadded);
    var core := V4Evaluation(wPadded, hPadded, timestep);
    var post := Postprocess([OutPadded(0)], w, h) + DownloadAndSubmit();
    V4Split(padding, w, h, timestep);
    assert forall op :: op in pre + core + post ==> op in pre || op in core || op in post;
  }

  // ----- releases of the TTA fusion loop -----

  lemma ReleasedAppend(a: seq<Op>, b: seq<Op>)
    ensures Released(a + b) == Released(a) + Released(b)
  {
  }

  /** The eight context tensors of variant `v`. */
  function Contexts(v: nat): set<Tensor>
  {
    {Context(Frame0, v, 0), Context(Frame0, v, 1), Context(Frame0, v, 2), Context(Frame0, v, 3),
     Context(Frame1, v, 0), Context(Frame1, v, 1), Context(Frame1, v, 2), Context(Frame1, v, 3)}
  }

  lemma ContextReleasesReleased(v: nat)
    ensures Released(ContextReleases(v)) == Contexts(v)
  {
    var s := ContextReleases(v);
    assert forall k :: 0 <= k < 8 ==> s[k].Release?;
    assert Release(Context(Frame0, v, 0)) in s && Release(Context(Frame0, v, 1)) in s;
    assert Release(Context(Frame0, v, 2)) in s && Release(Context(Frame0, v, 3)) in s;
    assert Release(Context(Frame1, v, 0)) in s && Release(Context(Frame1, v, 1)) in s;
    assert Release(Context(Frame1, v, 2)) in s && Release(Context(Frame1, v, 3)) in s;
  }

  lemma InputReleasesReleased(v: nat)
    ensures Released(UploadReleases()) == {Uploaded(Frame0), Uploaded(Frame1)}
    ensures Released(PaddedReleases(v)) == {Padded(Frame0, v), Padded(Frame1, v)}
  {
    assert Release(Uploaded(Frame0)) in UploadReleases() && Release(Uploaded(Frame1)) in UploadReleases();
    assert Release(Padded(Frame0, v)) in PaddedReleases(v) && Release(Padded(Frame1, v)) in PaddedReleases(v);
  }

  /** The unpadded uploads at `ti = 0`, the padded inputs of the previous variant otherwise. */
  function InputsFreedAt(v: nat): set<Tensor>
  {
    if v == 0 then {Uploaded(Frame0), Uploaded(Frame1)} else {Padded(Frame0, v - 1), Padded(Frame1, v - 1)}
  }

  /** The flows of the previous variant that iteration `v` frees. */
  function FlowsFreedAt(temporal: bool, v: nat): set<Tensor>
  {
    if v == 0 then {} else if temporal then {Flow(v - 1), FlowReversed(v - 1)} else {Flow(v - 1)}
  }

  lemma ForwardReleased(temporal: bool, v: nat)
    ensures Released(TtaForwardReleases(temporal, v))
            == (if temporal then {} else InputsFreedAt(v) + Contexts(v)) + (if v != 0 then {Flow(v - 1)} else {})
  {
    var inputs := if v == 0 then UploadReleases() else PaddedReleases(v - 1);
    var tail := if v != 0 then [Release(Flow(v - 1))] else [];
    FlowReleaseReleased(v);
    if temporal {
      ReleasedAppend([], tail);
    } else {
      InputsAndContextsReleased(v);
      ReleasedAppend(inputs + ContextReleases(v), tail);
    }
  }

  /** The release of the previous variant's flow in the forward fusion frees just that flow. */
  lemma FlowReleaseReleased(v: nat)
    ensures Released(if v != 0 then [Release(Flow(v - 1))] else []) == if v != 0 then {Flow(v - 1)} else {}
  {
    if v != 0 {
      assert Release(Flow(v - 1)) in [Release(Flow(v - 1))];
    }
  }

  /** The input and context releases of iteration `v` free the inputs it no longer needs and its contexts. */
  lemma InputsAndContextsReleased(v: nat)
    ensures Released((if v == 0 then UploadReleases() else PaddedReleases(v - 1)) + ContextReleases(v))
            == InputsFreedAt(v) + Contexts(v)
  {
    InputReleasesReleased(if v == 0 then 0 else v - 1);
    ContextReleasesReleased(v);
    ReleasedAppend(if v == 0 then UploadReleases() else PaddedReleases(v - 1), ContextReleases(v));
  }

  lemma ReversedReleased(v: nat)
    ensures Released(TtaReversedReleases(v))
            == InputsFreedAt(v) + (if v == 0 then {} else {FlowReversed(v - 1)}) + Contexts(v)
  {
    InputReleasesReleased(if v == 0 then 0 else v - 1);
    ContextReleasesReleased(v);
    var single := [Release(FlowReversed(if v == 0 then 0 else v - 1))];
    assert Release(FlowReversed(if v == 0 then 0 else v - 1)) in single;
    ReleasedAppend(PaddedReleases(if v == 0 then 0 else v - 1), single);
    var inputs := if v == 0 then UploadReleases() else PaddedReleases(v - 1) + single;
    ReleasedAppend(inputs, ContextReleases(v));
  }

  lemma FusionReleased(v: nat, d: Dir, releases: seq<Op>)
    ensures Released(Fusion(v, d, releases)) == Released(releases)
  {
    var feed := [Feed(FusionNet, FusionInputs(v, d))];
    var extract := [Extract(FusionNet, [Binding(OutputBlob, FusionOutput(v, d))])];
    ReleasedAppend(feed, releases);
    ReleasedAppend(feed + releases, extract);
  }

  lemma ContextStepReleasesNothing(v2: bool, v: nat)
    ensures Released(ContextStep(v2, v)) == {}
  {
  }

  /** The releases of one TTA iteration are those recorded inside its fusions. */
  lemma TtaFusionStepReleasedParts(cfg: Config, v: nat)
    ensures Released(TtaFusionStep(cfg, v))
            == Released(TtaForwardReleases(cfg.temporal, v)) + (if cfg.temporal then Released(TtaReversedReleases(v)) else {})
  {
    var context := ContextStep(cfg.v2, v);
    var forward := Fusion(v, Forward, TtaForwardReleases(cfg.temporal, v));
    var reversed := if cfg.temporal then Fusion(v, Reversed, TtaReversedReleases(v)) + [MergeOutput(v)] else [];
    ContextStepReleasesNothing(cfg.v2, v);
    FusionReleased(v, Forward, TtaForwardReleases(cfg.temporal, v));
    FusionReleased(v, Reversed, TtaReversedReleases(v));
    ReleasedAppend(Fusion(v, Reversed, TtaReversedReleases(v)), [MergeOutput(v)]);
    assert Released([MergeOutput(v)]) == {};
    ReleasedAppend(context, forward);
    ReleasedAppend(context + forward, reversed);
  }

  /**
    Iteration `ti` of the TTA fusion loop frees the unpadded uploads when
    `ti = 0`, and otherwise the padded inputs and the flow (and, under temporal
    augmentation, the reversed flow) of variant `ti - 1`; it also frees its own
    eight context tensors. Nothing else is released.
   */
  lemma TtaFusionStepReleased(cfg: Config, v: nat)
    ensures Released(TtaFusionStep(cfg, v)) == InputsFreedAt(v) + FlowsFreedAt(cfg.temporal, v) + Contexts(v)
  {
    TtaFusionStepReleasedParts(cfg, v);
    ForwardReleased(cfg.temporal, v);
    ReversedReleased(v);
  }

  lemma PlainReleasesReleased(temporal: bool)
    ensures Released((if !temporal then UploadReleases() + ContextReleases(0) else []) + [Release(Flow(0))])
            == (if temporal then {} else {Uploaded(Frame0), Uploaded(Frame1)} + Contexts(0)) + {Flow(0)}
    ensures Released(UploadReleases() + ContextReleases(0) + [Release(FlowReversed(0))])
            == {Uploaded(Frame0), Uploaded(Frame1)} + Contexts(0) + {FlowReversed(0)}
  {
    InputReleasesReleased(0);
    ContextReleasesReleased(0);
    assert Released([Release(Flow(0))]) == {Flow(0)} by {
      assert Release(Flow(0)) in [Release(Flow(0))];
    }
    assert Released([Release(FlowReversed(0))]) == {FlowReversed(0)} by {
      assert Release(FlowReversed(0)) in [Release(FlowReversed(0))];
    }
    ReleasedAppend(UploadReleases(), ContextReleases(0));
    ReleasedAppend(if !temporal then UploadReleases() + ContextReleases(0) else [], [Release(Flow(0))]);
    ReleasedAppend(UploadReleases() + ContextReleases(0), [Release(FlowReversed(0))]);
  }

  /** The releases of the plain fusion are those recorded inside its one or two fusionnet evaluations. */
  lemma PlainFusionReleasedParts(cfg: Config)
    ensures Released(PlainFusion(cfg))
            == Released((if !cfg.temporal then UploadReleases() + ContextReleases(0) else []) + [Release(Flow(0))])
               + (if cfg.temporal then Released(UploadReleases() + ContextReleases(0) + [Release(FlowReversed(0))]) else {})
  {
    var forwardReleases := (if !cfg.temporal then UploadReleases() + ContextReleases(0) else []) + [Release(Flow(0))];
    var reversedReleases := UploadReleases() + ContextReleases(0) + [Release(FlowReversed(0))];
    FusionReleased(0, Forward, forwardReleases);
    FusionReleased(0, Reversed, reversedReleases);
    ReleasedAppend(Fusion(0, Reversed, reversedReleases), [MergeOutput(0)]);
    assert Released([MergeOutput(0)]) == {};
    ReleasedAppend(Fusion(0, Forward, forwardReleases),
                   if cfg.temporal then Fusion(0, Reversed, reversedReleases) + [MergeOutput(0)] else []);
  }

  /**
    The plain path frees the uploads, both context sets and the flow (and the
    reversed flow under temporal augmentation) during its fusion.
   */
  lemma PlainFusionReleased(cfg: Config)
    ensures Released(PlainFusion(cfg))
            == {Uploaded(Frame0), Uploaded(Frame1), Flow(0)} + Contexts(0)
               + (if cfg.temporal then {FlowReversed(0)} else {})
  {
    PlainFusionReleasedParts(cfg);
    PlainReleasesReleased(cfg.temporal);
    if cfg.temporal {
      PlainTemporalUnion();
    }
  }

  /** The set arithmetic of the temporal case of `PlainFusionReleased`. */
  lemma PlainTemporalUnion()
    ensures {} + {Flow(0)} + ({Uploaded(Frame0), Uploaded(Frame1)} + Contexts(0) + {FlowReversed(0)})
            == {Uploaded(Frame0), Uploaded(Frame1), Flow(0)} + Contexts(0) + {FlowReversed(0)}
  {
  }
}
