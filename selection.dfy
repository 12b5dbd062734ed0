/**
  Which networks, compute pipelines and layers `RIFE::load` sets up for
  each combination of flags, and the shader each pipeline comes from.
 */
module Selection {

  import opened Commands

  /** The compiled shader module a pipeline is created from. */
  datatype Shader =
    | PreprocShader | PreprocTtaShader
    | PostprocShader | PostprocTtaShader
    | FlowTtaAvgShader | V2FlowTtaAvgShader
    | FlowTtaTemporalAvgShader | V2FlowTtaTemporalAvgShader
    | OutTtaTemporalAvgShader
    | V4TimestepShader

  /** `"%s/%s.param"` and `"%s/%s.bin"`: the two files of one network. */
  function ModelFiles(modelDir: string, name: string): seq<string>
  {
    [modelDir + "/" + name + ".param", modelDir + "/" + name + ".bin"]
  }

  /** The networks `load` reads: flownet always, contextnet and fusionnet unless v4. */
  function LoadedNets(v4: bool): set<Net>
  {
    {FlowNet} + (if v4 then {} else {ContextNet, FusionNet})
  }

  /** The files `load` opens, in order. */
  function NetFiles(modelDir: string, v4: bool): seq<string>
  {
    ModelFiles(modelDir, "flownet")
    + (if v4 then [] else ModelFiles(modelDir, "contextnet") + ModelFiles(modelDir, "fusionnet"))
  }

  /** The shader each kernel is compiled from, given the TTA and v2 flags. */
  function ShaderOf(k: Kernel, tta: bool, v2: bool): Shader
  {
    match k
    case Preproc => if tta then PreprocTtaShader else PreprocShader
    case Postproc => if tta then PostprocTtaShader else PostprocShader
    case FlowTtaAvg => if v2 then V2FlowTtaAvgShader else FlowTtaAvgShader
    case FlowTtaTemporalAvg => if v2 then V2FlowTtaTemporalAvgShader else FlowTtaTemporalAvgShader
    case OutTtaTemporalAvg => OutTtaTemporalAvgShader
    case V4Timestep => V4TimestepShader
  }

  /** Whether `load` builds kernel `k`. */
  predicate Builds(k: Kernel, device: bool, tta: bool, temporal: bool, v4: bool)
  {
    match k
    case Preproc => device
    case Postproc => device
    case FlowTtaAvg => device && tta
    case FlowTtaTemporalAvg => device && temporal
    case OutTtaTemporalAvg => device && temporal
    case V4Timestep => device && v4
  }

  /** The pipelines `load` builds, each with the shader it is compiled from. */
  function BuiltPipelines(device: bool, tta: bool, temporal: bool, v2: bool, v4: bool): map<Kernel, Shader>
  {
    map k: Kernel | Builds(k, device, tta, temporal, v4) :: ShaderOf(k, tta, v2)
  }

  /** The optional layers `load` creates: the three UHD layers under UHD mode, the slice layer under v2. */
  function CreatedLayers(uhd: bool, v2: bool): set<Layer>
  {
    (if uhd then {UhdDownscaleImage, UhdUpscaleFlow, UhdDoubleFlow} else {}) + (if v2 then {V2SliceFlow} else {})
  }

  /** flownet is always loaded; contextnet and fusionnet exactly when the model is not v4. */
  lemma NetSelection(v4: bool)
    ensures FlowNet in LoadedNets(v4)
    ensures ContextNet in LoadedNets(v4) <==> !v4
    ensures FusionNet in LoadedNets(v4) <==> !v4
    ensures |NetFiles("", v4)| == 2 * |LoadedNets(v4)|
  {
  }

  /**
    Without a device no pipeline is built; with one, each kernel's pipeline
    exists exactly under its flag, compiled from the shader the TTA and v2
    flags choose, and the temporal kernels never exist without temporal TTA.
   */
  lemma PipelineSelection(device: bool, tta: bool, temporal: bool, v2: bool, v4: bool)
    ensures !device ==> BuiltPipelines(device, tta, temporal, v2, v4) == map[]
    ensures device ==> Preproc in BuiltPipelines(device, tta, temporal, v2, v4)
                       && Postproc in BuiltPipelines(device, tta, temporal, v2, v4)
    ensures device ==> (FlowTtaAvg in BuiltPipelines(device, tta, temporal, v2, v4) <==> tta)
    ensures device ==> (V4Timestep in BuiltPipelines(device, tta, temporal, v2, v4) <==> v4)
    ensures !temporal ==> FlowTtaTemporalAvg !in BuiltPipelines(device, tta, temporal, v2, v4)
                          && OutTtaTemporalAvg !in BuiltPipelines(device, tta, temporal, v2, v4)
    ensures forall k :: k in BuiltPipelines(device, tta, temporal, v2, v4) ==>
              BuiltPipelines(device, tta, temporal, v2, v4)[k] == ShaderOf(k, tta, v2)
  {
    var m := BuiltPipelines(device, tta, temporal, v2, v4);
    if !device {
      assert forall k :: k !in m;
    } else {
      assert Preproc in m && Postproc in m;
      if tta {
        assert FlowTtaAvg in m;
      }
      if v4 {
        assert V4Timestep in m;
      }
    }
  }

  /** The UHD layers exist exactly under UHD mode and the slice layer exactly under v2. */
  lemma LayerSelection(uhd: bool, v2: bool)
    ensures UhdDownscaleImage in CreatedLayers(uhd, v2) <==> uhd
    ensures UhdUpscaleFlow in CreatedLayers(uhd, v2) <==> uhd
    ensures UhdDoubleFlow in CreatedLayers(uhd, v2) <==> uhd
    ensures V2SliceFlow in CreatedLayers(uhd, v2) <==> v2
  {
  }
}
