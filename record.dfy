/**
  The `ti` loops of `RIFE::process`: the command buffer `cmd` is a local
  sequence each iteration appends to.
 */
module Record {

  import opened Commands

  /** The `ti` loop of flownet evaluations in direction `d` over the eight TTA variants. */
  method RecordFlowLoop(uhd: bool, d: Dir) returns (cmd: seq<Op>)
    ensures cmd == FlowLoop(uhd, d, 8)
  {
    cmd := [];
    for ti := 0 to 8
      invariant cmd == FlowLoop(uhd, d, ti)
    {
      cmd := cmd + FlowStep(uhd, ti, d);
    }
  }

  /** The `ti` loop merging each forward flow with its reversed flow. */
  method RecordMergeLoop() returns (cmd: seq<Op>)
    ensures cmd == MergeFlowLoop(8)
  {
    cmd := [];
    for ti := 0 to 8
      invariant cmd == MergeFlowLoop(ti)
    {
      cmd := cmd + [MergeFlow(ti)];
    }
  }

  /** The v2 `ti` loop slicing each flow into its two halves. */
  method RecordSliceLoop() returns (cmd: seq<Op>)
    ensures cmd == SliceLoop(8)
  {
    cmd := [];
    for ti := 0 to 8
      invariant cmd == SliceLoop(ti)
    {
      cmd := cmd + [SliceFlow(ti)];
    }
  }

  /**
    The TTA branch of `RIFE::process`, from preprocess to postprocess: the
    flownet loops, the flow averages and merges, the v2 slices and the fusion
    loop, each in the order the source records them.
   */
  method RecordTta(cfg: Config, w: int, h: int, wPadded: int, hPadded: int) returns (cmd: seq<Op>)
    ensures cmd == TtaCommands(cfg, w, h, wPadded, hPadded)
  {
    var passes := RecordFlowLoop(cfg.uhd, Forward);
    if cfg.temporal {
      var reversed := RecordFlowLoop(cfg.uhd, Reversed);
      passes := passes + reversed;
    }
    assert passes == TtaFlowPasses(cfg);
    var average := [Dispatch(FlowTtaAvg, TtaFlows(Forward), TtaFlows(Forward))];
    if cfg.temporal {
      var merges := RecordMergeLoop();
      average := average + ([Dispatch(FlowTtaAvg, TtaFlows(Reversed), TtaFlows(Reversed))] + merges);
    }
    assert average == TtaFlowAverage(cfg);
    var sliced: seq<Op> := [];
    if cfg.v2 {
      sliced := RecordSliceLoop();
    }
    var fusion: seq<Op> := [];
    for ti := 0 to 8
      invariant fusion == TtaFusionLoop(cfg, ti)
    {
      fusion := fusion + TtaFusionStep(cfg, ti);
    }
    cmd := TtaPreprocess(wPadded, hPadded) + passes + average + sliced + fusion
           + Postprocess([OutPadded(0), OutPadded(1), OutPadded(2), OutPadded(3),
                          OutPadded(4), OutPadded(5), OutPadded(6), OutPadded(7)], w, h);
  }
}
