/**
 * The collaborators the driver core calls but that are not part of this
 * model: the pipeline layer (vsp2_pipeline_*), the media framework's link
 * creation and the VSPM library. Each call the core makes into them is
 * recorded, in order, in a CallLog, so that contracts can say which calls
 * an operation makes and how often.
 */
module Pipeline {

  datatype Call =
    /** vsp2_pipeline_propagate_alpha(pipe, rpf, alpha) */
    | PropagateAlpha(rpf: nat, alpha: nat)
    /** vsp2_pipeline_frame_end on the pipeline of write pipe `wpf` */
    | FrameEnd(wpf: nat)
    /** VSPM_lib_DriverInitialize, and the result it returned */
    | VspmInitialize(result: int)
    /** VSPM_lib_DriverQuit, and the result it returned */
    | VspmQuit(result: int)
    /** VSPM_lib_Entry with the given job priority, and the result it returned */
    | VspmEntry(jobPri: nat, result: int)

  class CallLog {
    var calls: seq<Call>

    constructor ()
      ensures calls == []
    {
      calls := [];
    }

    method Record(c: Call)
      modifies this
      ensures calls == old(calls) + [c]
    {
      calls := calls + [c];
    }
  }
}
