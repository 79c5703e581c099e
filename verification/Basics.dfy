/** Types that several modules share. */
module Basics {

  datatype Option<+T> = None | Some(value: T) {
    function GetOr(default: T): T {
      if Some? then value else default
    }
  }

  /** Why a model response ended: StopReason of packages/ai/src/types.ts. */
  datatype StopReason = Stop | Length | ToolUse | Error | Aborted
}
