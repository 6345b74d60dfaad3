/** The binary verdict shared by the consensus engine and the metrics store. */
module Verdicts {

  datatype Verdict = Real | Fake {

    /** The lower-case label the client stores and returns. */
    function Name(): (s: string)
      ensures s == "real" <==> Real?
      ensures s == "fake" <==> Fake?
    {
      if Real? then "real" else "fake"
    }
  }
}
