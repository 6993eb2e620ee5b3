/** The names of the fake-quant markers: an identity op per logical blob name (lbn),
    named after the lbn with its slashes turned into dashes. */
module MarkerNames {
  import opened Wrappers
  import opened OpGraphs

  /** ReplaceSlashToDash4Lbn: every '/' of `lbn` becomes '-'. */
  function ReplaceSlashToDash4Lbn(lbn: string): (r: string)
    ensures |r| == |lbn|
    ensures forall i :: 0 <= i < |lbn| ==> r[i] == (if lbn[i] == '/' then '-' else lbn[i])
    ensures '/' !in r
  {
    if lbn == [] then []
    else [if lbn[0] == '/' then '-' else lbn[0]] + ReplaceSlashToDash4Lbn(lbn[1..])
  }

  /** Replacing twice is replacing once. */
  lemma ReplaceIdempotent(lbn: string)
    ensures ReplaceSlashToDash4Lbn(ReplaceSlashToDash4Lbn(lbn)) == ReplaceSlashToDash4Lbn(lbn)
  {
    var r := ReplaceSlashToDash4Lbn(lbn);
    var rr := ReplaceSlashToDash4Lbn(r);
    assert forall i :: 0 <= i < |r| ==> r[i] != '/';
    assert forall i :: 0 <= i < |r| ==> rr[i] == r[i];
  }

  /** A name without a slash is left as it is. */
  lemma ReplaceKeepsSlashFree(lbn: string)
    requires '/' !in lbn
    ensures ReplaceSlashToDash4Lbn(lbn) == lbn
  {
    var r := ReplaceSlashToDash4Lbn(lbn);
    assert forall i :: 0 <= i < |lbn| ==> lbn[i] != '/';
    assert forall i :: 0 <= i < |lbn| ==> r[i] == lbn[i];
  }

  /** Two different lbns can be given the same marker name: the replacement forgets
      where the slash was. */
  lemma ReplaceNotInjective()
    ensures "a/b-c" != "a-b/c"
    ensures ReplaceSlashToDash4Lbn("a/b-c") == ReplaceSlashToDash4Lbn("a-b/c")
  {
    assert "a/b-c"[1] != "a-b/c"[1];
    var r1 := ReplaceSlashToDash4Lbn("a/b-c");
    var r2 := ReplaceSlashToDash4Lbn("a-b/c");
    assert forall i :: 0 <= i < 5 ==> r1[i] == "a-b-c"[i] == r2[i];
  }

  /** The op name of the marker of `lbn`. */
  function MarkerName(lbn: string): (r: string)
    ensures |r| == |lbn| + |"-fake-quant"| && '/' !in r
    ensures r[..|lbn|] == ReplaceSlashToDash4Lbn(lbn) && r[|lbn|..] == "-fake-quant"
  {
    ReplaceSlashToDash4Lbn(lbn) + "-fake-quant"
  }

  /** The lbn the marker of `lbn` outputs: its op name and its only output blob, out_0.
      It is a new lbn whose only slash separates the marker's op name from "out_0". */
  function MarkerOutLbn(lbn: string): (r: string)
    ensures r != lbn && |r| == |lbn| + |"-fake-quant/out_0"|
    ensures r[|r| - |"/out_0"|..] == "/out_0"
    ensures r[..|r| - |"/out_0"|] == MarkerName(lbn) && '/' !in MarkerName(lbn)
  {
    MarkerName(lbn) + "/out_0"
  }

  /** The identity op the pass builds for `lbn`: input "in" bound to `lbn`, output "out". */
  function MarkerConf(lbn: string): (r: OperatorConf)
    ensures r.name == MarkerName(lbn) && r.userOpType == Some("identity")
    ensures r.inputs.Keys == {"in_0"} && r.inputs["in_0"] == lbn
    ensures r.outputs == ["out_0"]
  {
    OperatorConf(MarkerName(lbn), Some("identity"), map["in_0" := lbn], ["out_0"])
  }
}
