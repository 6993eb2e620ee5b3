/** The sink the pass writes its changes through: the ops it adds to the job and the
    op configurations it replaces, each replaced at most once. */
module JobBuilders {
  import opened Wrappers
  import opened OpGraphs
  import opened Rewrites

  /** No two configurations of `confs` share an op name. */
  predicate DistinctNames(confs: seq<OperatorConf>) {
    forall i, j :: 0 <= i < j < |confs| ==> confs[i].name != confs[j].name
  }

  /** `confs` by op name; of two configurations with one name the later one wins. */
  function ByName(confs: seq<OperatorConf>): map<string, OperatorConf> {
    if confs == [] then map[] else ByName(confs[..|confs| - 1])[confs[|confs| - 1].name := confs[|confs| - 1]]
  }

  /** The keys of ByName(confs) are the names of `confs`; when the names are distinct
      each name maps to its configuration. */
  lemma {:induction false} ByNameMembers(confs: seq<OperatorConf>)
    ensures forall i :: 0 <= i < |confs| ==> confs[i].name in ByName(confs)
    ensures forall k :: k in ByName(confs) ==> exists i :: 0 <= i < |confs| && confs[i].name == k
    ensures DistinctNames(confs) ==> forall i :: 0 <= i < |confs| ==> ByName(confs)[confs[i].name] == confs[i]
  {
    if confs != [] {
      var init := confs[..|confs| - 1];
      var last := confs[|confs| - 1];
      ByNameMembers(init);
      assert forall i :: 0 <= i < |init| ==> init[i] == confs[i];
    }
  }

  /** A job under construction. */
  class JobBuilder {
    /** The ops added with AddOps, in the order they were added. */
    var added: seq<AddedOp>
    /** The configurations replaced with MutOpsOnlyOnce, by op name. */
    var mutated: map<string, OperatorConf>

    constructor ()
      ensures added == [] && mutated == map[]
    {
      added := [];
      mutated := map[];
    }

    /** AddOps: adds the operators `confs`, all placed on `placement`. */
    method AddOps(placement: ParallelConf, confs: seq<OperatorConf>)
      modifies this
      ensures |added| == |old(added)| + |confs| && added[..|old(added)|] == old(added)
      ensures forall i :: 0 <= i < |confs| ==> added[|old(added)| + i] == AddedOp(placement, confs[i])
      ensures mutated == old(mutated)
    {
      var newOps := seq(|confs|, i requires 0 <= i < |confs| => AddedOp(placement, confs[i]));
      added := added + newOps;
    }

    /** MutOpsOnlyOnce: replaces the configuration of each op named in `confs`. An op may
        be replaced once over the life of the builder: a name met twice, in this call or
        in an earlier one, fails the call. */
    method MutOpsOnlyOnce(confs: seq<OperatorConf>) returns (r: Result<(), QatError>)
      modifies this
      ensures r.Ok? <==> DistinctNames(confs) && forall i :: 0 <= i < |confs| ==> confs[i].name !in old(mutated)
      ensures r.Err? ==> r.error == OpMutatedTwice
      ensures r.Ok? ==> mutated == old(mutated) + ByName(confs)
      ensures r.Err? ==> exists j :: 0 <= j < |confs| && mutated == old(mutated) + ByName(confs[..j])
      ensures added == old(added)
    {
      for j := 0 to |confs|
        invariant added == old(added)
        invariant mutated == old(mutated) + ByName(confs[..j])
        invariant DistinctNames(confs[..j])
        invariant forall i :: 0 <= i < j ==> confs[i].name !in old(mutated)
      {
        var conf := confs[j];
        assert confs[..j + 1] == confs[..j] + [conf];
        if conf.name in mutated {
          MutatedTwice(old(mutated), confs, j);
          return Err(OpMutatedTwice);
        }
        NewName(old(mutated), confs, j);
        mutated := mutated[conf.name := conf];
      }
      assert confs[..|confs|] == confs;
      r := Ok(());
    }
  }

  /** The name of `confs[j]` is replaced already, before the call or earlier in it: the
      once-only condition fails for the whole of `confs`. */
  lemma MutatedTwice(before: map<string, OperatorConf>, confs: seq<OperatorConf>, j: nat)
    requires j < |confs| && confs[j].name in before + ByName(confs[..j])
    ensures !(DistinctNames(confs) && forall i :: 0 <= i < |confs| ==> confs[i].name !in before)
  {
    ByNameMembers(confs[..j]);
    if confs[j].name !in before {
      var i :| 0 <= i < j && confs[..j][i].name == confs[j].name;
      assert confs[i].name == confs[j].name;
    }
  }

  /** A name met for the first time keeps the names of confs[..j + 1] distinct. */
  lemma NewName(before: map<string, OperatorConf>, confs: seq<OperatorConf>, j: nat)
    requires j < |confs| && confs[j].name !in before + ByName(confs[..j]) && DistinctNames(confs[..j])
    ensures DistinctNames(confs[..j + 1])
  {
    ByNameMembers(confs[..j]);
    var prefix := confs[..j + 1];
    forall i | 0 <= i < j
      ensures prefix[i].name != confs[j].name
    {
      assert confs[..j][i].name in ByName(confs[..j]);
    }
  }
}
