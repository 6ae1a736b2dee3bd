/**
 The ordered, readiness-gated rollout of a configuration hash over the pools of
 a cluster.  Pools are given in roll order.
 */
module Rollout {
  import opened Options

  datatype PoolState<H> = PoolState(name: string, currentHash: Option<H>, ready: bool)

  /** Every pool is stamped, and at most one hash other than the desired one is in use. */
  ghost predicate Established<H>(pools: seq<PoolState<H>>, desired: H)
  {
    && (forall i :: 0 <= i < |pools| ==> pools[i].currentHash.Some?)
    && (forall i, j :: 0 <= i < |pools| && 0 <= j < |pools|
          && pools[i].currentHash != Some(desired) && pools[j].currentHash != Some(desired)
          ==> pools[i].currentHash == pools[j].currentHash)
  }

  /** The number of leading pools that already run the desired hash and are Ready. */
  ghost function Gate<H>(pools: seq<PoolState<H>>, desired: H): (g: nat)
    ensures g <= |pools|
    ensures forall i :: 0 <= i < g ==> pools[i].currentHash == Some(desired) && pools[i].ready
    ensures g < |pools| ==> !(pools[g].currentHash == Some(desired) && pools[g].ready)
  {
    if pools == [] || pools[0].currentHash != Some(desired) || !pools[0].ready then 0
    else 1 + Gate(pools[1..], desired)
  }

  /** The hash each pool is stamped with: desired up to and including the first pool behind the gate. */
  ghost function Planned<H>(pools: seq<PoolState<H>>, desired: H): (hs: seq<H>)
  {
    seq(|pools|, i requires 0 <= i < |pools| =>
      if Established(pools, desired) && i > Gate(pools, desired) && pools[i].currentHash.Some?
      then pools[i].currentHash.value else desired)
  }

  /** A pool keeps its position: `Gate` is the only such index. */
  lemma {:induction false} GateUnique<H>(pools: seq<PoolState<H>>, desired: H, g: nat)
    requires g <= |pools|
    requires forall i :: 0 <= i < g ==> pools[i].currentHash == Some(desired) && pools[i].ready
    requires g < |pools| ==> !(pools[g].currentHash == Some(desired) && pools[g].ready)
    ensures Gate(pools, desired) == g
  {
    var h := Gate(pools, desired);
    assert !(h < g);
    assert !(g < h);
  }

  lemma AtMostOne<T>(s: set<T>)
    ensures |s| <= 1 <==> forall x, y :: x in s && y in s ==> x == y
  {
    if |s| <= 1 {
      forall x, y | x in s && y in s ensures x == y {
        assert |s - {x}| == |s| - 1;
        assert s - {x} == {};
      }
    } else if forall x, y :: x in s && y in s ==> x == y {
      var x :| x in s;
      assert s == {x};
    }
  }

  /** `plan_rollout`: one walk over the pools with a gate that closes behind the first unconverged one. */
  method PlanRollout<H(==)>(pools: seq<PoolState<H>>, desired: H) returns (out: seq<(string, H)>)
    ensures |out| == |pools|
    ensures forall i :: 0 <= i < |pools| ==> out[i] == (pools[i].name, Planned(pools, desired)[i])
  {
    var allHaveHash := forall i :: 0 <= i < |pools| ==> pools[i].currentHash.Some?;
    var others := set i | 0 <= i < |pools| && pools[i].currentHash.Some? && pools[i].currentHash.value != desired
      :: pools[i].currentHash.value;
    AtMostOne(others);
    out := [];
    if !allHaveHash || |others| > 1 {
      assert !Established(pools, desired) by {
        if |others| > 1 {
          var x, y :| x in others && y in others && x != y;
        }
      }
      for i := 0 to |pools|
        invariant |out| == i
        invariant forall j :: 0 <= j < i ==> out[j] == (pools[j].name, desired)
      {
        out := out + [(pools[i].name, desired)];
      }
      return;
    }
    assert Established(pools, desired) by {
      forall i, j | 0 <= i < |pools| && 0 <= j < |pools|
          && pools[i].currentHash != Some(desired) && pools[j].currentHash != Some(desired)
        ensures pools[i].currentHash == pools[j].currentHash
      {
        assert pools[i].currentHash.value in others && pools[j].currentHash.value in others;
      }
    }
    var gateOpen := true;
    ghost var g := Gate(pools, desired);
    for i := 0 to |pools|
      invariant |out| == i
      invariant gateOpen <==> i <= g
      invariant forall j :: 0 <= j < i ==> out[j] == (pools[j].name, Planned(pools, desired)[j])
    {
      var p := pools[i];
      if gateOpen {
        out := out + [(p.name, desired)];
        if !(p.currentHash == Some(desired) && p.ready) {
          gateOpen := false;
        }
      } else {
        out := out + [(p.name, p.currentHash.value)];
      }
    }
  }

  /** The first pool in roll order is stamped with the desired hash by every pass. */
  lemma FirstPoolAlwaysDesired<H>(pools: seq<PoolState<H>>, desired: H)
    requires pools != []
    ensures |Planned(pools, desired)| == |pools| && Planned(pools, desired)[0] == desired
  {
  }

  /** A pool without a label, or two old hashes in use, means no roll to order: every pool is stamped at once. */
  lemma UnsettledGetsDesired<H>(pools: seq<PoolState<H>>, desired: H, i: nat, j: nat)
    requires i < |pools| && j < |pools|
    requires pools[i].currentHash.None?
      || (pools[i].currentHash != Some(desired) && pools[j].currentHash != Some(desired)
          && pools[i].currentHash != pools[j].currentHash)
    ensures |Planned(pools, desired)| == |pools|
    ensures forall k :: 0 <= k < |pools| ==> Planned(pools, desired)[k] == desired
  {
  }

  /** One old hash in use: a pool moves only when every pool before it is Ready on the desired hash. */
  lemma SettledMovesInOrder<H>(pools: seq<PoolState<H>>, desired: H, old_: H, k: nat)
    requires k < |pools| && forall i :: 0 <= i < |pools| ==> pools[i].currentHash in {Some(desired), Some(old_)}
    ensures |Planned(pools, desired)| == |pools|
    ensures Planned(pools, desired)[k] ==
      if forall i :: 0 <= i < k ==> pools[i].currentHash == Some(desired) && pools[i].ready
      then desired else pools[k].currentHash.value
  {
    assert Established(pools, desired);
    var g := Gate(pools, desired);
    assert g < |pools| ==> !(pools[g].currentHash == Some(desired) && pools[g].ready);
  }

  // ------------------------------------------------------- runs of the rollout

  /** What the planner observes of a labelled cluster. */
  ghost function Observe<H>(labels: seq<H>, ready: seq<bool>): (pools: seq<PoolState<H>>)
    requires |labels| == |ready|
  {
    seq(|labels|, i requires 0 <= i < |labels| => PoolState("", Some(labels[i]), ready[i]))
  }

  /** One pass: pools are patched in roll order and the first `accepted` patches land. */
  ghost function Restamp<H>(labels: seq<H>, ready: seq<bool>, desired: H, accepted: nat): (r: seq<H>)
    requires |labels| == |ready| && accepted <= |labels|
    ensures |r| == |labels|
  {
    Planned(Observe(labels, ready), desired)[..accepted] + labels[accepted..]
  }

  /** The first `k` pools carry the desired hash and every other one the old hash. */
  ghost predicate Split<H>(labels: seq<H>, k: nat, desired: H, old_: H)
  {
    && k <= |labels|
    && forall i :: 0 <= i < |labels| ==> labels[i] == if i < k then desired else old_
  }

  /** A pass moves the boundary by one pool, and only if all earlier pools were Ready. */
  lemma RestampMoves<H>(labels: seq<H>, ready: seq<bool>, k: nat, desired: H, old_: H, accepted: nat)
    requires desired != old_ && |labels| == |ready| && accepted <= |labels|
    requires Split(labels, k, desired, old_)
    ensures
      var advance := k < accepted && forall i :: 0 <= i < k ==> ready[i];
      Split(Restamp(labels, ready, desired, accepted), if advance then k + 1 else k, desired, old_)
  {
    var pools := Observe(labels, ready);
    assert Established(pools, desired);
    var g := Gate(pools, desired);
    assert k < |pools| ==> pools[k].currentHash != Some(desired);
    assert g <= k;
    if forall i :: 0 <= i < k ==> ready[i] {
      GateUnique(pools, desired, k);
    } else {
      var i :| 0 <= i < k && !ready[i];
      assert !pools[i].ready;
      assert g <= i;
    }
  }

  ghost predicate RolloutRun<H>(ls: seq<seq<H>>, ready: seq<seq<bool>>, accepted: seq<nat>, desired: H, old_: H)
  {
    && |ls| == |ready| + 1 == |accepted| + 1
    && (forall i :: 0 <= i < |ls[0]| ==> ls[0][i] == old_)
    && forall t :: 0 <= t < |ready| ==>
        && |ls[t]| == |ready[t]| && accepted[t] <= |ls[t]|
        && ls[t + 1] == Restamp(ls[t], ready[t], desired, accepted[t])
  }

  /** In every reachable labelling a desired prefix is followed by an old suffix, in roll order. */
  lemma {:induction false} OrderedRollout<H>(ls: seq<seq<H>>, ready: seq<seq<bool>>, accepted: seq<nat>,
                                             desired: H, old_: H, t: nat) returns (k: nat)
    requires RolloutRun(ls, ready, accepted, desired, old_) && desired != old_ && t < |ls|
    ensures k <= t && |ls[t]| == |ls[0]| && Split(ls[t], k, desired, old_)
  {
    if t == 0 {
      k := 0;
    } else {
      k := OrderedRollout(ls, ready, accepted, desired, old_, t - 1);
      RestampMoves(ls[t - 1], ready[t - 1], k, desired, old_, accepted[t - 1]);
      var r := ready[t - 1];
      if k < accepted[t - 1] && forall i :: 0 <= i < k ==> r[i] {
        k := k + 1;
      }
    }
  }

  /** Passes that find every earlier pool Ready finish the roll: one pool each, in order. */
  lemma {:induction false} ReadyPassesFinish<H>(ls: seq<seq<H>>, ready: seq<seq<bool>>, accepted: seq<nat>,
                                                desired: H, old_: H, t: nat)
    requires RolloutRun(ls, ready, accepted, desired, old_) && desired != old_ && t < |ls| && t <= |ls[0]|
    requires forall u :: 0 <= u < |ready| ==>
      accepted[u] == |ls[u]| && forall i :: 0 <= i < |ready[u]| && ls[u][i] == desired ==> ready[u][i]
    ensures |ls[t]| == |ls[0]| && Split(ls[t], t, desired, old_)
  {
    if t > 0 {
      ReadyPassesFinish(ls, ready, accepted, desired, old_, t - 1);
      RestampMoves(ls[t - 1], ready[t - 1], t - 1, desired, old_, accepted[t - 1]);
    }
  }
}
