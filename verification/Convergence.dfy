/**
 The convergence gate of the rotation machine: whether no roll is in flight,
 judged from the listed node pools and StatefulSets.
 */
module Convergence {
  import opened Options
  import Rollout

  const APP_LABEL := "krabka-broker"

  /** A config-hash label or annotation: missing, the empty string, or a hash. */
  datatype Label<H> = Absent | Empty | Hash(hash: H)

  datatype NodePool<H> = NodePool(name: string, configHash: Label<H>, cluster: Option<string>, replicas: int)

  datatype StsSpec<H> = StsSpec(replicas: Option<int>, templateHash: Label<H>)

  datatype StsStatus = StsStatus(
    observedGeneration: Option<int>,
    currentRevision: Option<string>,
    updateRevision: Option<string>,
    updatedReplicas: Option<int>,
    readyReplicas: Option<int>)

  datatype StatefulSet<H> = StatefulSet(
    name: string,
    instance: Option<string>,
    appName: Option<string>,
    pool: Option<string>,
    version: Option<string>,
    generation: Option<int>,
    spec: Option<StsSpec<H>>,
    status: Option<StsStatus>)

  function OrZero(x: Option<int>): (r: int)
  {
    if x.Some? then x.value else 0
  }

  /** The live set runs exactly the template that carries the pool's hash, everywhere and Ready. */
  predicate FullyRolled<H(==)>(p: NodePool<H>, s: StatefulSet<H>)
  {
    && p.configHash.Hash?
    && p.cluster.Some?
    && s.instance == p.cluster && s.appName == Some(APP_LABEL) && s.pool == Some(p.name)
    && s.spec.Some? && s.status.Some? && s.generation.Some?
    && s.spec.value.templateHash == p.configHash
    && s.spec.value.replicas == Some(p.replicas)
    && var st := s.status.value;
    && st.observedGeneration == s.generation
    && st.currentRevision.Some? && st.currentRevision == st.updateRevision
    && OrZero(st.updatedReplicas) == p.replicas
    && OrZero(st.readyReplicas) == p.replicas
  }

  ghost predicate DistinctNames<H>(sets: seq<StatefulSet<H>>)
  {
    forall i, j :: 0 <= i < j < |sets| ==> sets[i].name != sets[j].name
  }

  function SetName<H>(p: NodePool<H>): (n: string)
    requires p.cluster.Some?
  {
    p.cluster.value + "-" + p.name
  }

  ghost predicate HasRolledSet<H>(p: NodePool<H>, sets: seq<StatefulSet<H>>)
  {
    p.cluster.Some? && exists i :: 0 <= i < |sets| && sets[i].name == SetName(p) && FullyRolled(p, sets[i])
  }

  // ------------------------------------------------------------- what a listing means

  /** The set belongs to the pool: by its name and by all three labels. */
  ghost predicate Owned<H>(p: NodePool<H>, s: StatefulSet<H>)
  {
    && p.cluster.Some? && s.name == SetName(p)
    && s.instance == p.cluster && s.appName == Some(APP_LABEL) && s.pool == Some(p.name)
  }

  /**
   The pods of one pool as they really are: how many there are, how many of them
   run, how many run something other than the current template, and whether
   anything but the template can still be started.
   */
  datatype Reality = Reality(total: nat, running: nat, outdated: nat, settled: bool)

  /** The status was computed for the current spec, and the spec is for all pods. */
  ghost predicate UpToDate<H>(s: StatefulSet<H>, total: nat)
  {
    && s.spec.Some? && s.status.Some? && s.generation.Some?
    && s.status.value.observedGeneration == s.generation
    && s.spec.value.replicas == Some(total)
  }

  /**
   Truthfulness of a listed set.  Once its status is up to date, it counts as
   updated no pod that runs something else and as ready only pods that run; and
   one revision means that nothing older can be started.
   */
  ghost predicate Truthful<H>(s: StatefulSet<H>, r: Reality)
  {
    UpToDate(s, r.total) ==>
      && var st := s.status.value;
      && OrZero(st.updatedReplicas) + r.outdated <= r.total
      && OrZero(st.readyReplicas) <= r.running
      && (st.currentRevision.Some? && st.currentRevision == st.updateRevision ==> r.settled)
  }

  lemma RolledIsOwned<H>(p: NodePool<H>, s: StatefulSet<H>)
    requires FullyRolled(p, s) && s.name == SetName(p)
    ensures Owned(p, s)
  {
  }

  /** What the check on one pool establishes about its pods. */
  lemma RolledReality<H>(p: NodePool<H>, s: StatefulSet<H>, r: Reality)
    requires FullyRolled(p, s) && Truthful(s, r) && p.replicas == r.total
    ensures r.running >= r.total && r.outdated == 0 && r.settled
  {
  }

  /** No roll is in flight: one hash on all pools, each fully rolled out by its own set. */
  ghost predicate Converged<H>(pools: seq<NodePool<H>>, sets: seq<StatefulSet<H>>)
  {
    && DistinctNames(sets)
    && (forall i :: 0 <= i < |pools| ==> HasRolledSet(pools[i], sets))
    && (forall i, j :: 0 <= i < |pools| && 0 <= j < |pools| ==> pools[i].configHash == pools[j].configHash)
  }

  /** `byName` indexes the sets by their distinct names. */
  ghost predicate Indexed<H>(byName: map<string, StatefulSet<H>>, sets: seq<StatefulSet<H>>)
  {
    && DistinctNames(sets)
    && (forall i :: 0 <= i < |sets| ==> sets[i].name in byName && byName[sets[i].name] == sets[i])
    && (forall n :: n in byName ==> exists i :: 0 <= i < |sets| && sets[i].name == n)
  }

  lemma IndexGrows<H>(byName: map<string, StatefulSet<H>>, sets: seq<StatefulSet<H>>, s: StatefulSet<H>)
    requires Indexed(byName, sets)
    ensures s.name !in byName ==> Indexed(byName[s.name := s], sets + [s])
    ensures s.name in byName ==> !DistinctNames(sets + [s])
  {
    var all := sets + [s];
    if s.name in byName {
      var i :| 0 <= i < |sets| && sets[i].name == s.name;
      assert all[i].name == all[|sets|].name;
    } else {
      var grown := byName[s.name := s];
      forall n | n in grown ensures exists i :: 0 <= i < |all| && all[i].name == n {
        if n == s.name {
          assert all[|sets|].name == n;
        } else {
          var i :| 0 <= i < |sets| && sets[i].name == n;
          assert all[i].name == n;
        }
      }
    }
  }

  lemma PrefixDistinct<H>(sets: seq<StatefulSet<H>>, k: nat)
    requires k <= |sets|
    ensures DistinctNames(sets) ==> DistinctNames(sets[..k])
  {
  }

  method IndexByName<H>(sets: seq<StatefulSet<H>>) returns (r: Option<map<string, StatefulSet<H>>>)
    ensures r.Some? <==> DistinctNames(sets)
    ensures r.Some? ==> Indexed(r.value, sets)
  {
    var byName: map<string, StatefulSet<H>> := map[];
    for k := 0 to |sets|
      invariant Indexed(byName, sets[..k])
    {
      hide DistinctNames;
      IndexGrows(byName, sets[..k], sets[k]);
      assert sets[..k + 1] == sets[..k] + [sets[k]];
      PrefixDistinct(sets, k + 1);
      if sets[k].name in byName {
        return None;
      }
      byName := byName[sets[k].name := sets[k]];
    }
    assert sets[..|sets|] == sets;
    r := Some(byName);
  }

  lemma IndexFinds<H>(byName: map<string, StatefulSet<H>>, sets: seq<StatefulSet<H>>, p: NodePool<H>)
    requires Indexed(byName, sets)
    ensures HasRolledSet(p, sets) <==>
      p.cluster.Some? && SetName(p) in byName && FullyRolled(p, byName[SetName(p)])
    ensures HasRolledSet(p, sets) ==> p.configHash.Hash?
  {
  }

  /** The set of labels on the pools has one element exactly when they agree. */
  lemma OneHash<H>(pools: seq<NodePool<H>>, hashes: set<Label<H>>)
    requires forall i :: 0 <= i < |pools| ==> pools[i].configHash in hashes
    requires forall h :: h in hashes ==> exists i :: 0 <= i < |pools| && pools[i].configHash == h
    ensures pools == [] || |hashes| == 1 <==>
      forall i, j :: 0 <= i < |pools| && 0 <= j < |pools| ==> pools[i].configHash == pools[j].configHash
  {
    Rollout.AtMostOne(hashes);
    assert |pools| > 0 ==> pools[0].configHash in hashes;
  }

  method PoolsConverged<H(==)>(pools: seq<NodePool<H>>, sets: seq<StatefulSet<H>>) returns (r: bool)
    ensures r <==> Converged(pools, sets)
  {
    hide FullyRolled, SetName, DistinctNames, HasRolledSet;
    var index := IndexByName(sets);
    if index.None? {
      return false;
    }
    var byName := index.value;
    var hashes: set<Label<H>> := {};
    for k := 0 to |pools|
      invariant forall i :: 0 <= i < k ==> HasRolledSet(pools[i], sets)
      invariant forall i :: 0 <= i < k ==> pools[i].configHash in hashes
      invariant forall h :: h in hashes ==> exists i :: 0 <= i < k && pools[i].configHash == h
    {
      var p := pools[k];
      hashes := hashes + {p.configHash};
      IndexFinds(byName, sets, p);
      if !p.configHash.Hash? || p.cluster.None? || SetName(p) !in byName {
        return false;
      }
      if !FullyRolled(p, byName[SetName(p)]) {
        return false;
      }
    }
    OneHash(pools, hashes);
    r := |pools| == 0 || |hashes| == 1;
  }

  /** The finalisation gate: converged, at least one pool, and every listed set on the given version. */
  ghost predicate RolledToVersion<H>(pools: seq<NodePool<H>>, sets: seq<StatefulSet<H>>, version: string)
  {
    && pools != [] && Converged(pools, sets)
    && forall i :: 0 <= i < |sets| ==> sets[i].version == Some(version)
  }

  method PoolsRolledToVersion<H(==)>(pools: seq<NodePool<H>>, sets: seq<StatefulSet<H>>, version: string)
    returns (r: bool)
    ensures r <==> RolledToVersion(pools, sets, version)
  {
    if pools == [] {
      return false;
    }
    var c := PoolsConverged(pools, sets);
    r := c && forall i :: 0 <= i < |sets| ==> sets[i].version == Some(version);
  }
}
