/**
 The running cluster as the rotation machine sees it: pools stamped with a
 configuration hash, StatefulSets that follow the stamp at their own pace, and
 pods that load trust and leaf material whenever they start or reload.

 The hash is collision-free, so a hash is represented by the content it
 digests: the CA bundle and everything else.  `L` is the leaf a pod serves.
 */
module Fleet {
  import opened Options
  import opened CaRotation
  import opened CaViews
  import Rollout
  import Convergence

  datatype PodId = PodId(pool: nat, ordinal: nat)

  datatype Content = Content(bundle: seq<Cert>, rest: nat)

  datatype Pool = Pool(stamp: Option<Content>, template: Option<Content>, revisions: set<Content>)

  datatype Pod<L> = Down | Up(rev: Content, trust: set<Key>, leaf: L)

  datatype Fleet<L> = Fleet(pools: seq<Pool>, pods: map<PodId, Pod<L>>)

  datatype FleetEvent =
    | Sync(pool: nat)                    // the pool controller renders the labelled template
    | Stop(pod: PodId)
    | Start(pod: PodId, rev: Content)    // from any template revision the set still keeps
    | ReloadTrust(pod: PodId)
    | ReloadLeaf(pod: PodId)

  /** Cluster events at arbitrary times; pods read the trust and leaf Secrets of that moment. */
  ghost predicate FleetStep<L>(f: Fleet<L>, e: FleetEvent, f': Fleet<L>, trust: set<Key>, leafs: map<PodId, L>)
  {
    match e
    case Sync(i) =>
      && i < |f.pools| && f.pools[i].stamp.Some?
      && var p := f.pools[i];
      && f' == f.(pools := f.pools[i := p.(template := p.stamp, revisions := p.revisions + {p.stamp.value})])
    case Stop(p) =>
      p in f.pods && f' == f.(pods := f.pods[p := Down])
    case Start(p, rev) =>
      && p in f.pods && p in leafs && p.pool < |f.pools| && rev in f.pools[p.pool].revisions
      && f' == f.(pods := f.pods[p := Up(rev, trust, leafs[p])])
    case ReloadTrust(p) =>
      && p in f.pods && f.pods[p].Up?
      && f' == f.(pods := f.pods[p := f.pods[p].(trust := trust)])
    case ReloadLeaf(p) =>
      && p in f.pods && f.pods[p].Up? && p in leafs
      && f' == f.(pods := f.pods[p := f.pods[p].(leaf := leafs[p])])
  }

  ghost predicate WellFormed<L>(f: Fleet<L>)
  {
    && f.pools != []
    && forall p :: p in f.pods ==>
        p.pool < |f.pools| && (f.pods[p].Up? ==> f.pods[p].rev in f.pools[p.pool].revisions)
  }

  /** Every hash in circulation, as a label or as a template revision, satisfies `ok`. */
  ghost predicate Contents<L>(f: Fleet<L>, ok: Content -> bool)
  {
    forall i :: 0 <= i < |f.pools| ==>
      && (f.pools[i].stamp.Some? ==> ok(f.pools[i].stamp.value))
      && (forall c :: c in f.pools[i].revisions ==> ok(c))
  }

  /** Every running pod that runs a hash naming a key of `ks` trusts that key. */
  ghost predicate Carried<L>(f: Fleet<L>, ks: set<Key>)
  {
    forall p, k :: p in f.pods && f.pods[p].Up? && k in ks && k in KeysOf(f.pods[p].rev.bundle) ==> k in f.pods[p].trust
  }

  ghost predicate TrustAll<L>(f: Fleet<L>, ks: set<Key>)
  {
    forall p :: p in f.pods && f.pods[p].Up? ==> ks <= f.pods[p].trust
  }

  ghost predicate AllDown<L>(f: Fleet<L>)
  {
    forall p :: p in f.pods ==> f.pods[p].Down?
  }

  /** All pools carry the same label. */
  ghost predicate Uniform<L>(f: Fleet<L>)
  {
    && f.pools != [] && f.pools[0].stamp.Some?
    && forall i :: 0 <= i < |f.pools| ==> f.pools[i].stamp == f.pools[0].stamp
  }

  /** The pod runs what the pool that leads the roll is labelled with. */
  ghost predicate OnLabel<L>(f: Fleet<L>, p: PodId)
  {
    f.pools != [] && p in f.pods && f.pods[p].Up? && f.pools[0].stamp == Some(f.pods[p].rev)
  }

  /** No roll is due, yet a pod that need not restart does not trust `n`. */
  ghost predicate TrustLags<L>(f: Fleet<L>, n: Key)
  {
    Uniform(f) && exists p :: OnLabel(f, p) && n !in f.pods[p].trust
  }

  /** Loaded trust comes from bundles that were once stored. */
  ghost predicate TrustFrom<L>(f: Fleet<L>, ks: set<Key>)
  {
    forall p :: p in f.pods && f.pods[p].Up? ==> f.pods[p].trust <= ks
  }

  /** One hash on every pool, rendered by every set and run by every pod. */
  ghost predicate FleetConverged<L>(f: Fleet<L>)
  {
    && f.pools != [] && f.pools[0].stamp.Some?
    && (forall i :: 0 <= i < |f.pools| ==> f.pools[i].stamp == f.pools[i].template == f.pools[0].stamp)
    && (forall p :: p in f.pods ==> f.pods[p].Up? && f.pods[p].rev == f.pools[0].stamp.value)
  }

  /** Every label, template and pod is on a content that satisfies `ok`. */
  ghost predicate RolledTo<L>(f: Fleet<L>, ok: Content -> bool)
  {
    && (forall i :: 0 <= i < |f.pools| ==>
          f.pools[i].stamp.Some? && f.pools[i].template == f.pools[i].stamp && ok(f.pools[i].stamp.value))
    && (forall p :: p in f.pods ==> f.pods[p].Up? && ok(f.pods[p].rev))
  }

  // ----------------------------------------------------------- observing it

  function PodsOf<L>(f: Fleet<L>, i: nat): (ps: set<PodId>)
  {
    set p | p in f.pods && p.pool == i
  }

  function Running<L>(f: Fleet<L>, i: nat): (ps: set<PodId>)
  {
    set p | p in f.pods && p.pool == i && f.pods[p].Up?
  }

  /** The pods that run something other than the pool's template. */
  ghost function Outdated<L>(f: Fleet<L>, i: nat): (ps: set<PodId>)
    requires i < |f.pools|
  {
    set p | p in f.pods && p.pool == i && f.pods[p].Up? && f.pools[i].template != Some(f.pods[p].rev)
  }

  /** Older revisions stay startable here, which is the weaker assumption. */
  ghost function RealityOf<L>(f: Fleet<L>, i: nat): (r: Convergence.Reality)
    requires i < |f.pools|
  {
    Convergence.Reality(|PodsOf(f, i)|, |Running(f, i)|, |Outdated(f, i)|, true)
  }

  /**
   What the API server lists: each pool with its label and its number of pods,
   and StatefulSet objects that show the pool's template and are truthful.
   */
  ghost predicate Observes<L>(f: Fleet<L>, pools: seq<Convergence.NodePool<Content>>,
                              sets: seq<Convergence.StatefulSet<Content>>)
  {
    && |pools| == |f.pools|
    && (forall i :: 0 <= i < |pools| ==>
          && pools[i].configHash == (if f.pools[i].stamp.Some? then Convergence.Hash(f.pools[i].stamp.value) else Convergence.Absent)
          && pools[i].replicas == |PodsOf(f, i)|)
    && (forall i, j :: 0 <= i < |pools| && 0 <= j < |sets| && Convergence.Owned(pools[i], sets[j]) ==>
          && (sets[j].spec.Some? && sets[j].spec.value.templateHash.Hash? ==>
                f.pools[i].template == Some(sets[j].spec.value.templateHash.hash))
          && Convergence.Truthful(sets[j], RealityOf(f, i)))
  }

  ghost predicate Rolled<L>(f: Fleet<L>, i: nat)
  {
    forall p :: p in f.pods && p.pool == i ==>
      i < |f.pools| && f.pods[p].Up? && f.pools[i].template == Some(f.pods[p].rev)
  }

  lemma SubsetOfSameSize<T>(a: set<T>, b: set<T>)
    requires a <= b && |a| >= |b|
    ensures a == b
  {
    assert |b - a| == |b| - |a|;
  }

  /** All pods run and none runs anything else: the pool is rolled. */
  lemma RolledByCount<L>(f: Fleet<L>, i: nat)
    requires i < |f.pools| && |Running(f, i)| >= |PodsOf(f, i)| && |Outdated(f, i)| == 0
    ensures Rolled(f, i)
  {
    SubsetOfSameSize(Running(f, i), PodsOf(f, i));
    forall p | p in f.pods && p.pool == i ensures f.pods[p].Up? && f.pools[i].template == Some(f.pods[p].rev) {
      assert p in PodsOf(f, i);
      assert p !in Outdated(f, i);
    }
  }

  /** A positive convergence check is true of the fleet. */
  lemma ObservedConverged<L>(f: Fleet<L>, pools: seq<Convergence.NodePool<Content>>,
                             sets: seq<Convergence.StatefulSet<Content>>)
    requires WellFormed(f) && Observes(f, pools, sets) && Convergence.Converged(pools, sets)
    ensures FleetConverged(f)
  {
    forall i | 0 <= i < |f.pools|
      ensures f.pools[i].stamp.Some? && f.pools[i].stamp == f.pools[i].template == f.pools[0].stamp && Rolled(f, i)
    {
      assert Convergence.HasRolledSet(pools[i], sets);
      var j :| 0 <= j < |sets| && sets[j].name == Convergence.SetName(pools[i]) && Convergence.FullyRolled(pools[i], sets[j]);
      Convergence.RolledIsOwned(pools[i], sets[j]);
      Convergence.RolledReality(pools[i], sets[j], RealityOf(f, i));
      RolledByCount(f, i);
      assert pools[i].configHash == pools[0].configHash;
    }
    forall p | p in f.pods
      ensures f.pods[p].Up? && f.pods[p].rev == f.pools[0].stamp.value
    {
      assert Rolled(f, p.pool);
    }
  }

  /** What the rollout planner is given for the labels of the fleet. */
  ghost function RolloutView<L>(f: Fleet<L>, ready: seq<bool>): (s: seq<Rollout.PoolState<Content>>)
    requires |ready| == |f.pools|
  {
    seq(|f.pools|, i requires 0 <= i < |f.pools| => Rollout.PoolState("", f.pools[i].stamp, ready[i]))
  }

  ghost function Relabel<L>(f: Fleet<L>, i: nat, c: Content): (r: Fleet<L>)
    requires i < |f.pools|
  {
    f.(pools := f.pools[i := f.pools[i].(stamp := Some(c))])
  }

  lemma FleetStepKeeps<L>(f: Fleet<L>, e: FleetEvent, f': Fleet<L>, trust: set<Key>, leafs: map<PodId, L>,
                          ks: set<Key>, ok: Content -> bool)
    requires FleetStep(f, e, f', trust, leafs) && ks <= trust
    requires WellFormed(f) && Contents(f, ok) && Carried(f, ks)
    ensures WellFormed(f') && Contents(f', ok) && Carried(f', ks)
    ensures |f'.pools| == |f.pools| && f'.pods.Keys == f.pods.Keys
    ensures forall i :: 0 <= i < |f.pools| ==> f'.pools[i].stamp == f.pools[i].stamp
  {
  }

  lemma FleetStepLabels<L>(f: Fleet<L>, e: FleetEvent, f': Fleet<L>, trust: set<Key>, leafs: map<PodId, L>)
    requires FleetStep(f, e, f', trust, leafs)
    ensures |f'.pools| == |f.pools| && f'.pods.Keys == f.pods.Keys
    ensures forall i :: 0 <= i < |f.pools| ==> f'.pools[i].stamp == f.pools[i].stamp
    ensures Uniform(f') <==> Uniform(f)
  {
    assert forall i :: 0 <= i < |f.pools| ==> f'.pools[i].stamp == f.pools[i].stamp;
    if Uniform(f') {
      assert forall i :: 0 <= i < |f.pools| ==> f.pools[i].stamp == f'.pools[i].stamp == f.pools[0].stamp;
    }
  }

  /** A pod that starts or reloads loads the trust of that moment, so nobody falls behind it. */
  lemma FleetStepTrusts<L>(f: Fleet<L>, e: FleetEvent, f': Fleet<L>, trust: set<Key>, leafs: map<PodId, L>, n: Key, ks: set<Key>)
    requires WellFormed(f) && FleetStep(f, e, f', trust, leafs)
    ensures n in trust && !TrustLags(f, n) ==> !TrustLags(f', n)
    ensures trust <= ks && TrustFrom(f, ks) ==> TrustFrom(f', ks)
  {
    FleetStepLabels(f, e, f', trust, leafs);
    if n in trust && !TrustLags(f, n) {
      forall p | Uniform(f') && OnLabel(f', p) ensures n in f'.pods[p].trust {
        assert f'.pods[p] == f.pods[p] ==> OnLabel(f, p);
        assert f.pods[p].Up? && f'.pods[p].trust == f.pods[p].trust && f'.pods[p].rev == f.pods[p].rev ==> OnLabel(f, p);
      }
    }
  }

  /** A label that names `n` is run only by pods that trust it. */
  lemma AnnouncedTrust<L>(f: Fleet<L>, ks: set<Key>, n: Key)
    requires f.pools != [] && Carried(f, ks) && n in ks
    requires f.pools[0].stamp.Some? && n in KeysOf(f.pools[0].stamp.value.bundle)
    ensures !TrustLags(f, n)
  {
  }

  /** A converged fleet that does not lag behind `n` trusts it everywhere. */
  lemma ConvergedTrusts<L>(f: Fleet<L>, n: Key)
    requires FleetConverged(f) && !TrustLags(f, n)
    ensures forall p :: p in f.pods ==> f.pods[p].Up? && n in f.pods[p].trust
  {
    forall p | p in f.pods ensures f.pods[p].Up? && n in f.pods[p].trust {
      assert OnLabel(f, p);
    }
  }

  lemma PlannedContents<L>(f: Fleet<L>, ready: seq<bool>, c: Content, ok: Content -> bool)
    requires |ready| == |f.pools| && f.pools != [] && Contents(f, ok) && ok(c)
    ensures
      var hs := Rollout.Planned(RolloutView(f, ready), c);
      && |hs| == |f.pools| && hs[0] == c
      && forall i :: 0 <= i < |hs| ==> ok(hs[i])
  {
  }
}
