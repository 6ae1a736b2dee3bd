/** Runs of the fleet by itself: any uniformly labelled fleet can converge, and be seen to. */
module FleetRuns {
  import opened Options
  import opened CaRotation
  import opened CaViews
  import opened Fleet
  import opened Paths
  import Listings
  import Rollout
  import Convergence

  ghost function StepOf<L(!new)>(trust: set<Key>, leafs: map<PodId, L>): (r: (Fleet<L>, FleetEvent, Fleet<L>) -> bool)
  {
    (f: Fleet<L>, e: FleetEvent, f': Fleet<L>) => FleetStep(f, e, f', trust, leafs)
  }

  /** The first `k` sets have rendered their label. */
  ghost predicate Synced<L>(f: Fleet<L>, f': Fleet<L>, k: nat)
  {
    && |f'.pools| == |f.pools| && k <= |f.pools| && f'.pods == f.pods
    && (forall i :: 0 <= i < |f.pools| ==> f'.pools[i].stamp == f.pools[i].stamp)
    && (forall i :: 0 <= i < |f.pools| ==> f.pools[i].revisions <= f'.pools[i].revisions)
    && (forall i :: 0 <= i < k && f.pools[i].stamp.Some? ==>
          f'.pools[i].template == f.pools[i].stamp && f.pools[i].stamp.value in f'.pools[i].revisions)
  }

  lemma {:induction false} SyncAll<L(!new)>(f: Fleet<L>, k: nat, trust: set<Key>, leafs: map<PodId, L>)
    returns (fs: seq<Fleet<L>>, es: seq<FleetEvent>)
    requires k <= |f.pools| && forall i :: 0 <= i < |f.pools| ==> f.pools[i].stamp.Some?
    ensures Path(fs, es, StepOf(trust, leafs)) && fs[0] == f && Synced(f, fs[|es|], k)
  {
    if k == 0 {
      fs, es := Stay(f, StepOf(trust, leafs));
    } else {
      fs, es := SyncAll(f, k - 1, trust, leafs);
      var g := fs[|es|];
      var p := g.pools[k - 1];
      var h := g.(pools := g.pools[k - 1 := p.(template := p.stamp, revisions := p.revisions + {p.stamp.value})]);
      assert FleetStep(g, Sync(k - 1), h, trust, leafs);
      fs, es := Next(fs, es, Sync(k - 1), h, StepOf(trust, leafs));
    }
  }

  /** Every pod of `todo` runs `c` with the trust and the leaf of this moment; the others are as before. */
  ghost predicate Restarted<L>(f: Fleet<L>, f': Fleet<L>, todo: set<PodId>, c: Content, trust: set<Key>, leafs: map<PodId, L>)
  {
    && f'.pools == f.pools && f'.pods.Keys == f.pods.Keys
    && forall p :: p in f.pods ==>
         if p in todo then p in leafs && f'.pods[p] == Up(c, trust, leafs[p]) else f'.pods[p] == f.pods[p]
  }

  lemma {:induction false} StartAll<L(!new)>(f: Fleet<L>, todo: set<PodId>, c: Content, trust: set<Key>, leafs: map<PodId, L>)
    returns (fs: seq<Fleet<L>>, es: seq<FleetEvent>)
    requires forall p :: p in todo ==> p in f.pods && p in leafs && p.pool < |f.pools| && c in f.pools[p.pool].revisions
    ensures Path(fs, es, StepOf(trust, leafs)) && fs[0] == f && Restarted(f, fs[|es|], todo, c, trust, leafs)
    decreases |todo|
  {
    if todo == {} {
      fs, es := Stay(f, StepOf(trust, leafs));
    } else {
      var p :| p in todo;
      fs, es := StartAll(f, todo - {p}, c, trust, leafs);
      var g := fs[|es|];
      var h := g.(pods := g.pods[p := Up(c, trust, leafs[p])]);
      assert FleetStep(g, Start(p, c), h, trust, leafs);
      fs, es := Next(fs, es, Start(p, c), h, StepOf(trust, leafs));
    }
  }

  /** What convergence on the labels leaves: pods that were on the label and not restarted are untouched. */
  ghost predicate Settled<L>(f: Fleet<L>, f': Fleet<L>, also: set<PodId>, trust: set<Key>, leafs: map<PodId, L>)
  {
    && WellFormed(f') && FleetConverged(f') && |f'.pools| == |f.pools| && f'.pods.Keys == f.pods.Keys
    && (forall i :: 0 <= i < |f.pools| ==> f'.pools[i].stamp == f.pools[i].stamp)
    && forall p :: p in f.pods ==>
         && f'.pods[p].Up?
         && if OnLabel(f, p) && p !in also then f'.pods[p] == f.pods[p]
            else p in leafs && f'.pods[p].trust == trust && f'.pods[p].leaf == leafs[p]
  }

  /** A fleet whose labels agree can converge on them, restarting `also` and every pod that is not there yet. */
  lemma Converge<L(!new)>(f: Fleet<L>, also: set<PodId>, trust: set<Key>, leafs: map<PodId, L>)
    returns (fs: seq<Fleet<L>>, es: seq<FleetEvent>)
    requires WellFormed(f) && Uniform(f) && forall p :: p in f.pods ==> p in leafs
    ensures Path(fs, es, StepOf(trust, leafs)) && fs[0] == f && Settled(f, fs[|es|], also, trust, leafs)
  {
    var c := f.pools[0].stamp.value;
    fs, es := SyncAll(f, |f.pools|, trust, leafs);
    var g := fs[|es|];
    var todo := set p | p in f.pods && (p in also || !OnLabel(f, p));
    var tt, gs := StartAll(g, todo, c, trust, leafs);
    var h := tt[|gs|];
    fs, es := Then(fs, es, tt, gs, StepOf(trust, leafs));
    SettledAfter(f, g, h, also, todo, c, trust, leafs);
  }

  lemma SettledAfter<L(!new)>(f: Fleet<L>, g: Fleet<L>, h: Fleet<L>, also: set<PodId>, todo: set<PodId>, c: Content,
                              trust: set<Key>, leafs: map<PodId, L>)
    requires WellFormed(f) && Uniform(f) && f.pools[0].stamp == Some(c) && Synced(f, g, |f.pools|)
    requires todo == (set p | p in f.pods && (p in also || !OnLabel(f, p))) && Restarted(g, h, todo, c, trust, leafs)
    ensures Settled(f, h, also, trust, leafs)
  {
    forall p | p in h.pods ensures h.pods[p].Up? && h.pods[p].rev == c && p.pool < |h.pools| && c in h.pools[p.pool].revisions {
      assert p in f.pods;
      assert f.pools[p.pool].stamp == Some(c);
    }
    forall i | 0 <= i < |h.pools| ensures h.pools[i].stamp == h.pools[i].template == h.pools[0].stamp {
      assert f.pools[i].stamp == Some(c);
    }
  }

  // ------------------------------------------------------------------- listings

  /** In a converged fleet all pods of a pool run, and none runs anything but the template. */
  lemma ConvergedReality<L>(f: Fleet<L>, i: nat)
    requires WellFormed(f) && FleetConverged(f) && i < |f.pools|
    ensures |Running(f, i)| == |PodsOf(f, i)| && |Outdated(f, i)| == 0
  {
    assert Running(f, i) == PodsOf(f, i);
    assert Outdated(f, i) == {};
  }

  /** A converged fleet has a listing on which the check is positive. */
  lemma Listed<L>(f: Fleet<L>)
    returns (pools: seq<Convergence.NodePool<Content>>, sets: seq<Convergence.StatefulSet<Content>>)
    requires WellFormed(f) && FleetConverged(f)
    ensures Observes(f, pools, sets) && Convergence.Converged(pools, sets)
  {
    var c := f.pools[0].stamp.value;
    var counts := seq(|f.pools|, i requires 0 <= i < |f.pools| => |PodsOf(f, i)|);
    pools, sets := Listings.Pools(c, counts), Listings.Sets(c, "", counts);
    forall i, j | 0 <= i < |pools| && 0 <= j < |sets| && Convergence.Owned(pools[i], sets[j])
      ensures f.pools[i].template == Some(c) && Convergence.Truthful(sets[j], RealityOf(f, i))
    {
      Listings.OwnedSame(c, "", counts, i, j);
      ConvergedReality(f, i);
    }
    Listings.ListingConverges(c, "", counts);
  }

  /** And every fleet has a truthful listing on which it is negative: the sets are not there yet. */
  lemma Unlisted<L>(f: Fleet<L>)
    returns (pools: seq<Convergence.NodePool<Content>>, sets: seq<Convergence.StatefulSet<Content>>)
    requires WellFormed(f)
    ensures Observes(f, pools, sets) && !Convergence.Converged(pools, sets)
  {
    sets := [];
    pools := seq(|f.pools|, i requires 0 <= i < |f.pools| =>
      Listings.PoolObject(if f.pools[i].stamp.Some? then Convergence.Hash(f.pools[i].stamp.value) else Convergence.Absent,
                          i, |PodsOf(f, i)|));
    assert !Convergence.HasRolledSet(pools[0], sets);
  }

  function NoneReady(n: nat): (r: seq<bool>)
    ensures |r| == n
  {
    seq(n, _ => false)
  }

  /** A content that no label carries. */
  lemma {:induction false} FreshRest(pools: seq<Pool>) returns (r: nat)
    ensures forall i :: 0 <= i < |pools| && pools[i].stamp.Some? ==> pools[i].stamp.value.rest < r
  {
    if pools == [] {
      r := 0;
    } else {
      var n := |pools| - 1;
      r := FreshRest(pools[..n]);
      assert forall i :: 0 <= i < n ==> pools[..n][i] == pools[i];
      if pools[n].stamp.Some? && r <= pools[n].stamp.value.rest {
        r := pools[n].stamp.value.rest + 1;
      }
    }
  }

  /** Labels that do not agree are all replaced at once. */
  lemma PlansMixed<L>(f: Fleet<L>, c: Content)
    requires f.pools != [] && !Uniform(f)
    requires forall i :: 0 <= i < |f.pools| && f.pools[i].stamp.Some? ==> f.pools[i].stamp.value != c
    ensures
      var hs := Rollout.Planned(RolloutView(f, NoneReady(|f.pools|)), c);
      |hs| == |f.pools| && forall i :: 0 <= i < |hs| ==> hs[i] == c
  {
    var view := RolloutView(f, NoneReady(|f.pools|));
    assert forall i :: 0 <= i < |f.pools| ==> view[i].currentHash == f.pools[i].stamp;
    assert !Rollout.Established(view, c);
  }

  /** The first `k` labels are written. */
  ghost predicate Labelled<L>(f: Fleet<L>, f': Fleet<L>, hs: seq<Content>, k: nat)
  {
    && |hs| == |f.pools| == |f'.pools| && k <= |hs| && f'.pods == f.pods
    && forall i :: 0 <= i < |hs| ==> f'.pools[i] == if i < k then f.pools[i].(stamp := Some(hs[i])) else f.pools[i]
  }

  // ------------------------------------------------------------ inputs of a pass

  /** The inputs of an ordinary pass, with a clock reading. */
  function Inputs(which: WhichCa, force: ForceRotation, converged: bool, now: int): (inp: RotationInputs)
  {
    RotationInputs(true, 0, force, converged, now, which)
  }

  function Generated(k: Key): (m: Material)
  {
    Material(k, Cert(0, k, 0))
  }

  /** A key that nobody has used. */
  lemma {:induction false} FreshKey(used: set<Key>) returns (k: Key)
    ensures forall x :: x in used ==> x < k
  {
    if used == {} {
      k := 0;
    } else {
      var x :| x in used;
      k := FreshKey(used - {x});
      if k <= x {
        k := x + 1;
      }
      assert forall y :: y in used ==> y == x || y in used - {x};
    }
  }
}
