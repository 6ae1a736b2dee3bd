/** Ways a cluster can go, from which whole runs are put together. */
module ClusterTrustMoves {
  import opened Options
  import opened CaRotation
  import opened CaViews
  import opened CaPass
  import opened Fleet
  import opened FleetRuns
  import opened Paths
  import opened ClusterTrust
  import Rollout
  import Convergence

  ghost predicate CarefulStep(s: Sys, e: Event, s': Sys)
  {
    Step(s, e, s') && Careful(s, e)
  }

  /** Between passes, with labels that agree and a keystore entry for every broker. */
  ghost predicate Poised(s: Sys)
  {
    && s.pass.NoPass? && CaInv(s.ca) && WellFormed(s.fleet)
    && Uniform(s.fleet) && Stocked(s)
  }

  // --------------------------------------------------------------- the fleet

  /** The fleet moves by itself. */
  lemma Lift(s: Sys, fs: seq<Fleet<Key>>, fes: seq<FleetEvent>) returns (ss: seq<Sys>, es: seq<Event>)
    requires Path(fs, fes, StepOf(BundleKeys(s.ca), s.keystore)) && fs[0] == s.fleet
    ensures Path(ss, es, CarefulStep) && |ss| == |es| + 1 && ss[0] == s && ss[|es|] == s.(fleet := fs[|fes|])
    ensures forall i :: 0 <= i < |es| ==> es[i].Env?
  {
    ss := seq(|fs|, i requires 0 <= i < |fs| => s.(fleet := fs[i]));
    es := seq(|fes|, i requires 0 <= i < |fes| => Env(fes[i]));
    forall i | 0 <= i < |es| ensures CarefulStep(ss[i], es[i], ss[i + 1]) {
      assert StepOf(BundleKeys(s.ca), s.keystore)(fs[i], fes[i], fs[i + 1]);
    }
  }

  /** The fleet converges on its labels; `also` names pods that restart although they need not. */
  lemma Settle(s: Sys, also: set<PodId>) returns (ss: seq<Sys>, es: seq<Event>)
    requires Poised(s)
    ensures Path(ss, es, CarefulStep) && |ss| == |es| + 1 && ss[0] == s
    ensures ss[|es|] == s.(fleet := ss[|es|].fleet) && Poised(ss[|es|])
    ensures Settled(s.fleet, ss[|es|].fleet, also, BundleKeys(s.ca), s.keystore)
    ensures forall i :: 0 <= i < |es| ==> es[i].Env?
  {
    hide FleetStep, CaInv, CarefulStep, Path;
    var fs, fes := Converge(s.fleet, also, BundleKeys(s.ca), s.keystore);
    ss, es := Lift(s, fs, fes);
  }

  // ------------------------------------------------------------------ passes

  ghost predicate CanBegin(s: Sys, inp: RotationInputs, m: Material, pools: seq<Convergence.NodePool<Content>>,
                           sets: seq<Convergence.StatefulSet<Content>>)
  {
    && s.pass.NoPass? && inp.which == Cluster && m.key !in s.used
    && Issued(s.ca, inp, m) && OldSignerLive(s.ca, inp) && PassPatches(s.ca, inp, m).Ok?
    && Observes(s.fleet, pools, sets) && (inp.rolloutConverged <==> Convergence.Converged(pools, sets))
  }

  /** A pass begins. */
  lemma Begins(s: Sys, inp: RotationInputs, m: Material, pools: seq<Convergence.NodePool<Content>>,
               sets: seq<Convergence.StatefulSet<Content>>) returns (s': Sys)
    requires CanBegin(s, inp, m, pools, sets)
    ensures CarefulStep(s, Begin(inp, m, pools, sets), s')
    ensures s' == s.(pass := Running(CaPass(s.ca, inp, m, 0), Secrets), used := s.used + {m.key})
  {
    s' := s.(pass := Running(CaPass(s.ca, inp, m, 0), Secrets), used := s.used + {m.key});
  }

  /** The next patch of a pass lands. */
  lemma Patches1(s: Sys) returns (s': Sys)
    requires s.pass.Running? && s.pass.stage.Secrets? && s.pass.ca.Unfinished()
    requires s.ca == After(s.pass.ca.base, s.pass.ca.inp, s.pass.ca.m, s.pass.ca.sent)
    ensures CarefulStep(s, PatchSecret, s')
    ensures s' == s.(ca := After(s.pass.ca.base, s.pass.ca.inp, s.pass.ca.m, s.pass.ca.sent + 1),
                     pass := s.pass.(ca := s.pass.ca.(sent := s.pass.ca.sent + 1)), seen := s'.seen, led := s'.led)
  {
    var p := s.pass.ca;
    AfterSteps(p.base, p.inp, p.m);
    var ca' := ApplyPatch(s.ca, p.Ws()[p.sent]);
    s' := s.(ca := ca', pass := s.pass.(ca := p.(sent := p.sent + 1)),
             seen := s.seen + BundleKeys(ca'), led := s.led + StoredSigner(ca'));
  }

  /** The state after all patches of a two-patch pass. */
  ghost predicate Patched2(s: Sys, inp: RotationInputs, m: Material, s': Sys)
  {
    && |Patches(s.ca, inp, m)| == 2
    && s' == s.(ca := After(s.ca, inp, m, 2), pass := Running(CaPass(s.ca, inp, m, 2), Secrets),
                used := s.used + {m.key}, seen := s'.seen, led := s'.led)
  }

  /** All CA patches of a two-patch pass. */
  lemma CaStage(s: Sys, inp: RotationInputs, m: Material, pools: seq<Convergence.NodePool<Content>>,
                sets: seq<Convergence.StatefulSet<Content>>) returns (ss: seq<Sys>, es: seq<Event>)
    requires CanBegin(s, inp, m, pools, sets) && |Patches(s.ca, inp, m)| == 2
    ensures Path(ss, es, CarefulStep) && |es| == 3 && |ss| == 4 && ss[0] == s
    ensures ss[2] == s.(ca := After(s.ca, inp, m, 1), pass := Running(CaPass(s.ca, inp, m, 1), Secrets),
                        used := s.used + {m.key}, seen := ss[2].seen, led := ss[2].led)
    ensures Patched2(s, inp, m, ss[3])
  {
    hide Step, Careful, Issued, OldSignerLive, PassPatches, Observes, CarefulStep;
    AfterSteps(s.ca, inp, m);
    var s1 := Begins(s, inp, m, pools, sets);
    var s2 := Patches1(s1);
    var s3 := Patches1(s2);
    ss, es := [s, s1, s2, s3], [Begin(inp, m, pools, sets), PatchSecret, PatchSecret];
    assert CarefulStep(s, es[0], s1) && CarefulStep(s1, es[1], s2) && CarefulStep(s2, es[2], s3);
  }

  /** The operator renews its identity after the CA patches. */
  lemma RenewOperator(s: Sys) returns (s': Sys)
    requires s.pass.Running? && s.pass.stage.Secrets? && !s.pass.ca.Unfinished() && Present(s.ca)
    ensures CarefulStep(s, EnsureOperatorCert(true), s')
    ensures s' == s.(pass := s.pass.(stage := Tls), operator := Some(Identity(s.ca.keySecret.value.key, BundleKeys(s.ca))))
  {
    s' := s.(pass := s.pass.(stage := Tls), operator := Some(Identity(s.ca.keySecret.value.key, BundleKeys(s.ca))));
  }

  /** The keystore is reissued, or filled for the first time, for every broker. */
  lemma FillKeystore(s: Sys, rest: nat) returns (s': Sys, ks: map<PodId, Key>)
    requires s.pass.Running? && s.pass.stage.Tls? && Present(s.ca)
    ensures CarefulStep(s, EnsureKeystore(ks, rest, NoneReady(|s.fleet.pools|)), s')
    ensures ks.Keys == s.fleet.pods.Keys && forall p :: p in ks ==> ks[p] == s.ca.keySecret.value.key
    ensures s' == s.(keystore := ks, pass := s.pass.(stage := ToAdopt(s, rest, NoneReady(|s.fleet.pools|))))
  {
    ks := map p | p in s.fleet.pods :: s.ca.keySecret.value.key;
    s' := s.(keystore := ks, pass := s.pass.(stage := ToAdopt(s, rest, NoneReady(|s.fleet.pools|))));
  }

  lemma {:induction false} AdoptUpTo(s: Sys, k: nat) returns (ss: seq<Sys>, es: seq<Event>)
    requires s.pass.Running? && s.pass.stage.Adopt? && s.pass.stage.j == 0
    requires k <= |s.pass.stage.hashes| == |s.fleet.pools|
    ensures Path(ss, es, CarefulStep) && |ss| == |es| + 1 && ss[0] == s
    ensures Labelled(s.fleet, ss[|es|].fleet, s.pass.stage.hashes, k)
    ensures ss[|es|] == s.(fleet := ss[|es|].fleet, pass := s.pass.(stage := s.pass.stage.(j := k)))
  {
    if k == 0 {
      ss, es := Stay(s, CarefulStep);
    } else {
      ss, es := AdoptUpTo(s, k - 1);
      var t := ss[|es|];
      var t' := t.(fleet := Relabel(t.fleet, k - 1, s.pass.stage.hashes[k - 1]), pass := t.pass.(stage := t.pass.stage.(j := k)));
      assert CarefulStep(t, AdoptPool, t');
      ss, es := Next(ss, es, AdoptPool, t', CarefulStep);
    }
  }

  /** All labels are written and the pass ends. */
  lemma AdoptAll(s: Sys) returns (ss: seq<Sys>, es: seq<Event>)
    requires s.pass.Running? && s.pass.stage.Adopt? && s.pass.stage.j == 0
    requires |s.pass.stage.hashes| == |s.fleet.pools|
    ensures Path(ss, es, CarefulStep) && |ss| == |es| + 1 && ss[0] == s
    ensures Labelled(s.fleet, ss[|es|].fleet, s.pass.stage.hashes, |s.fleet.pools|)
    ensures ss[|es|] == s.(fleet := ss[|es|].fleet, pass := NoPass)
  {
    ss, es := AdoptUpTo(s, |s.fleet.pools|);
    var t := ss[|es|];
    var t' := t.(pass := NoPass);
    assert CarefulStep(t, Finish, t');
    ss, es := Next(ss, es, Finish, t', CarefulStep);
  }

  /** A pass that finds the roll in flight: no CA patch, no keystore, only labels. */
  lemma LabelPass(s: Sys, rest: nat) returns (ss: seq<Sys>, es: seq<Event>)
    requires s.pass.NoPass? && CaInv(s.ca) && !ViewOf(s.ca).Fresh? && !ViewOf(s.ca).Steady? && WellFormed(s.fleet)
    ensures Path(ss, es, CarefulStep) && |ss| == |es| + 1 && ss[0] == s
    ensures
      var s' := ss[|es|];
      var hs := Rollout.Planned(RolloutView(s.fleet, NoneReady(|s.fleet.pools|)), Content(s.ca.certSecret.value.bundle, rest));
      && Labelled(s.fleet, s'.fleet, hs, |s.fleet.pools|)
      && s'.ca == s.ca && s'.keystore == s.keystore && s'.pass == NoPass
  {
    var pools, sets := Unlisted(s.fleet);
    var k := FreshKey(s.used);
    var s1 := Begins(s, Inputs(Cluster, NoForce, false, 0), Generated(k), pools, sets);
    var s2 := RenewOperator(s1);
    var ready := NoneReady(|s.fleet.pools|);
    var s3 := s2.(pass := s2.pass.(stage := ToAdopt(s2, rest, ready)));
    assert CarefulStep(s2, SkipKeystore(rest, ready), s3);
    ss, es := [s, s1, s2, s3], [Begin(Inputs(Cluster, NoForce, false, 0), Generated(k), pools, sets), EnsureOperatorCert(true), SkipKeystore(rest, ready)];
    assert CarefulStep(s, es[0], s1) && CarefulStep(s1, es[1], s2) && CarefulStep(s2, es[2], s3);
    assert Path(ss, es, CarefulStep);
    var tt, fs := AdoptAll(s3);
    ss, es := Then(ss, es, tt, fs, CarefulStep);
  }

  // ----------------------------------------------------------------- rolling

  /** Only the first pool moves to a content that no pool has. */
  lemma PlansFirst(f: Fleet<Key>, c: Content, old_: Content)
    requires f.pools != [] && c != old_ && forall i :: 0 <= i < |f.pools| ==> f.pools[i].stamp == Some(old_)
    ensures
      var hs := Rollout.Planned(RolloutView(f, NoneReady(|f.pools|)), c);
      |hs| == |f.pools| && hs[0] == c && forall i :: 1 <= i < |hs| ==> hs[i] == old_
  {
    var view := RolloutView(f, NoneReady(|f.pools|));
    assert Rollout.Established(view, c);
    Rollout.GateUnique(view, c, 0);
  }

  /** Two old contents in use, or a single pool: everything moves at once. */
  lemma PlansAll(f: Fleet<Key>, c: Content)
    requires f.pools != [] && f.pools[0].stamp != Some(c)
    requires |f.pools| > 1 ==> f.pools[1].stamp != Some(c) && f.pools[0].stamp != f.pools[1].stamp
    ensures
      var hs := Rollout.Planned(RolloutView(f, NoneReady(|f.pools|)), c);
      |hs| == |f.pools| && forall i :: 0 <= i < |hs| ==> hs[i] == c
  {
    var view := RolloutView(f, NoneReady(|f.pools|));
    if |f.pools| > 1 {
      assert view[0].currentHash == f.pools[0].stamp && view[1].currentHash == f.pools[1].stamp;
      assert !Rollout.Established(view, c);
    }
  }

  /** A pass about to write its labels, and the next one, bring all labels to one new content. */
  lemma RelabelTwice(s: Sys, old_: Content) returns (ss: seq<Sys>, es: seq<Event>)
    requires s.pass.Running? && CaInv(s.ca) && (ViewOf(s.ca).Widened? || ViewOf(s.ca).Promoted?) && WellFormed(s.fleet)
    requires forall i :: 0 <= i < |s.fleet.pools| ==> s.fleet.pools[i].stamp == Some(old_)
    requires s.pass.stage == ToAdopt(s, old_.rest + 1, NoneReady(|s.fleet.pools|))
    ensures Path(ss, es, CarefulStep) && |ss| == |es| + 1 && ss[0] == s
    ensures
      var s' := ss[|es|];
      && s'.ca == s.ca && s'.keystore == s.keystore && s'.pass == NoPass
      && WellFormed(s'.fleet) && Uniform(s'.fleet) && s'.fleet.pods == s.fleet.pods
  {
    hide CarefulStep, Path, CaInv, Rollout.Planned;
    var bundle := s.ca.certSecret.value.bundle;
    var c1, c2 := Content(bundle, old_.rest + 1), Content(bundle, old_.rest + 2);
    PlansFirst(s.fleet, c1, old_);
    ss, es := AdoptAll(s);
    var t := ss[|es|];
    assert WellFormed(t.fleet);
    PlansAll(t.fleet, c2);
    var tt, fs := LabelPass(t, c2.rest);
    ss, es := Then(ss, es, tt, fs, CarefulStep);
    var u := tt[|fs|];
    assert forall i :: 0 <= i < |u.fleet.pools| ==> u.fleet.pools[i].stamp == Some(c2);
  }
}
