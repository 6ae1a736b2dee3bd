/** Every step of the cluster-trust system keeps its invariant, one lemma per kind of step. */
module ClusterTrustProof {
  import opened Options
  import opened CaRotation
  import opened CaViews
  import opened CaPass
  import opened Fleet
  import opened ClusterTrust
  import Convergence

  lemma BeginKeeps(s: Sys, e: Event, s': Sys)
    requires Inv(s) && Step(s, e, s') && e.Begin?
    ensures Inv(s')
  {
    BeginCa(s.ca, s'.pass.ca, s'.used, s'.seen);
    if e.inp.rolloutConverged {
      ObservedConverged(s.fleet, e.pools, e.sets);
      ConvergedBrokers(s);
    }
  }

  /** A converged fleet has every broker up, on one label and in the keystore. */
  lemma ConvergedBrokers(s: Sys)
    requires Inv(s) && FleetConverged(s.fleet)
    ensures Uniform(s.fleet) && Stocked(s)
    ensures forall p :: p in s.fleet.pods ==> OnLabel(s.fleet, p)
  {
  }

  /** What one CA patch does to the view, and what it leaves alone. */
  ghost predicate Patched(s: Sys, s': Sys)
    requires CaInv(s.ca)
  {
    && CaInv(s'.ca)
    && s.pass.Running? && s.pass.stage.Secrets? && s.pass.ca.Unfinished()
    && Edge(s.pass.ca.Plan(), s.pass.ca.m, s.pass.ca.sent, ViewOf(s.ca), ViewOf(s'.ca))
    && BundleKeys(s'.ca) == ViewOf(s'.ca).Trusted()
    && StoredSigner(s'.ca) <= ViewOf(s'.ca).Trusted()
    && |s.pass.ca.Ws()| <= 2
    && (s.pass.ca.Plan() in {Create, Rotate(StartKeyReplace), Rotate(PromoteNewKey)} ==> |s.pass.ca.Ws()| == 2)
    && s' == s.(ca := s'.ca, pass := s.pass.(ca := s.pass.ca.(sent := s.pass.ca.sent + 1)),
                seen := s.seen + BundleKeys(s'.ca), led := s.led + StoredSigner(s'.ca))
  }

  lemma KnownGrows(f: Fleet<Key>, seen: set<Key>, led: set<Key>, seen': set<Key>, led': set<Key>)
    requires Contents(f, c => Known(c, seen, led)) && seen <= seen' && led <= led'
    ensures Contents(f, c => Known(c, seen', led'))
  {
  }

  /** A key that no hash in circulation names is carried for free. */
  lemma CarriedFresh(f: Fleet<Key>, ks: set<Key>, ks': set<Key>, seen: set<Key>, led: set<Key>)
    requires WellFormed(f) && Contents(f, c => Known(c, seen, led)) && Carried(f, ks)
    requires forall k :: k in ks' && k in seen ==> k in ks
    ensures Carried(f, ks')
  {
    forall p, k | p in f.pods && f.pods[p].Up? && k in ks' && k in KeysOf(f.pods[p].rev.bundle)
      ensures k in f.pods[p].trust
    {
      assert Known(f.pods[p].rev, seen, led);
    }
  }

  lemma PatchHistory(s: Sys, e: Event, s': Sys)
    requires Inv(s) && Patched(s, s')
    ensures HistoryInv(s')
  {
    KnownGrows(s.fleet, s.seen, s.led, s'.seen, s'.led);
    CarriedFresh(s.fleet, ViewOf(s.ca).Trusted(), ViewOf(s'.ca).Trusted(), s.seen, s.led);
  }

  lemma PatchPhase(s: Sys, e: Event, s': Sys)
    requires Inv(s) && Patched(s, s')
    ensures PhaseInv(s')
  {
    hide Contents, Carried, Known, KeysOf, PassCa, Committed;
  }

  lemma PatchPassFleet(s: Sys, e: Event, s': Sys)
    requires Inv(s) && Patched(s, s')
    ensures PassFleet(s')
  {
  }

  lemma PatchGate(s: Sys, e: Event, s': Sys)
    requires Inv(s) && Patched(s, s')
    ensures GateInv(s')
  {
    hide Carried, TrustFrom;
  }

  lemma PatchKeeps(s: Sys, e: Event, s': Sys)
    requires Inv(s) && Step(s, e, s') && e.PatchSecret?
    ensures Inv(s')
  {
    hide Contents, Carried, Known, KeysOf, Parties, FleetStep, KeystorePatched;
    PatchCa(s.ca, s.pass.ca, s.used, s.seen);
    PatchKeepsPass(s.ca, s.pass.ca, s.used, s.seen);
    PatchHistory(s, e, s');
    PatchPhase(s, e, s');
    PatchPassFleet(s, e, s');
    PatchGate(s, e, s');
  }

  lemma OperatorKeeps(s: Sys, e: Event, s': Sys)
    requires Inv(s) && Step(s, e, s') && e.EnsureOperatorCert?
    ensures Inv(s')
  {
    hide Contents, Carried, Known, PassCa, FleetStep, KeysOf, LabelLeafs, AnnouncedLeafs;
    StoredKeys(s.ca);
  }

  ghost predicate ToLabels(s: Sys, e: Event, s': Sys)
  {
    Step(s, e, s') && (e.EnsureKeystore? || e.SkipKeystore?) && Careful(s, e)
  }

  lemma KeystoreHistory(s: Sys, e: Event, s': Sys)
    requires Inv(s) && ToLabels(s, e, s')
    ensures HistoryInv(s') && PhaseInv(s')
  {
  }

  lemma KeystorePass(s: Sys, e: Event, s': Sys)
    requires Inv(s) && ToLabels(s, e, s')
    ensures PassInv(s')
  {
    StoredKeys(s.ca);
    var c := Content(s.ca.certSecret.value.bundle, e.rest);
    assert Known(c, s.seen, s.led);
    PlannedContents(s.fleet, e.ready, c, c => Known(c, s.seen, s.led));
  }

  lemma KeystoreGate(s: Sys, e: Event, s': Sys)
    requires Inv(s) && ToLabels(s, e, s')
    ensures GateInv(s')
  {
    hide Contents, Carried, Known, TrustFrom, PassCa, FleetStep, LabelLeafs, AnnouncedLeafs, KeysOf;
    StoredKeys(s.ca);
    assert BundleKeys(s.ca) == ViewOf(s.ca).Trusted();
  }

  lemma KeystoreKeeps(s: Sys, e: Event, s': Sys)
    requires Inv(s) && ToLabels(s, e, s')
    ensures Inv(s')
  {
    KeystoreHistory(s, e, s');
    KeystorePass(s, e, s');
    KeystoreGate(s, e, s');
  }

  lemma AdoptKeeps(s: Sys, e: Event, s': Sys)
    requires Inv(s) && Step(s, e, s') && e.AdoptPool?
    ensures Inv(s')
  {
    hide PassCa, FleetStep, KeystorePatched;
    StoredKeys(s.ca);
  }

  lemma EndKeeps(s: Sys, e: Event, s': Sys)
    requires Inv(s) && Step(s, e, s') && (e.Finish? || e.Crash?) && Careful(s, e)
    ensures Inv(s')
  {
    hide Contents, Carried, Known, TrustFrom, FleetStep, KeysOf;
  }

  lemma CronHistory(s: Sys, e: Event, s': Sys)
    requires Inv(s) && Step(s, e, s') && e.CronRenew?
    ensures HistoryInv(s') && PassInv(s')
  {
    hide Contents, Carried, Known, TrustFrom, PassCa, FleetStep, KeysOf, PhaseInv, GateInv;
    assert s'.keystore.Keys == s.keystore.Keys;
  }

  lemma CronPhase(s: Sys, e: Event, s': Sys)
    requires Inv(s) && Step(s, e, s') && e.CronRenew?
    ensures PhaseInv(s')
  {
    hide Contents, Carried, Known, TrustFrom, PassCa, FleetStep, KeysOf, GateInv, PassFleet;
  }

  lemma CronGate(s: Sys, e: Event, s': Sys)
    requires Inv(s) && Step(s, e, s') && e.CronRenew?
    ensures GateInv(s')
  {
    hide Contents, Carried, Known, TrustFrom, PassCa, FleetStep, KeysOf, LabelLeafs, AnnouncedLeafs, TrustLags, Uniform, PhaseInv;
    assert s'.keystore.Keys == s.keystore.Keys;
  }

  lemma CronKeeps(s: Sys, e: Event, s': Sys)
    requires Inv(s) && Step(s, e, s') && e.CronRenew?
    ensures Inv(s')
  {
    CronHistory(s, e, s');
    CronPhase(s, e, s');
    CronGate(s, e, s');
  }

  lemma EnvHistory(s: Sys, e: Event, s': Sys)
    requires Inv(s) && Step(s, e, s') && e.Env?
    ensures HistoryInv(s')
  {
    hide Parties, PassCa, KeystorePatched, PassPatches, Known, Contents, Carried, TrustFrom, PhaseInv, GateInv, PassFleet;
    StoredKeys(s.ca);
    FleetStepKeeps(s.fleet, e.e, s'.fleet, BundleKeys(s.ca), s.keystore, BundleKeys(s.ca), c => Known(c, s.seen, s.led));
    FleetStepTrusts(s.fleet, e.e, s'.fleet, BundleKeys(s.ca), s.keystore, 0, s.seen);
  }

  /** Trust and leafs that pods load now keep what holds of the Secrets they load. */
  lemma FleetStepParties(f: Fleet<Key>, e: FleetEvent, f': Fleet<Key>, trust: set<Key>, leafs: map<PodId, Key>, ks: set<Key>)
    requires FleetStep(f, e, f', trust, leafs)
    ensures TrustAll(f, ks) && ks <= trust ==> TrustAll(f', ks)
    ensures LeafsIn(f, ks) && KeystoreIn(leafs, ks) ==> LeafsIn(f', ks)
  {
  }

  lemma EnvPhase(s: Sys, e: Event, s': Sys)
    requires Inv(s) && Step(s, e, s') && e.Env?
    ensures PhaseInv(s')
  {
    StoredKeys(s.ca);
    var v := ViewOf(s.ca);
    if v.Fresh? {
      assert AllDown(s'.fleet);
    } else {
      var leafs := if v.Widened? then {v.o} else v.Trusted();
      FleetStepParties(s.fleet, e.e, s'.fleet, BundleKeys(s.ca), s.keystore, leafs);
      FleetStepParties(s.fleet, e.e, s'.fleet, BundleKeys(s.ca), s.keystore, v.Trusted());
    }
  }

  lemma EnvPass(s: Sys, e: Event, s': Sys)
    requires Inv(s) && Step(s, e, s') && e.Env?
    ensures PassInv(s')
  {
    hide Carried, PassCa, CaInv, KeystorePatched, PassPatches, Contents, Known, Uniform, TrustLags, TrustFrom;
    StoredKeys(s.ca);
    var v := ViewOf(s.ca);
    FleetStepParties(s.fleet, e.e, s'.fleet, BundleKeys(s.ca), s.keystore, v.Trusted());
    if v.Promoted? {
      FleetStepParties(s.fleet, e.e, s'.fleet, BundleKeys(s.ca), s.keystore, {v.n});
    }
    FleetStepLabels(s.fleet, e.e, s'.fleet, BundleKeys(s.ca), s.keystore);
  }

  lemma FleetStepAnnounced(f: Fleet<Key>, e: FleetEvent, f': Fleet<Key>, trust: set<Key>, keystore: map<PodId, Key>, n: Key)
    requires WellFormed(f) && FleetStep(f, e, f', trust, keystore) && AnnouncedLeafs(f, n)
    requires KeystoreIn(keystore, {n}) || Contents(f, (c: Content) => SignerOf(c.bundle) != {n})
    ensures AnnouncedLeafs(f', n)
  {
  }

  lemma FleetStepUnannounced(f: Fleet<Key>, e: FleetEvent, f': Fleet<Key>, trust: set<Key>, keystore: map<PodId, Key>, n: Key)
    requires WellFormed(f) && FleetStep(f, e, f', trust, keystore)
    requires Contents(f, (c: Content) => SignerOf(c.bundle) != {n})
    ensures Contents(f', (c: Content) => SignerOf(c.bundle) != {n})
  {
  }

  lemma FleetStepLabelLeafs(f: Fleet<Key>, e: FleetEvent, f': Fleet<Key>, trust: set<Key>, keystore: map<PodId, Key>, n: Key)
    requires WellFormed(f) && FleetStep(f, e, f', trust, keystore) && LabelLeafs(f, n) && KeystoreIn(keystore, {n})
    ensures LabelLeafs(f', n)
  {
    FleetStepLabels(f, e, f', trust, keystore);
    forall p | Uniform(f') && OnLabel(f', p) ensures f'.pods[p].leaf == n {
      assert f'.pods[p] == f.pods[p] ==> OnLabel(f, p);
      assert f.pods[p].Up? && f'.pods[p].leaf == f.pods[p].leaf && f'.pods[p].rev == f.pods[p].rev ==> OnLabel(f, p);
    }
  }

  /** A promoted CA whose keystore is still to be reissued is in the committed window. */
  lemma ReissuingIsCommitted(s: Sys)
    requires Inv(s) && ViewOf(s.ca).Promoted? && Reissuing(s)
    ensures Committed(s)
  {
  }

  lemma EnvWidened(s: Sys, e: Event, s': Sys)
    requires Inv(s) && Step(s, e, s') && e.Env? && ViewOf(s.ca).Widened?
    ensures GateInv(s')
  {
    hide Carried, Parties, PassCa, KeystorePatched, PassPatches, Known, Contents, TrustLags, Uniform;
    StoredKeys(s.ca);
    FleetStepLabels(s.fleet, e.e, s'.fleet, BundleKeys(s.ca), s.keystore);
    FleetStepTrusts(s.fleet, e.e, s'.fleet, BundleKeys(s.ca), s.keystore, ViewOf(s.ca).n, s.seen);
  }

  lemma EnvPromoted(s: Sys, e: Event, s': Sys)
    requires Inv(s) && Step(s, e, s') && e.Env? && ViewOf(s.ca).Promoted?
    ensures GateInv(s')
  {
    hide Carried, Parties, PassCa, KeystorePatched, PassPatches, Known, Contents, LabelLeafs, CaInv;
    var n := ViewOf(s.ca).n;
    FleetStepAnnounced(s.fleet, e.e, s'.fleet, BundleKeys(s.ca), s.keystore, n);
    if Reissuing(s) {
      ReissuingIsCommitted(s);
      FleetStepUnannounced(s.fleet, e.e, s'.fleet, BundleKeys(s.ca), s.keystore, n);
    } else if !Committed(s) {
      FleetStepLabelLeafs(s.fleet, e.e, s'.fleet, BundleKeys(s.ca), s.keystore, n);
    }
  }

  lemma EnvGate(s: Sys, e: Event, s': Sys)
    requires Inv(s) && Step(s, e, s') && e.Env?
    ensures GateInv(s')
  {
    hide Carried, Parties, PassCa, CaInv, KeystorePatched, PassPatches, Known, Contents, LabelLeafs, Unprepared, AnnouncedLeafs;
    var v := ViewOf(s.ca);
    FleetStepLabels(s.fleet, e.e, s'.fleet, BundleKeys(s.ca), s.keystore);
    if v.Widened? {
      EnvWidened(s, e, s');
    } else if v.Promoted? {
      EnvPromoted(s, e, s');
    }
  }

  lemma EnvKeeps(s: Sys, e: Event, s': Sys)
    requires Inv(s) && Step(s, e, s') && e.Env?
    ensures Inv(s')
  {
    EnvHistory(s, e, s');
    EnvPhase(s, e, s');
    EnvPass(s, e, s');
    EnvGate(s, e, s');
  }

  lemma StepKeepsInv(s: Sys, e: Event, s': Sys)
    requires Inv(s) && Step(s, e, s') && Careful(s, e)
    ensures Inv(s')
  {
    hide Inv, Step, Careful;
    match e {
      case Begin(_, _, _, _) => BeginKeeps(s, e, s');
      case PatchSecret => PatchKeeps(s, e, s');
      case EnsureOperatorCert(_) => OperatorKeeps(s, e, s');
      case EnsureKeystore(_, _, _) => KeystoreKeeps(s, e, s');
      case SkipKeystore(_, _) => KeystoreKeeps(s, e, s');
      case AdoptPool => AdoptKeeps(s, e, s');
      case Finish => EndKeeps(s, e, s');
      case Crash => EndKeeps(s, e, s');
      case CronRenew(_) => CronKeeps(s, e, s');
      case Env(_) => EnvKeeps(s, e, s');
    }
  }

  lemma {:induction false} RunInv(ss: seq<Sys>, es: seq<Event>, i: nat)
    requires Run(ss, es) && i < |ss|
    requires forall j :: 0 <= j < |es| ==> Careful(ss[j], es[j])
    ensures Inv(ss[i])
  {
    if i > 0 {
      RunInv(ss, es, i - 1);
      StepKeepsInv(ss[i - 1], es[i - 1], ss[i]);
    }
  }

  /**
   Trust continuity at every moment of every careful run: any two running
   brokers, and the operator with any of them, can verify each other's leaf.
   */
  lemma TrustContinuity(ss: seq<Sys>, es: seq<Event>, i: nat, p: PodId, q: PodId)
    requires Run(ss, es) && i < |ss| && p in ss[i].fleet.pods && q in ss[i].fleet.pods
    requires forall j :: 0 <= j < |es| ==> Careful(ss[j], es[j])
    requires ss[i].fleet.pods[p].Up? && ss[i].fleet.pods[q].Up?
    ensures ss[i].fleet.pods[p].leaf in ss[i].fleet.pods[q].trust
    ensures ss[i].operator.Some? ==>
      && ss[i].operator.value.leaf in ss[i].fleet.pods[p].trust
      && ss[i].fleet.pods[p].leaf in ss[i].operator.value.trust
  {
    hide Inv;
    RunInv(ss, es, i);
    InvImpliesContinuous(ss[i]);
  }

  /**
   Between passes of a careful run a positive check means that every broker is
   ready for the next step: all trust the staged key before it is promoted, and
   all serve a leaf of the promoted key before the old one is pruned.
   */
  lemma ConvergedIsPrepared(ss: seq<Sys>, es: seq<Event>, i: nat,
                            pools: seq<Convergence.NodePool<Content>>, sets: seq<Convergence.StatefulSet<Content>>)
    requires Run(ss, es) && i < |ss| && ss[i].pass.NoPass?
    requires forall j :: 0 <= j < |es| ==> Careful(ss[j], es[j])
    requires Observes(ss[i].fleet, pools, sets) && Convergence.Converged(pools, sets)
    ensures CaInv(ss[i].ca)
    ensures
      var v, f := ViewOf(ss[i].ca), ss[i].fleet;
      && (v.Widened? || v.Crossed? ==> TrustAll(f, {v.o, v.n}))
      && (v.Promoted? ==> LeafsIn(f, {v.n}))
  {
    RunInv(ss, es, i);
    ObservedConverged(ss[i].fleet, pools, sets);
    ConvergedBrokers(ss[i]);
    PreparedBrokers(ss[i]);
  }

  lemma PreparedBrokers(s: Sys)
    requires Inv(s) && s.pass.NoPass? && FleetConverged(s.fleet)
    ensures
      var v, f := ViewOf(s.ca), s.fleet;
      && (v.Widened? || v.Crossed? ==> TrustAll(f, {v.o, v.n}))
      && (v.Promoted? ==> LeafsIn(f, {v.n}))
  {
    hide Known, Contents, Carried, PassCa;
    ConvergedBrokers(s);
    if ViewOf(s.ca).Widened? {
      ConvergedTrusts(s.fleet, ViewOf(s.ca).n);
    }
  }
}
