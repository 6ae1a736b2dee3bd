/**
 A key replacement can always be completed: from every careful state in the
 middle of one, also in the middle of a pass, careful steps lead to an idle CA
 that the new key signs.
 */
module ClusterProgress {
  import opened Options
  import opened CaRotation
  import opened CaViews
  import opened CaPass
  import opened Fleet
  import opened FleetRuns
  import opened Paths
  import opened ClusterTrust
  import opened ClusterTrustMoves
  import opened ClusterTrustLimits
  import ClusterTrustReach
  import ClusterTrustProof
  import Rollout

  // ----------------------------------------------------------- finishing a pass

  lemma PatchHeads(s: Sys, s': Sys, n: Key)
    requires Inv(s) && Step(s, PatchSecret, s') && Heading(s.ca, n) && Midway(s.ca)
    ensures CaInv(s'.ca) && Heading(s'.ca, n)
    ensures ViewOf(s'.ca).Steady? ==> !s'.pass.ca.Unfinished()
  {
    hide Contents, Carried, Known, Parties, KeysOf, GateInv, PhaseInv, HistoryInv;
    PatchCa(s.ca, s.pass.ca, s.used, s.seen);
  }

  /** The CA stage is completed, patch by patch. */
  lemma {:induction false} CompleteSecrets(s: Sys, n: Key) returns (ss: seq<Sys>, es: seq<Event>)
    requires Inv(s) && s.pass.Running? && s.pass.stage.Secrets? && Heading(s.ca, n) && Midway(s.ca)
    ensures Path(ss, es, CarefulStep) && |ss| == |es| + 1 && ss[0] == s
    ensures
      var s' := ss[|es|];
      Inv(s') && s'.pass.Running? && s'.pass.stage.Secrets? && Heading(s'.ca, n) && !s'.pass.ca.Unfinished()
    decreases |s.pass.ca.Ws()| - s.pass.ca.sent
  {
    if !s.pass.ca.Unfinished() {
      ss, es := Stay(s, CarefulStep);
    } else {
      PassIsAfter(s);
      var t := Patches1(s);
      PatchHeads(s, t, n);
      ClusterTrustProof.StepKeepsInv(s, PatchSecret, t);
      ss, es := Stay(s, CarefulStep);
      ss, es := Next(ss, es, PatchSecret, t, CarefulStep);
      hide Inv, CarefulStep, Path;
      if !ViewOf(t.ca).Steady? {
        var tt, fs := CompleteSecrets(t, n);
        ss, es := Then(ss, es, tt, fs, CarefulStep);
      }
    }
  }

  lemma PassIsAfter(s: Sys)
    requires Inv(s) && s.pass.Running? && s.pass.stage.Secrets?
    ensures s.ca == After(s.pass.ca.base, s.pass.ca.inp, s.pass.ca.m, s.pass.ca.sent)
  {
  }

  /** The remaining labels are written and the pass ends. */
  lemma {:induction false} AdoptRest(s: Sys) returns (ss: seq<Sys>, es: seq<Event>)
    requires s.pass.Running? && s.pass.stage.Adopt? && s.pass.stage.j <= |s.pass.stage.hashes| == |s.fleet.pools|
    ensures Path(ss, es, CarefulStep) && |ss| == |es| + 1 && ss[0] == s
    ensures ss[|es|] == s.(fleet := ss[|es|].fleet, pass := NoPass)
    decreases |s.pass.stage.hashes| - s.pass.stage.j
  {
    ss, es := Stay(s, CarefulStep);
    var j := s.pass.stage.j;
    if j == |s.pass.stage.hashes| {
      var t := s.(pass := NoPass);
      assert CarefulStep(s, Finish, t);
      ss, es := Next(ss, es, Finish, t, CarefulStep);
    } else {
      var t := s.(fleet := Relabel(s.fleet, j, s.pass.stage.hashes[j]), pass := s.pass.(stage := s.pass.stage.(j := j + 1)));
      assert CarefulStep(s, AdoptPool, t);
      ss, es := Next(ss, es, AdoptPool, t, CarefulStep);
      var tt, fs := AdoptRest(t);
      ss, es := Then(ss, es, tt, fs, CarefulStep);
    }
  }

  /** From its labels, or from before its keystore, a pass can run to its end. */
  lemma FinishTls(s: Sys) returns (ss: seq<Sys>, es: seq<Event>)
    requires s.pass.Running? && s.pass.stage.Tls? && Present(s.ca)
    ensures Path(ss, es, CarefulStep) && |ss| == |es| + 1 && ss[0] == s
    ensures ss[|es|].ca == s.ca && ss[|es|].pass == NoPass
  {
    hide CarefulStep, Path, Rollout.Planned;
    var t, ks := FillKeystore(s, 0);
    ss, es := Stay(s, CarefulStep);
    ss, es := Next(ss, es, EnsureKeystore(ks, 0, NoneReady(|s.fleet.pools|)), t, CarefulStep);
    PlannedSize(s.fleet, Content(s.ca.certSecret.value.bundle, 0));
    var tt, fs := AdoptRest(t);
    ss, es := Then(ss, es, tt, fs, CarefulStep);
  }

  lemma PlannedSize(f: Fleet<Key>, c: Content)
    ensures |Rollout.Planned(RolloutView(f, NoneReady(|f.pools|)), c)| == |f.pools|
  {
  }

  /** A running pass can run to its end. */
  lemma FinishPass(s: Sys, n: Key) returns (ss: seq<Sys>, es: seq<Event>)
    requires Inv(s) && s.pass.Running? && Heading(s.ca, n) && Midway(s.ca)
    ensures Path(ss, es, CarefulStep) && |ss| == |es| + 1 && ss[0] == s
    ensures ss[|es|].pass == NoPass && CaInv(ss[|es|].ca) && Heading(ss[|es|].ca, n)
  {
    hide Inv, CarefulStep, Path, CaInv;
    RunningFacts(s);
    ss, es := Stay(s, CarefulStep);
    var tt, fs;
    if s.pass.stage.Secrets? {
      ss, es := CompleteSecrets(s, n);
      var t := ss[|es|];
      RunningFacts(t);
      NotFresh(t.ca, n);
      var u := RenewOperator(t);
      ss, es := Next(ss, es, EnsureOperatorCert(true), u, CarefulStep);
      tt, fs := FinishTls(u);
    } else if s.pass.stage.Tls? {
      NotFresh(s.ca, n);
      tt, fs := FinishTls(s);
    } else {
      tt, fs := AdoptRest(s);
    }
    ss, es := Then(ss, es, tt, fs, CarefulStep);
  }

  lemma RunningFacts(s: Sys)
    requires Inv(s)
    ensures CaInv(s.ca) && WellFormed(s.fleet)
    ensures s.pass.Running? && s.pass.stage.Adopt? ==> s.pass.stage.j <= |s.pass.stage.hashes| == |s.fleet.pools|
  {
  }

  lemma NotFresh(ca: Store, n: Key)
    requires CaInv(ca) && Heading(ca, n)
    ensures Present(ca) && !ViewOf(ca).Fresh?
  {
  }

  // -------------------------------------------------------------- getting ready

  /** A pass that finds the roll in flight fills the keystore and writes labels. */
  lemma Restock(s: Sys) returns (ss: seq<Sys>, es: seq<Event>)
    requires s.pass.NoPass? && CaInv(s.ca) && Midway(s.ca) && WellFormed(s.fleet)
    ensures Path(ss, es, CarefulStep) && |ss| == |es| + 1 && ss[0] == s
    ensures ss[|es|].pass == NoPass && ss[|es|].ca == s.ca && Stocked(ss[|es|])
  {
    hide CarefulStep, Path, Rollout.Planned, Observes;
    var pools, sets := Unlisted(s.fleet);
    var k := FreshKey(s.used);
    var inp := Inputs(Cluster, NoForce, false, 0);
    var a := Begins(s, inp, Generated(k), pools, sets);
    ss, es := Stay(s, CarefulStep);
    ss, es := Next(ss, es, Begin(inp, Generated(k), pools, sets), a, CarefulStep);
    var tt, fs := ClusterTrustReach.TlsStage(a, 0);
    ss, es := Then(ss, es, tt, fs, CarefulStep);
    PlannedSize(s.fleet, Content(s.ca.certSecret.value.bundle, 0));
    tt, fs := AdoptAll(tt[2]);
    ss, es := Then(ss, es, tt, fs, CarefulStep);
  }

  /** One more pass makes labels agree. */
  lemma Agree(s: Sys) returns (ss: seq<Sys>, es: seq<Event>)
    requires s.pass.NoPass? && CaInv(s.ca) && Midway(s.ca) && WellFormed(s.fleet) && Stocked(s)
    ensures Path(ss, es, CarefulStep) && |ss| == |es| + 1 && ss[0] == s
    ensures ss[|es|].ca == s.ca && Poised(ss[|es|])
  {
    hide CarefulStep, Path, Rollout.Planned, CaInv;
    if Uniform(s.fleet) {
      ss, es := Stay(s, CarefulStep);
    } else {
      var rest := FreshRest(s.fleet.pools);
      PlansMixed(s.fleet, Content(s.ca.certSecret.value.bundle, rest));
      ss, es := LabelPass(s, rest);
      var t := ss[|es|];
      assert WellFormed(t.fleet) && Uniform(t.fleet);
    }
  }

  /** Between passes in the middle of a replacement: the fleet can be brought to agree and converge. */
  lemma GetReady(s: Sys) returns (ss: seq<Sys>, es: seq<Event>)
    requires Inv(s) && s.pass.NoPass? && Midway(s.ca)
    ensures Path(ss, es, CarefulStep) && |ss| == |es| + 1 && ss[0] == s
    ensures ss[|es|].ca == s.ca && Poised(ss[|es|]) && FleetConverged(ss[|es|].fleet)
  {
    hide Inv, CarefulStep, Path, CaInv, Midway;
    RunningFacts(s);
    ss, es := Restock(s);
    PathInv(ss, es, |es|);
    RunningFacts(ss[|es|]);
    var tt, fs := Agree(ss[|es|]);
    ss, es := Then(ss, es, tt, fs, CarefulStep);
    tt, fs := Settle(tt[|fs|], {});
    ss, es := Then(ss, es, tt, fs, CarefulStep);
  }

  // ------------------------------------------------------------ the two advances

  /** The rest of a pass after its CA patches. */
  lemma FinishSecrets(s: Sys) returns (ss: seq<Sys>, es: seq<Event>)
    requires s.pass.Running? && s.pass.stage.Secrets? && !s.pass.ca.Unfinished() && Present(s.ca)
    ensures Path(ss, es, CarefulStep) && |ss| == |es| + 1 && ss[0] == s
    ensures ss[|es|].ca == s.ca && ss[|es|].pass == NoPass
  {
    hide CarefulStep, Path;
    var u := RenewOperator(s);
    ss, es := Stay(s, CarefulStep);
    ss, es := Next(ss, es, EnsureOperatorCert(true), u, CarefulStep);
    var tt, fs := FinishTls(u);
    ss, es := Then(ss, es, tt, fs, CarefulStep);
  }

  /** The staged key is promoted. */
  lemma Promote(s: Sys, n: Key) returns (ss: seq<Sys>, es: seq<Event>)
    requires Poised(s) && FleetConverged(s.fleet) && Heading(s.ca, n) && (ViewOf(s.ca).Widened? || ViewOf(s.ca).Crossed?)
    ensures Path(ss, es, CarefulStep) && |ss| == |es| + 1 && ss[0] == s
    ensures ss[|es|].pass == NoPass && CaInv(ss[|es|].ca) && Heading(ss[|es|].ca, n) && ViewOf(ss[|es|].ca).Promoted?
  {
    hide CarefulStep, Path, Issued, OldSignerLive, PassPatches, After, CaInv;
    var k := FreshKey(s.used);
    var inp := PromotePass(s.ca, k);
    ss, es := ConvergedPass(s, inp, k);
    ViewKey(ss[3].ca);
    var tt, fs := FinishSecrets(ss[3]);
    ss, es := Then(ss, es, tt, fs, CarefulStep);
  }

  /** The old trust is pruned. */
  lemma Prune(s: Sys, n: Key) returns (ss: seq<Sys>, es: seq<Event>)
    requires Poised(s) && FleetConverged(s.fleet) && Heading(s.ca, n) && ViewOf(s.ca).Promoted?
    ensures Path(ss, es, CarefulStep) && |ss| == |es| + 1 && ss[0] == s
    ensures ss[|es|].pass == NoPass && CaInv(ss[|es|].ca) && ViewOf(ss[|es|].ca) == Steady(n)
  {
    hide CarefulStep, Path, Issued, OldSignerLive, PassPatches, After, CaInv;
    var k := FreshKey(s.used);
    var inp := PrunePass(s.ca, k);
    ss, es := ConvergedPass(s, inp, k);
    ViewKey(ss[3].ca);
    var tt, fs := FinishSecrets(ss[3]);
    ss, es := Then(ss, es, tt, fs, CarefulStep);
  }

  /** Between passes, a promoted CA can be pruned. */
  lemma CompletePromoted(s: Sys, n: Key) returns (ss: seq<Sys>, es: seq<Event>)
    requires Inv(s) && s.pass.NoPass? && Heading(s.ca, n) && ViewOf(s.ca).Promoted?
    ensures Path(ss, es, CarefulStep) && |ss| == |es| + 1 && ss[0] == s
    ensures ss[|es|].pass == NoPass && CaInv(ss[|es|].ca) && ViewOf(ss[|es|].ca) == Steady(n)
  {
    hide Inv, CarefulStep, Path, CaInv, Poised, FleetConverged;
    ss, es := GetReady(s);
    var tt, fs := Prune(ss[|es|], n);
    ss, es := Then(ss, es, tt, fs, CarefulStep);
  }

  /** Between passes, every replacement can be completed. */
  lemma CompleteBetween(s: Sys, n: Key) returns (ss: seq<Sys>, es: seq<Event>)
    requires Inv(s) && s.pass.NoPass? && Heading(s.ca, n)
    ensures Path(ss, es, CarefulStep) && |ss| == |es| + 1 && ss[0] == s
    ensures ss[|es|].pass == NoPass && CaInv(ss[|es|].ca) && ViewOf(ss[|es|].ca) == Steady(n)
  {
    hide Inv, CarefulStep, Path, CaInv, Poised, FleetConverged;
    RunningFacts(s);
    if ViewOf(s.ca).Steady? {
      ss, es := Stay(s, CarefulStep);
    } else if ViewOf(s.ca).Promoted? {
      ss, es := CompletePromoted(s, n);
    } else {
      ss, es := GetReady(s);
      var tt, fs := Promote(ss[|es|], n);
      ss, es := Then(ss, es, tt, fs, CarefulStep);
      PathInv(ss, es, |es|);
      tt, fs := CompletePromoted(ss[|es|], n);
      ss, es := Then(ss, es, tt, fs, CarefulStep);
    }
  }

  /**
   Progress: from every careful state in the middle of a key replacement by `n`,
   whatever a running pass, the labels, the keystore and the brokers are doing,
   careful steps lead to an idle CA with `n` as its only trusted key.
   */
  lemma RotationCompletes(s: Sys, n: Key) returns (ss: seq<Sys>, es: seq<Event>)
    requires Inv(s) && Heading(s.ca, n) && Midway(s.ca)
    ensures Path(ss, es, CarefulStep) && |ss| == |es| + 1 && ss[0] == s
    ensures ss[|es|].pass == NoPass && CaInv(ss[|es|].ca) && ViewOf(ss[|es|].ca) == Steady(n)
  {
    hide Inv, CarefulStep, Path, CaInv;
    RunningFacts(s);
    ss, es := Stay(s, CarefulStep);
    if s.pass.Running? {
      ss, es := FinishPass(s, n);
    }
    PathInv(ss, es, |es|);
    var tt, fs := CompleteBetween(ss[|es|], n);
    ss, es := Then(ss, es, tt, fs, CarefulStep);
  }
}
