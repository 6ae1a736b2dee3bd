/**
 The hypothesis of the trust theorem is exact.  A crash is safe for every
 careful continuation if and only if it is not at a harmful point, a promoting
 pass may skip the keystore if and only if it has nothing to reissue, and every
 point of the two windows is reached by runs from an empty cluster.
 */
module ClusterTrustLimits {
  import opened Options
  import opened CaRotation
  import opened CaViews
  import opened CaPass
  import opened Fleet
  import opened FleetRuns
  import opened Paths
  import opened ClusterTrust
  import opened ClusterTrustMoves
  import ClusterTrustProof

  /** Trust holds wherever careful steps lead from here. */
  ghost predicate Safe(s: Sys)
  {
    forall ss: seq<Sys>, es: seq<Event> :: Path(ss, es, CarefulStep) && ss[0] == s ==> Continuous(ss[|es|])
  }

  lemma {:induction false} PathInv(ss: seq<Sys>, es: seq<Event>, i: nat)
    requires Path(ss, es, CarefulStep) && Inv(ss[0]) && i < |ss|
    ensures Inv(ss[i])
  {
    hide Inv, Step, Careful;
    if i > 0 {
      PathInv(ss, es, i - 1);
      ClusterTrustProof.StepKeepsInv(ss[i - 1], es[i - 1], ss[i]);
    }
  }

  lemma InvIsSafe(s: Sys)
    requires Inv(s)
    ensures Safe(s)
  {
    hide Inv, CarefulStep, Continuous;
    forall ss: seq<Sys>, es: seq<Event> | Path(ss, es, CarefulStep) && ss[0] == s ensures Continuous(ss[|es|]) {
      PathInv(ss, es, |es|);
      InvImpliesContinuous(ss[|es|]);
    }
  }

  // --------------------------------------------------------- at the two Secrets

  /** A pass over a widened or crossed CA that finds the roll done promotes. */
  lemma PromotePass(st: Store, k: Key) returns (inp: RotationInputs)
    requires CaInv(st) && (ViewOf(st).Widened? || ViewOf(st).Crossed?)
    ensures inp.which == Cluster && inp.rolloutConverged
    ensures
      var m, v := Generated(k), ViewOf(st);
      && PassPlanOf(st, inp) == Rotate(PromoteNewKey) && Issued(st, inp, m) && OldSignerLive(st, inp)
      && PassPatches(st, inp, m).Ok? && |Patches(st, inp, m)| == 2
      && CaInv(After(st, inp, m, 1)) && ViewOf(After(st, inp, m, 1)) == Crossed(v.o, v.n)
      && CaInv(After(st, inp, m, 2)) && ViewOf(After(st, inp, m, 2)) == Promoted(v.n, v.o)
  {
    var m := Generated(k);
    inp := Inputs(Cluster, NoForce, true, st.certSecret.value.bundle[0].notAfter - 1);
    AfterSteps(st, inp, m);
    PatchMoves(st, inp, m, 0);
    PatchMoves(st, inp, m, 1);
  }

  /** A pass over a promoted CA that finds the roll done prunes. */
  lemma PrunePass(st: Store, k: Key) returns (inp: RotationInputs)
    requires CaInv(st) && ViewOf(st).Promoted?
    ensures inp.which == Cluster && inp.rolloutConverged
    ensures
      var m := Generated(k);
      && PassPlanOf(st, inp) == Rotate(PruneOldTrust) && Issued(st, inp, m) && OldSignerLive(st, inp)
      && PassPatches(st, inp, m).Ok? && |Patches(st, inp, m)| == 2
      && CaInv(After(st, inp, m, 2)) && ViewOf(After(st, inp, m, 2)) == Steady(ViewOf(st).n)
  {
    var m := Generated(k);
    inp := Inputs(Cluster, NoForce, true, 0);
    AfterSteps(st, inp, m);
    PatchMoves(st, inp, m, 0);
    PatchMoves(st, inp, m, 1);
  }

  lemma ViewKey(st: Store)
    requires CaInv(st) && !ViewOf(st).Fresh?
    ensures Present(st) && BundleKeys(st) == ViewOf(st).Trusted()
    ensures ViewOf(st).Steady? ==> st.keySecret.value.key == ViewOf(st).a
    ensures ViewOf(st).Crossed? || ViewOf(st).Promoted? ==> st.keySecret.value.key == ViewOf(st).n
  {
    StoredKeys(st);
  }

  // ------------------------------------------------------------- breaking trust

  /** The CA stage of a pass that finds the fleet converged. */
  lemma ConvergedPass(s: Sys, inp: RotationInputs, k: Key) returns (ss: seq<Sys>, es: seq<Event>)
    requires Poised(s) && FleetConverged(s.fleet) && k !in s.used && inp.which == Cluster && inp.rolloutConverged
    requires Issued(s.ca, inp, Generated(k)) && OldSignerLive(s.ca, inp)
    requires PassPatches(s.ca, inp, Generated(k)).Ok? && |Patches(s.ca, inp, Generated(k))| == 2
    ensures Path(ss, es, CarefulStep) && |es| == 3 && |ss| == 4 && ss[0] == s
    ensures ss[2] == s.(ca := After(s.ca, inp, Generated(k), 1), pass := Running(CaPass(s.ca, inp, Generated(k), 1), Secrets),
                        used := s.used + {k}, seen := ss[2].seen, led := ss[2].led)
    ensures Patched2(s, inp, Generated(k), ss[3])
  {
    hide CarefulStep, Issued, OldSignerLive, PassPatches, Observes, Patches;
    var pools, sets := Listed(s.fleet);
    ss, es := CaStage(s, inp, Generated(k), pools, sets);
  }

  /** A broker on the label does not trust the staged key: the next pass gives the operator a leaf of it. */
  lemma LaggingBrokerBreaks(s: Sys, q: PodId) returns (ss: seq<Sys>, es: seq<Event>)
    requires Poised(s) && ViewOf(s.ca).Widened? && OnLabel(s.fleet, q) && ViewOf(s.ca).n !in s.fleet.pods[q].trust
    ensures Path(ss, es, CarefulStep) && |ss| == |es| + 1 && ss[0] == s && !Continuous(ss[|es|])
  {
    hide CarefulStep, Path, Issued, OldSignerLive, PassPatches, Patches, After, CaInv;
    ss, es := Settle(s, {});
    var t := ss[|es|];
    var k := FreshKey(t.used);
    var inp := PromotePass(t.ca, k);
    var tt, fs := ConvergedPass(t, inp, k);
    ViewKey(tt[3].ca);
    ss, es := Then(ss, es, tt, fs, CarefulStep);
    var u := RenewOperator(tt[3]);
    ss, es := Next(ss, es, EnsureOperatorCert(true), u, CarefulStep);
    assert u.operator.value.leaf !in u.fleet.pods[q].trust;
  }

  /** The operator does not trust the staged key: a leaf renewed in the middle of the promotion is foreign to it. */
  lemma LaggingOperatorBreaks(s: Sys, q: PodId) returns (ss: seq<Sys>, es: seq<Event>)
    requires Poised(s) && ViewOf(s.ca).Widened? && q in s.fleet.pods
    requires s.operator.Some? && ViewOf(s.ca).n !in s.operator.value.trust
    ensures Path(ss, es, CarefulStep) && |ss| == |es| + 1 && ss[0] == s && !Continuous(ss[|es|])
  {
    hide Path, Issued, OldSignerLive, PassPatches, Patches, After, CaInv, CarefulStep;
    ss, es := Settle(s, {});
    var t := ss[|es|];
    var k := FreshKey(t.used);
    var inp := PromotePass(t.ca, k);
    var tt, fs := ConvergedPass(t, inp, k);
    ViewKey(tt[2].ca);
    Prefix(tt, fs, 2, CarefulStep);
    ss, es := Then(ss, es, tt[..3], fs[..2], CarefulStep);
    var u := RenewAndReload(tt[2], q);
    ss, es := Then(ss, es, [tt[2], u.0, u.1], [CronRenew(q), Env(ReloadLeaf(q))], CarefulStep);
    assert u.1.fleet.pods[q].leaf !in u.1.operator.value.trust;
  }

  /** The scheduled job renews a leaf, and the broker loads it. */
  lemma RenewAndReload(s: Sys, q: PodId) returns (r: (Sys, Sys))
    requires Present(s.ca) && q in s.keystore && q in s.fleet.pods && s.fleet.pods[q].Up?
    ensures Path([s, r.0, r.1], [CronRenew(q), Env(ReloadLeaf(q))], CarefulStep)
    ensures r.1.operator == s.operator && q in r.1.fleet.pods && r.1.fleet.pods[q].Up?
    ensures r.1.fleet.pods[q].leaf == s.ca.keySecret.value.key
  {
    var a := s.(keystore := s.keystore[q := s.ca.keySecret.value.key]);
    var b := a.(fleet := a.fleet.(pods := a.fleet.pods[q := a.fleet.pods[q].(leaf := s.ca.keySecret.value.key)]));
    assert CarefulStep(s, CronRenew(q), a) && CarefulStep(a, Env(ReloadLeaf(q)), b);
    r := (a, b);
  }

  /** A broker runs or is served an old leaf: the next pass prunes the trust it needs. */
  lemma LaggingLeafBreaks(s: Sys, q: PodId) returns (ss: seq<Sys>, es: seq<Event>)
    requires Poised(s) && ViewOf(s.ca).Promoted? && q in s.fleet.pods
    requires s.keystore[q] != ViewOf(s.ca).n || (OnLabel(s.fleet, q) && s.fleet.pods[q].leaf != ViewOf(s.ca).n)
    ensures Path(ss, es, CarefulStep) && |ss| == |es| + 1 && ss[0] == s && !Continuous(ss[|es|])
  {
    hide CarefulStep, Path, Issued, OldSignerLive, PassPatches, Patches, After, CaInv;
    ss, es := Settle(s, if s.keystore[q] != ViewOf(s.ca).n then {q} else {});
    var t := ss[|es|];
    assert t.fleet.pods[q].leaf != ViewOf(s.ca).n;
    var k := FreshKey(t.used);
    var inp := PrunePass(t.ca, k);
    var tt, fs := ConvergedPass(t, inp, k);
    ViewKey(tt[3].ca);
    ss, es := Then(ss, es, tt, fs, CarefulStep);
    var u := RenewOperator(tt[3]);
    ss, es := Next(ss, es, EnsureOperatorCert(true), u, CarefulStep);
    assert u.fleet.pods[q].leaf !in u.operator.value.trust;
  }

  /** The operator still has an old leaf: a broker that reloads the pruned trust refuses it. */
  lemma LaggingOperatorLeafBreaks(s: Sys, q: PodId) returns (ss: seq<Sys>, es: seq<Event>)
    requires Poised(s) && ViewOf(s.ca).Promoted? && q in s.fleet.pods
    requires s.operator.Some? && s.operator.value.leaf != ViewOf(s.ca).n
    ensures Path(ss, es, CarefulStep) && |ss| == |es| + 1 && ss[0] == s && !Continuous(ss[|es|])
  {
    hide CarefulStep, Path, Issued, OldSignerLive, PassPatches, Patches, After, CaInv;
    ss, es := Settle(s, {});
    var t := ss[|es|];
    var k := FreshKey(t.used);
    var inp := PrunePass(t.ca, k);
    var tt, fs := ConvergedPass(t, inp, k);
    ViewKey(tt[3].ca);
    ss, es := Then(ss, es, tt, fs, CarefulStep);
    var u := ReloadTrustAt(tt[3], q);
    ss, es := Next(ss, es, Env(ReloadTrust(q)), u, CarefulStep);
    assert u.operator.value.leaf !in u.fleet.pods[q].trust;
  }

  lemma ReloadTrustAt(s: Sys, q: PodId) returns (s': Sys)
    requires q in s.fleet.pods && s.fleet.pods[q].Up?
    ensures CarefulStep(s, Env(ReloadTrust(q)), s') && s'.operator == s.operator
    ensures q in s'.fleet.pods && s'.fleet.pods[q].Up? && s'.fleet.pods[q].trust == BundleKeys(s.ca)
  {
    s' := s.(fleet := s.fleet.(pods := s.fleet.pods[q := s.fleet.pods[q].(trust := BundleKeys(s.ca))]));
  }

  // ------------------------------------------------------------------ exactness

  /** A crash at a harmful point leads, by careful steps only, to two parties that cannot verify each other. */
  lemma HarmfulCrashBreaks(s: Sys) returns (ss: seq<Sys>, es: seq<Event>)
    requires Inv(s) && Harmful(s) && s.fleet.pods != map[]
    ensures Path(ss, es, CarefulStep) && |ss| == |es| + 1 && ss[0] == s.(pass := NoPass) && !Continuous(ss[|es|])
  {
    hide Contents, Carried, Known, Parties, Continuous, CarefulStep, Path, KeysOf;
    var c := s.(pass := NoPass);
    var q :| q in s.fleet.pods;
    assert CaInv(s.ca) && Poised(c);
    if Plans(s.pass, StartKeyReplace) {
      assert ViewOf(s.ca).Widened? && ViewOf(s.ca).n == s.pass.ca.m.key;
      if TrustLags(s.fleet, s.pass.ca.m.key) {
        var p :| OnLabel(s.fleet, p) && s.pass.ca.m.key !in s.fleet.pods[p].trust;
        ss, es := LaggingBrokerBreaks(c, p);
      } else {
        ss, es := LaggingOperatorBreaks(c, q);
      }
    } else {
      ViewKey(s.ca);
      var n := ViewOf(s.ca).n;
      if p :| OnLabel(s.fleet, p) && s.fleet.pods[p].leaf != n {
        ss, es := LaggingLeafBreaks(c, p);
      } else if !KeystoreIn(s.keystore, {n}) {
        var p :| p in s.keystore && s.keystore[p] != n;
        ss, es := LaggingLeafBreaks(c, p);
      } else {
        ss, es := LaggingOperatorLeafBreaks(c, q);
      }
    }
  }

  /** A crash of a pass is safe for all careful continuations if and only if it is not at a harmful point. */
  lemma CrashIsSafeIff(s: Sys)
    requires Inv(s) && s.pass.Running? && s.fleet.pods != map[]
    ensures Safe(s.(pass := NoPass)) <==> !Harmful(s)
  {
    hide Inv, Harmful, Continuous, CarefulStep, Path;
    if Harmful(s) {
      var ss, es := HarmfulCrashBreaks(s);
      assert !Safe(s.(pass := NoPass));
    } else {
      CrashKeeps(s);
      InvIsSafe(s.(pass := NoPass));
    }
  }

  lemma CrashKeeps(s: Sys)
    requires Inv(s) && s.pass.Running? && !Harmful(s)
    ensures Inv(s.(pass := NoPass))
  {
    hide Inv, Harmful;
    ClusterTrustProof.EndKeeps(s, Crash, s.(pass := NoPass));
  }

  /** The state after a pass skips the keystore. */
  ghost function Skipped(s: Sys, rest: nat, ready: seq<bool>): (s': Sys)
    requires s.pass.Running? && s.ca.certSecret.Some? && |ready| == |s.fleet.pools|
  {
    s.(pass := s.pass.(stage := ToAdopt(s, rest, ready)))
  }

  /** A promoting pass that skips a keystore with old leafs: its own roll makes the next pass prune too early. */
  lemma SkippedKeystoreBreaks(s: Sys) returns (rest: nat, ss: seq<Sys>, es: seq<Event>)
    requires Inv(s) && Plans(s.pass, PromoteNewKey) && s.pass.stage.Tls? && Present(s.ca)
    requires !KeystoreIn(s.keystore, {s.ca.keySecret.value.key})
    ensures Path(ss, es, CarefulStep) && |ss| == |es| + 1 && !Continuous(ss[|es|])
    ensures ss[0] == Skipped(s, rest, NoneReady(|s.fleet.pools|))
  {
    hide Contents, Carried, Known, Parties, Continuous, CarefulStep, Path, KeysOf;
    assert Uniform(s.fleet) && Stocked(s) && ViewOf(s.ca).Promoted?;
    ViewKey(s.ca);
    var p :| p in s.keystore && s.keystore[p] != ViewOf(s.ca).n;
    var c0 := s.fleet.pools[0].stamp.value;
    rest := c0.rest + 1;
    var a := Skipped(s, rest, NoneReady(|s.fleet.pools|));
    ss, es := RelabelTwice(a, c0);
    var tt, fs := LaggingLeafBreaks(ss[|es|], p);
    ss, es := Then(ss, es, tt, fs, CarefulStep);
  }

  /** A promoting pass may skip the keystore safely, whatever pools are Ready, if and only if it has nothing to reissue. */
  lemma SkipIsSafeIff(s: Sys)
    requires Inv(s) && Plans(s.pass, PromoteNewKey) && s.pass.stage.Tls? && Present(s.ca)
    ensures (forall rest: nat, ready: seq<bool> :: |ready| == |s.fleet.pools| ==> Safe(Skipped(s, rest, ready)))
      <==> KeystoreIn(s.keystore, {s.ca.keySecret.value.key})
  {
    hide Inv, Continuous, CarefulStep, Path;
    if KeystoreIn(s.keystore, {s.ca.keySecret.value.key}) {
      forall rest: nat, ready: seq<bool> | |ready| == |s.fleet.pools| ensures Safe(Skipped(s, rest, ready)) {
        SkipKeeps(s, rest, ready);
        InvIsSafe(Skipped(s, rest, ready));
      }
    } else {
      var rest, ss, es := SkippedKeystoreBreaks(s);
      assert !Safe(Skipped(s, rest, NoneReady(|s.fleet.pools|)));
    }
  }

  lemma SkipKeeps(s: Sys, rest: nat, ready: seq<bool>)
    requires Inv(s) && Plans(s.pass, PromoteNewKey) && s.pass.stage.Tls? && Present(s.ca)
    requires KeystoreIn(s.keystore, {s.ca.keySecret.value.key}) && |ready| == |s.fleet.pools|
    ensures Inv(Skipped(s, rest, ready))
  {
    hide Inv;
    ClusterTrustProof.KeystoreKeeps(s, SkipKeystore(rest, ready), Skipped(s, rest, ready));
  }
}
