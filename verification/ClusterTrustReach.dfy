/**
 From every empty cluster with at least one broker, runs lead to a converged
 cluster with an idle CA, to one with staged trust, and through every point of
 the two windows in which a crash is harmful.
 */
module ClusterTrustReach {
  import opened Options
  import opened CaRotation
  import opened CaViews
  import opened CaPass
  import opened Fleet
  import opened FleetRuns
  import opened Paths
  import opened ClusterTrust
  import opened ClusterTrustMoves
  import opened ClusterTrustLimits
  import Rollout

  /** Between passes, every broker up and on one label. */
  ghost predicate Healthy(s: Sys)
  {
    Inv(s) && Poised(s) && FleetConverged(s.fleet) && s.fleet.pods != map[]
  }

  /** The first pass creates the CA. */
  lemma CreatePass(k: Key)
    ensures
      var st, inp, m := Store(None, None), Inputs(Cluster, NoForce, false, 0), Generated(k);
      && Issued(st, inp, m) && OldSignerLive(st, inp)
      && PassPatches(st, inp, m).Ok? && |Patches(st, inp, m)| == 2
      && CaInv(After(st, inp, m, 2)) && ViewOf(After(st, inp, m, 2)) == Steady(k)
  {
    var st, inp, m := Store(None, None), Inputs(Cluster, NoForce, false, 0), Generated(k);
    AfterSteps(st, inp, m);
    PatchMoves(st, inp, m, 0);
    PatchMoves(st, inp, m, 1);
  }

  /** A forced pass over an idle CA starts a key replacement. */
  lemma StartPass(st: Store, k: Key)
    requires CaInv(st) && ViewOf(st).Steady? && k != ViewOf(st).a
    ensures
      var inp, m, v := Inputs(Cluster, ReplaceKey, false, 0), Generated(k), ViewOf(st);
      && PassPlanOf(st, inp) == Rotate(StartKeyReplace) && Issued(st, inp, m) && OldSignerLive(st, inp)
      && PassPatches(st, inp, m).Ok? && |Patches(st, inp, m)| == 2
      && CaInv(After(st, inp, m, 2)) && ViewOf(After(st, inp, m, 2)) == Widened(v.a, k)
  {
    var inp, m := Inputs(Cluster, ReplaceKey, false, 0), Generated(k);
    AfterSteps(st, inp, m);
    PatchMoves(st, inp, m, 0);
    PatchMoves(st, inp, m, 1);
  }

  /** Unlabelled pools are all given the desired content at once. */
  lemma PlansBringUp(f: Fleet<Key>, c: Content)
    requires f.pools != [] && f.pools[0].stamp.None?
    ensures
      var hs := Rollout.Planned(RolloutView(f, NoneReady(|f.pools|)), c);
      |hs| == |f.pools| && forall i :: 0 <= i < |hs| ==> hs[i] == c
  {
    var view := RolloutView(f, NoneReady(|f.pools|));
    assert view[0].currentHash.None?;
    assert !Rollout.Established(view, c);
  }

  /** The rest of a pass after its CA patches, with a full keystore, up to its labels. */
  lemma TlsStage(s: Sys, rest: nat) returns (ss: seq<Sys>, es: seq<Event>)
    requires s.pass.Running? && s.pass.stage.Secrets? && !s.pass.ca.Unfinished() && Present(s.ca)
    ensures Path(ss, es, CarefulStep) && |es| == 2 && |ss| == 3 && ss[0] == s
    ensures ss[1].pass == s.pass.(stage := Tls) && ss[1].ca == s.ca && ss[1].fleet == s.fleet && ss[1].keystore == s.keystore
    ensures ss[2].ca == s.ca && ss[2].fleet == s.fleet && ss[2].keystore.Keys == s.fleet.pods.Keys
    ensures ss[2].pass == s.pass.(stage := ToAdopt(ss[2], rest, NoneReady(|s.fleet.pools|)))
  {
    hide Step, Careful, CarefulStep;
    var a := RenewOperator(s);
    var b, ks := FillKeystore(a, rest);
    ss, es := [s, a, b], [EnsureOperatorCert(true), EnsureKeystore(ks, rest, NoneReady(|s.fleet.pools|))];
    assert CarefulStep(s, es[0], a) && CarefulStep(a, es[1], b);
  }

  /** Creation: from nothing to a converged cluster with an idle CA. */
  lemma Creation(s: Sys) returns (ss: seq<Sys>, es: seq<Event>)
    requires Init(s) && s.fleet.pods != map[]
    ensures Path(ss, es, CarefulStep) && |ss| == |es| + 1 && ss[0] == s
    ensures Poised(ss[|es|]) && FleetConverged(ss[|es|].fleet) && ss[|es|].fleet.pods != map[] && ViewOf(ss[|es|].ca).Steady?
  {
    hide CarefulStep, Path, Issued, OldSignerLive, PassPatches, Patches, After, CaInv, Rollout.Planned, Observes;
    var pools, sets := Unlisted(s.fleet);
    var k := FreshKey(s.used);
    CreatePass(k);
    ss, es := CaStage(s, Inputs(Cluster, NoForce, false, 0), Generated(k), pools, sets);
    var a := ss[3];
    ViewKey(a.ca);
    var tt, fs := TlsStage(a, 0);
    ss, es := Then(ss, es, tt, fs, CarefulStep);
    var b := tt[2];
    PlansBringUp(b.fleet, Content(b.ca.certSecret.value.bundle, 0));
    tt, fs := AdoptAll(b);
    ss, es := Then(ss, es, tt, fs, CarefulStep);
    var c := tt[|fs|];
    assert WellFormed(c.fleet) && Uniform(c.fleet);
    tt, fs := Settle(c, {});
    ss, es := Then(ss, es, tt, fs, CarefulStep);
  }

  /** The CA patches of a pass that starts a key replacement. */
  lemma StartStage(s: Sys) returns (ss: seq<Sys>, es: seq<Event>)
    requires Healthy(s) && ViewOf(s.ca).Steady?
    ensures Path(ss, es, CarefulStep) && |es| == 3 && |ss| == 4 && ss[0] == s
    ensures
      var a := ss[3];
      && CaInv(a.ca) && ViewOf(a.ca).Widened? && a.fleet == s.fleet && a.keystore == s.keystore
      && Plans(a.pass, StartKeyReplace) && a.pass.stage.Secrets? && !a.pass.ca.Unfinished() && a.pass.ca.m.key !in s.used
  {
    hide CarefulStep, Path, Issued, OldSignerLive, PassPatches, After, Observes, Parties, Contents, Carried, Known;
    var pools, sets := Unlisted(s.fleet);
    var k := FreshKey(s.used);
    assert ViewOf(s.ca).a in s.used;
    StartPass(s.ca, k);
    ss, es := CaStage(s, Inputs(Cluster, ReplaceKey, false, 0), Generated(k), pools, sets);
  }

  /** Staging: a key replacement is started, and its trust is rolled out everywhere. */
  lemma Staging(s: Sys) returns (ss: seq<Sys>, es: seq<Event>)
    requires Healthy(s) && ViewOf(s.ca).Steady?
    ensures Path(ss, es, CarefulStep) && |ss| == |es| + 1 && ss[0] == s
    ensures Poised(ss[|es|]) && FleetConverged(ss[|es|].fleet) && ss[|es|].fleet.pods != map[] && ViewOf(ss[|es|].ca).Widened?
  {
    hide CarefulStep, Path, CaInv, Inv, Rollout.Planned;
    ss, es := StartStage(s);
    var a := ss[3];
    ViewKey(a.ca);
    var c0 := s.fleet.pools[0].stamp.value;
    var tt, fs := TlsStage(a, c0.rest + 1);
    ss, es := Then(ss, es, tt, fs, CarefulStep);
    tt, fs := RelabelTwice(tt[2], c0);
    ss, es := Then(ss, es, tt, fs, CarefulStep);
    tt, fs := Settle(tt[|fs|], {});
    ss, es := Then(ss, es, tt, fs, CarefulStep);
  }

  lemma InitInv(s: Sys)
    requires Init(s)
    ensures Inv(s)
  {
  }

  lemma StaysHealthy(ss: seq<Sys>, es: seq<Event>)
    requires Path(ss, es, CarefulStep) && |ss| == |es| + 1 && Inv(ss[0]) && Poised(ss[|es|]) && FleetConverged(ss[|es|].fleet)
    requires ss[|es|].fleet.pods != map[]
    ensures Healthy(ss[|es|])
  {
    PathInv(ss, es, |es|);
  }

  /** A healthy cluster with an idle CA is reached from every empty one with a broker. */
  lemma SteadyIsReached(s: Sys) returns (ss: seq<Sys>, es: seq<Event>)
    requires Init(s) && s.fleet.pods != map[]
    ensures Path(ss, es, CarefulStep) && |ss| == |es| + 1 && ss[0] == s && Healthy(ss[|es|]) && ViewOf(ss[|es|].ca).Steady?
  {
    hide CarefulStep, Path, Inv, Poised;
    InitInv(s);
    ss, es := Creation(s);
    StaysHealthy(ss, es);
  }

  /** And so is a healthy one in the middle of a key replacement. */
  lemma WidenedIsReached(s: Sys) returns (ss: seq<Sys>, es: seq<Event>)
    requires Init(s) && s.fleet.pods != map[]
    ensures Path(ss, es, CarefulStep) && |ss| == |es| + 1 && ss[0] == s && Healthy(ss[|es|]) && ViewOf(ss[|es|].ca).Widened?
  {
    hide CarefulStep, Path, Inv, Poised;
    ss, es := SteadyIsReached(s);
    var tt, fs := Staging(ss[|es|]);
    StaysHealthy(tt, fs);
    ss, es := Then(ss, es, tt, fs, CarefulStep);
  }

  // ---------------------------------------------------------------- the windows

  /** The three places of a window: before the operator identity, before the keystore, before the first label. */
  ghost predicate At(s: Sys, place: nat)
  {
    && s.pass.Running?
    && match s.pass.stage
       case Secrets => place == 0 && !s.pass.ca.Unfinished()
       case Tls => place == 1
       case Adopt(_, j) => place == 2 && j == 0
  }

  /** While no broker has moved since the pass began, every place after new trust is harmful. */
  lemma TrustWindowIsHarmful(s: Sys, s': Sys, place: nat)
    requires Healthy(s) && At(s', place) && Present(s'.ca) && s'.fleet == s.fleet && Stocked(s')
    requires Plans(s'.pass, StartKeyReplace) && s'.pass.ca.m.key !in s.used
    ensures Harmful(s')
  {
    var n := s'.pass.ca.m.key;
    var q :| q in s.fleet.pods;
    assert OnLabel(s'.fleet, q);
    assert s.fleet.pods[q].trust <= s.seen <= s.used;
    assert Uniform(s'.fleet);
  }

  /** And every place after a new signer. */
  lemma SignerWindowIsHarmful(s: Sys, s': Sys, place: nat)
    requires Healthy(s) && ViewOf(s.ca).Widened? && At(s', place) && Present(s'.ca) && s'.fleet == s.fleet
    requires Plans(s'.pass, PromoteNewKey) && s'.ca.keySecret.value.key == ViewOf(s.ca).n
    ensures Harmful(s')
  {
    var q :| q in s.fleet.pods;
    assert OnLabel(s'.fleet, q);
    assert s.fleet.pods[q].leaf == ViewOf(s.ca).o != ViewOf(s.ca).n;
  }

  /** From a healthy idle cluster a pass reaches each place after new trust. */
  lemma TrustWindow(s: Sys, place: nat) returns (ss: seq<Sys>, es: seq<Event>)
    requires Healthy(s) && ViewOf(s.ca).Steady? && place <= 2
    ensures Path(ss, es, CarefulStep) && |ss| == |es| + 1 && ss[0] == s
    ensures At(ss[|es|], place) && Plans(ss[|es|].pass, StartKeyReplace) && Harmful(ss[|es|]) && ss[|es|].fleet == s.fleet
  {
    hide CarefulStep, Path, CaInv, Inv, Harmful, Healthy;
    ss, es := StartStage(s);
    var a := ss[3];
    ViewKey(a.ca);
    var tt, fs := TlsStage(a, 0);
    Prefix(tt, fs, place, CarefulStep);
    StockedNow(s);
    TrustWindowIsHarmful(s, tt[place], place);
    ss, es := Then(ss, es, tt[..place + 1], fs[..place], CarefulStep);
  }

  lemma StockedNow(s: Sys)
    requires Healthy(s)
    ensures Stocked(s) && Poised(s) && FleetConverged(s.fleet)
  {
  }

  /** From a healthy widened cluster a pass reaches each place after a new signer. */
  lemma SignerWindow(s: Sys, place: nat) returns (ss: seq<Sys>, es: seq<Event>)
    requires Healthy(s) && ViewOf(s.ca).Widened? && place <= 2
    ensures Path(ss, es, CarefulStep) && |ss| == |es| + 1 && ss[0] == s
    ensures At(ss[|es|], place) && Plans(ss[|es|].pass, PromoteNewKey) && Harmful(ss[|es|]) && ss[|es|].fleet == s.fleet
    ensures place == 1 ==> ss[|es|].keystore == s.keystore && Present(ss[|es|].ca) && ss[|es|].ca.keySecret.value.key == ViewOf(s.ca).n
  {
    hide CarefulStep, Path, CaInv, Inv, Harmful, Healthy, Issued, OldSignerLive, PassPatches, After;
    StockedNow(s);
    var k := FreshKey(s.used);
    var inp := PromotePass(s.ca, k);
    ss, es := ConvergedPass(s, inp, k);
    var a := ss[3];
    ViewKey(a.ca);
    var tt, fs := TlsStage(a, 0);
    Prefix(tt, fs, place, CarefulStep);
    SignerWindowIsHarmful(s, tt[place], place);
    ss, es := Then(ss, es, tt[..place + 1], fs[..place], CarefulStep);
  }

  /**
   At every place of both windows there is a run from the empty cluster that is
   careful up to a crash there, careful after it, and ends with two parties
   that cannot verify each other.
   */
  lemma EveryPlaceBreaks(s: Sys, signer: bool, place: nat)
    returns (ss: seq<Sys>, es: seq<Event>, tt: seq<Sys>, fs: seq<Event>)
    requires Init(s) && s.fleet.pods != map[] && place <= 2
    ensures Path(ss, es, CarefulStep) && |ss| == |es| + 1 && ss[0] == s && At(ss[|es|], place)
    ensures Plans(ss[|es|].pass, if signer then PromoteNewKey else StartKeyReplace)
    ensures Path(tt, fs, CarefulStep) && |tt| == |fs| + 1 && Step(ss[|es|], Crash, tt[0]) && !Continuous(tt[|fs|])
  {
    hide CarefulStep, Path, Inv, Harmful, Continuous, Poised, FleetConverged;
    InitInv(s);
    if signer {
      ss, es := WidenedIsReached(s);
      tt, fs := SignerWindow(ss[|es|], place);
    } else {
      ss, es := SteadyIsReached(s);
      tt, fs := TrustWindow(ss[|es|], place);
    }
    HasBroker(ss[|es|]);
    ss, es := Then(ss, es, tt, fs, CarefulStep);
    PathInv(ss, es, |es|);
    tt, fs := HarmfulCrashBreaks(ss[|es|]);
  }

  /** And there is one, without any crash, in which a promoting pass skips a keystore it should reissue. */
  lemma SkippingBreaks(s: Sys) returns (ss: seq<Sys>, es: seq<Event>, rest: nat, tt: seq<Sys>, fs: seq<Event>)
    requires Init(s) && s.fleet.pods != map[]
    ensures Path(ss, es, CarefulStep) && |ss| == |es| + 1 && ss[0] == s && Plans(ss[|es|].pass, PromoteNewKey)
    ensures Path(tt, fs, CarefulStep) && |tt| == |fs| + 1 && !Continuous(tt[|fs|])
    ensures Step(ss[|es|], SkipKeystore(rest, NoneReady(|ss[|es|].fleet.pools|)), tt[0])
  {
    hide CarefulStep, Path, Inv, Harmful, Continuous, Poised, FleetConverged;
    InitInv(s);
    ss, es := WidenedIsReached(s);
    var h := ss[|es|];
    tt, fs := SignerWindow(h, 1);
    OldKeystore(h);
    ss, es := Then(ss, es, tt, fs, CarefulStep);
    PathInv(ss, es, |es|);
    rest, tt, fs := SkippedKeystoreBreaks(ss[|es|]);
  }

  lemma OldKeystore(s: Sys)
    requires Healthy(s) && ViewOf(s.ca).Widened?
    ensures !KeystoreIn(s.keystore, {ViewOf(s.ca).n})
  {
    var q :| q in s.fleet.pods;
    assert q in s.keystore && s.keystore[q] == ViewOf(s.ca).o != ViewOf(s.ca).n;
  }

  lemma HasBroker(s: Sys)
    requires Healthy(s)
    ensures s.fleet.pods != map[]
  {
  }
}
