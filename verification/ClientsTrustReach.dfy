/**
 From every empty cluster with at least one broker, runs lead to a converged
 cluster with an idle clients CA, and through every place of the window in which
 a crash is harmful.
 */
module ClientsTrustReach {
  import opened Options
  import opened CaRotation
  import opened CaViews
  import opened CaPass
  import opened Fleet
  import opened FleetRuns
  import opened Paths
  import opened ClientsTrust
  import opened ClientsTrustLimits
  import Rollout

  /** Between passes, every broker up and on one label. */
  ghost predicate Healthy(s: Sys)
  {
    Inv(s) && Poised(s) && FleetConverged(s.fleet) && s.fleet.pods != map[]
  }

  /** The CA has never been rotated. */
  predicate Untouched(ca: Store)
  {
    Present(ca) && ca.certSecret.value.certGeneration == 0 && ca.keySecret.value.keyGeneration == 0
  }

  lemma CreatePass(k: Key)
    ensures
      var st, inp, m := Store(None, None), Inputs(Clients, NoForce, false, 0), Generated(k);
      && PassPlanOf(st, inp) == Create && Issued(st, inp, m) && OldSignerLive(st, inp)
      && PassPatches(st, inp, m).Ok? && |Patches(st, inp, m)| == 2
      && var st' := After(st, inp, m, 2);
      && CaInv(st') && ViewOf(st') == Steady(k) && Untouched(st') && Usable(st')
  {
    var st, inp, m := Store(None, None), Inputs(Clients, NoForce, false, 0), Generated(k);
    AfterSteps(st, inp, m);
    PatchMoves(st, inp, m, 0);
    PatchMoves(st, inp, m, 1);
  }

  lemma StartPass(st: Store, k: Key)
    requires CaInv(st) && ViewOf(st).Steady? && k != ViewOf(st).a
    ensures
      var inp, m, v := Inputs(Clients, ReplaceKey, false, 0), Generated(k), ViewOf(st);
      && PassPlanOf(st, inp) == Rotate(StartKeyReplace) && Issued(st, inp, m) && OldSignerLive(st, inp)
      && PassPatches(st, inp, m).Ok? && |Patches(st, inp, m)| == 2
      && var st' := After(st, inp, m, 2);
      && Usable(st') && st'.certSecret.value.certGeneration == st.certSecret.value.certGeneration
      && st'.keySecret.value.keyGeneration == st.keySecret.value.keyGeneration
      && st'.certSecret.value.phase == KeyReplaceTrust
  {
    var inp, m := Inputs(Clients, ReplaceKey, false, 0), Generated(k);
    AfterSteps(st, inp, m);
    PatchMoves(st, inp, m, 0);
    PatchMoves(st, inp, m, 1);
  }

  /** A forced renewal of an idle CA is one patch and counts. */
  lemma RenewPass(st: Store, k: Key) returns (m: Material)
    requires CaInv(st) && ViewOf(st).Steady?
    ensures
      var inp := Inputs(Clients, RenewCertificate, false, 0);
      && m.key == k && Issued(st, inp, m) && OldSignerLive(st, inp) && PassPlanOf(st, inp) == Rotate(RenewCertSameKey)
      && PassPatches(st, inp, m).Ok? && |Patches(st, inp, m)| == 1
      && var st' := After(st, inp, m, 1);
      && CaInv(st') && ViewOf(st').Steady? && st'.certSecret.value.certGeneration > 0
  {
    var inp := Inputs(Clients, RenewCertificate, false, 0);
    m := Material(k, Cert(0, ViewOf(st).a, 0));
    AfterSteps(st, inp, m);
    PatchMoves(st, inp, m, 0);
  }

  // ------------------------------------------------------------ a whole first pass

  /** No user batch on a CA that was never rotated, and the labels are planned. */
  lemma PlanStage(s: Sys, rest: nat) returns (ss: seq<Sys>, es: seq<Event>)
    requires s.pass.Running? && s.pass.stage.Secrets? && !s.pass.ca.Unfinished() && Usable(s.ca) && Untouched(s.ca)
    requires s.pass.ca.Plan() in {Create, Rotate(StartKeyReplace)}
    requires s.ca.certSecret.value.phase != KeyReplacePromote
    ensures Path(ss, es, CarefulStep) && |es| == 2 && |ss| == 3 && ss[0] == s
    ensures ss[1] == s.(pass := s.pass.(stage := Labels))
    ensures ss[2] == s.(pass := s.pass.(stage :=
        Adopt(Rollout.Planned(RolloutView(s.fleet, NoneReady(|s.fleet.pools|)), Content(HashedBundle(s.ca), rest)), 0)))
  {
    var a := s.(pass := s.pass.(stage := Labels));
    var b := a.(pass := a.pass.(stage :=
        Adopt(Rollout.Planned(RolloutView(s.fleet, NoneReady(|s.fleet.pools|)), Content(HashedBundle(s.ca), rest)), 0)));
    ss, es := [s, a, b], [SkipUsers, PlanLabels(rest, NoneReady(|s.fleet.pools|))];
    assert CarefulStep(s, es[0], a) && CarefulStep(a, es[1], b);
  }

  lemma {:induction false} AdoptUpTo(s: Sys, k: nat) returns (ss: seq<Sys>, es: seq<Event>)
    requires s.pass.Running? && s.pass.stage.Adopt? && s.pass.stage.j == 0
    requires k <= |s.pass.stage.hashes| == |s.fleet.pools|
    ensures Path(ss, es, CarefulStep) && |ss| == |es| + 1 && ss[0] == s
    ensures Labelled(s.fleet, ss[|es|].fleet, s.pass.stage.hashes, k)
    ensures ss[|es|] == s.(fleet := ss[|es|].fleet, pass := s.pass.(stage := s.pass.stage.(j := k)))
  {
    if k == 0 {
      ss, es := Stay(s, CarefulStep);
    } else {
      ss, es := AdoptUpTo(s, k - 1);
      var t := ss[|es|];
      var t' := t.(fleet := Relabel(t.fleet, k - 1, s.pass.stage.hashes[k - 1]), pass := t.pass.(stage := t.pass.stage.(j := k)));
      assert CarefulStep(t, AdoptPool, t');
      ss, es := Next(ss, es, AdoptPool, t', CarefulStep);
    }
  }

  /** The labels of a first pass: all pools at once. */
  lemma BringUp(s: Sys, c: Content) returns (ss: seq<Sys>, es: seq<Event>)
    requires s.pass.Running? && WellFormed(s.fleet) && s.fleet.pools[0].stamp.None?
    requires s.pass.stage == Adopt(Rollout.Planned(RolloutView(s.fleet, NoneReady(|s.fleet.pools|)), c), 0)
    ensures Path(ss, es, CarefulStep) && |ss| == |es| + 1 && ss[0] == s
    ensures ss[|es|] == s.(fleet := ss[|es|].fleet, pass := NoPass)
    ensures WellFormed(ss[|es|].fleet) && Uniform(ss[|es|].fleet) && ss[|es|].fleet.pods == s.fleet.pods
  {
    var view := RolloutView(s.fleet, NoneReady(|s.fleet.pools|));
    assert view[0].currentHash.None?;
    assert !Rollout.Established(view, c);
    ss, es := AdoptUpTo(s, |s.fleet.pools|);
    var t := ss[|es|];
    var t' := t.(pass := NoPass);
    assert CarefulStep(t, Finish, t');
    ss, es := Next(ss, es, Finish, t', CarefulStep);
    assert forall i :: 0 <= i < |t'.fleet.pools| ==> t'.fleet.pools[i].stamp == Some(c);
  }

  /** Creation: from nothing to a converged cluster with an idle CA. */
  lemma Creation(s: Sys) returns (ss: seq<Sys>, es: seq<Event>)
    requires Init(s) && s.fleet.pods != map[]
    ensures Path(ss, es, CarefulStep) && |ss| == |es| + 1 && ss[0] == s
    ensures Poised(ss[|es|]) && FleetConverged(ss[|es|].fleet) && ss[|es|].fleet.pods != map[]
    ensures ViewOf(ss[|es|].ca).Steady? && Untouched(ss[|es|].ca)
  {
    hide CarefulStep, Path, Issued, OldSignerLive, PassPatches, After, CaInv, Rollout.Planned, Observes;
    var pools, sets := Unlisted(s.fleet);
    var k := FreshKey(s.used);
    CreatePass(k);
    ss, es := CaStage(s, Inputs(Clients, NoForce, false, 0), Generated(k), pools, sets);
    var a := ss[3];
    assert a.ca.certSecret.value.phase == Idle by { IdleIsSteady(a.ca); }
    var tt, fs := PlanStage(a, 0);
    ss, es := Then(ss, es, tt, fs, CarefulStep);
    tt, fs := BringUp(tt[2], Content(HashedBundle(a.ca), 0));
    ss, es := Then(ss, es, tt, fs, CarefulStep);
    tt, fs := Settle(tt[|fs|]);
    ss, es := Then(ss, es, tt, fs, CarefulStep);
  }

  lemma IdleIsSteady(st: Store)
    requires CaInv(st) && ViewOf(st).Steady?
    ensures st.certSecret.Some? && st.certSecret.value.phase == Idle
  {
  }

  lemma InitInv(s: Sys)
    requires Init(s)
    ensures Inv(s)
  {
  }

  /** A healthy cluster with an idle clients CA is reached from every empty one with a broker. */
  lemma SteadyIsReached(s: Sys) returns (ss: seq<Sys>, es: seq<Event>)
    requires Init(s) && s.fleet.pods != map[]
    ensures Path(ss, es, CarefulStep) && |ss| == |es| + 1 && ss[0] == s
    ensures Healthy(ss[|es|]) && ViewOf(ss[|es|].ca).Steady? && Untouched(ss[|es|].ca)
  {
    hide CarefulStep, Path, Inv, Poised;
    InitInv(s);
    ss, es := Creation(s);
    PathInv(ss, es, |es|);
  }

  /** A renewal that is cut off after its patch: the CA now counts as rotated. */
  lemma RenewalCutOff(s: Sys) returns (ss: seq<Sys>, es: seq<Event>)
    requires Healthy(s) && ViewOf(s.ca).Steady?
    ensures Path(ss, es, CarefulStep) && |ss| == |es| + 1 && ss[0] == s
    ensures Poised(ss[|es|]) && ss[|es|].fleet == s.fleet && ViewOf(ss[|es|].ca).Steady?
    ensures ss[|es|].ca.certSecret.Some? && ss[|es|].ca.certSecret.value.certGeneration > 0
  {
    hide Path, Issued, OldSignerLive, PassPatches, After, Observes, Contents, Carried, KeysOf, TrustFrom;
    var pools, sets := Unlisted(s.fleet);
    var k := FreshKey(s.used);
    var m := RenewPass(s.ca, k);
    var inp := Inputs(Clients, RenewCertificate, false, 0);
    var a := Begins(s, inp, m, pools, sets);
    Starts(s.ca, inp, m);
    var b := Patches1(a);
    var c := b.(pass := NoPass);
    assert CarefulStep(b, Crash, c);
    ss, es := Stay(s, CarefulStep);
    ss, es := Next(ss, es, Begin(inp, m, pools, sets), a, CarefulStep);
    ss, es := Next(ss, es, PatchSecret, b, CarefulStep);
    ss, es := Next(ss, es, Crash, c, CarefulStep);
  }

  lemma Starts(st: Store, inp: RotationInputs, m: Material)
    ensures After(st, inp, m, 0) == st
  {
    AfterSteps(st, inp, m);
  }

  // ------------------------------------------------------------------ the window

  /** The places of the window: before the users, among them, before the labels, before the first label. */
  ghost predicate At(s: Sys, place: nat)
  {
    && s.pass.Running?
    && match s.pass.stage
       case Secrets => place == 0 && !s.pass.ca.Unfinished()
       case Users(_, _) => place == 1
       case Labels => place == 2
       case Adopt(_, j) => place == 3 && j == 0
  }

  /** While no broker has moved since the pass began, every place of the window is harmful. */
  lemma WindowIsHarmful(s: Sys, s': Sys, place: nat)
    requires Healthy(s) && At(s', place) && s'.fleet == s.fleet
    requires Plans(s'.pass, StartKeyReplace) && s'.pass.ca.m.key !in s.used
    ensures Harmful(s')
  {
    hide Contents, Carried, KeysOf, PassCa, PhaseInv, MarkerInv, PassUsers;
    var q :| q in s.fleet.pods;
    assert OnLabel(s'.fleet, q);
    assert s.fleet.pods[q].trust <= s.seen <= s.used;
    assert Uniform(s'.fleet);
  }

  /** The CA patches of a pass that starts a key replacement. */
  lemma StartStage(s: Sys) returns (ss: seq<Sys>, es: seq<Event>)
    requires Healthy(s) && ViewOf(s.ca).Steady?
    ensures Path(ss, es, CarefulStep) && |es| == 3 && |ss| == 4 && ss[0] == s
    ensures
      var a := ss[3];
      && Usable(a.ca) && a.ca.certSecret.value.phase == KeyReplaceTrust && a.fleet == s.fleet && a.users == s.users
      && a.ca.certSecret.value.certGeneration == s.ca.certSecret.value.certGeneration
      && a.ca.keySecret.value.keyGeneration == s.ca.keySecret.value.keyGeneration
      && Plans(a.pass, StartKeyReplace) && a.pass.stage.Secrets? && !a.pass.ca.Unfinished() && a.pass.ca.m.key !in s.used
  {
    hide CarefulStep, Path, Issued, OldSignerLive, PassPatches, After, Observes, Contents, Carried, KeysOf, TrustFrom;
    var pools, sets := Unlisted(s.fleet);
    var k := FreshKey(s.used);
    assert ViewOf(s.ca).a in s.used;
    StartPass(s.ca, k);
    ss, es := CaStage(s, Inputs(Clients, ReplaceKey, false, 0), Generated(k), pools, sets);
  }

  /** From a healthy idle cluster that was never rotated: every place but the batch. */
  lemma WindowWithoutUsers(s: Sys, place: nat) returns (ss: seq<Sys>, es: seq<Event>)
    requires Healthy(s) && ViewOf(s.ca).Steady? && Untouched(s.ca) && place in {0, 2, 3}
    ensures Path(ss, es, CarefulStep) && |ss| == |es| + 1 && ss[0] == s && At(ss[|es|], place) && Harmful(ss[|es|])
  {
    hide CarefulStep, Path, CaInv, Inv, Harmful, Healthy;
    ss, es := StartStage(s);
    var tt, fs := PlanStage(ss[3], 0);
    var n := if place == 0 then 0 else place - 1;
    Prefix(tt, fs, n, CarefulStep);
    WindowIsHarmful(s, tt[n], place);
    ss, es := Then(ss, es, tt[..n + 1], fs[..n], CarefulStep);
  }

  /** From a healthy idle cluster that was renewed before: the batch. */
  lemma WindowAmongUsers(s: Sys) returns (ss: seq<Sys>, es: seq<Event>)
    requires Healthy(s) && ViewOf(s.ca).Steady? && s.ca.certSecret.value.certGeneration > 0
    ensures Path(ss, es, CarefulStep) && |ss| == |es| + 1 && ss[0] == s && At(ss[|es|], 1) && Harmful(ss[|es|])
  {
    hide CaInv, Inv, Harmful, Healthy, Path;
    ss, es := StartStage(s);
    var a := ss[3];
    var names := NamesOf(a.users.Keys);
    var b := a.(pass := a.pass.(stage := Users(names, ReissueRequired(a.ca, a.pass.ca))));
    assert CarefulStep(a, ListUsers(names), b);
    WindowIsHarmful(s, b, 1);
    ss, es := Next(ss, es, ListUsers(names), b, CarefulStep);
  }

  /**
   At every place of the window there is a run from the empty cluster that is
   careful up to a crash there, careful after it, and ends with a user whose
   certificate a running broker does not trust.
   */
  lemma EveryPlaceBreaks(s: Sys, place: nat)
    returns (ss: seq<Sys>, es: seq<Event>, tt: seq<Sys>, fs: seq<Event>)
    requires Init(s) && s.fleet.pods != map[] && place <= 3
    ensures Path(ss, es, CarefulStep) && |ss| == |es| + 1 && ss[0] == s && At(ss[|es|], place)
    ensures Path(tt, fs, CarefulStep) && |tt| == |fs| + 1 && Step(ss[|es|], Crash, tt[0]) && !Continuous(tt[|fs|])
  {
    hide CarefulStep, Path, Inv, Harmful, Continuous, Poised, CaInv;
    InitInv(s);
    ss, es := SteadyIsReached(s);
    if place == 1 {
      tt, fs := RenewalCutOff(ss[|es|]);
      ss, es := Then(ss, es, tt, fs, CarefulStep);
      PathInv(ss, es, |es|);
      tt, fs := WindowAmongUsers(ss[|es|]);
    } else {
      tt, fs := WindowWithoutUsers(ss[|es|], place);
    }
    ss, es := Then(ss, es, tt, fs, CarefulStep);
    PathInv(ss, es, |es|);
    tt, fs := HarmfulCrashBreaks(ss[|es|]);
  }
}
