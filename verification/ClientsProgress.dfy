/**
 A key replacement of the clients CA can always be completed: from every careful
 state in the middle of one, also in the middle of a pass, careful steps lead to
 an idle CA that the new key signs.
 */
module ClientsProgress {
  import opened Options
  import opened CaRotation
  import opened CaViews
  import opened CaPass
  import opened Fleet
  import opened FleetRuns
  import opened Paths
  import opened ClientsTrust
  import opened ClientsTrustLimits
  import ClientsTrustReach
  import ClientsTrustProof
  import Rollout

  /** The same CA, except perhaps for the leaf marker. */
  ghost predicate SameButMarker(ca: Store, ca': Store)
  {
    && Present(ca) && Present(ca') && ca'.keySecret == ca.keySecret
    && ca'.certSecret.value == ca.certSecret.value.(leafsKeyGeneration := ca'.certSecret.value.leafsKeyGeneration)
  }

  lemma MarkerIsNoMatter(ca: Store, ca': Store)
    requires CaInv(ca) && SameButMarker(ca, ca')
    ensures CaInv(ca') && ViewOf(ca') == ViewOf(ca) && Hashed(ca') == Hashed(ca)
  {
  }

  lemma UsableCa(ca: Store)
    requires CaInv(ca) && !ViewOf(ca).Fresh?
    ensures Usable(ca)
  {
  }

  // ------------------------------------------------------------ finishing a pass

  lemma PatchHeads(s: Sys, s': Sys, n: Key)
    requires MarkInv(s) && Step(s, PatchSecret, s') && Heading(s.ca, n) && Midway(s.ca)
    ensures CaInv(s'.ca) && Heading(s'.ca, n)
    ensures ViewOf(s'.ca).Steady? ==> !s'.pass.ca.Unfinished()
  {
    hide KeysOf, MarkerInv, PassUsers;
    PatchCa(s.ca, s.pass.ca, s.used, s.seen);
  }

  lemma PassIsAfter(s: Sys)
    requires MarkInv(s) && s.pass.Running? && s.pass.stage.Secrets?
    ensures s.ca == After(s.pass.ca.base, s.pass.ca.inp, s.pass.ca.m, s.pass.ca.sent)
  {
  }

  lemma {:induction false} CompleteSecrets(s: Sys, n: Key) returns (ss: seq<Sys>, es: seq<Event>)
    requires MarkInv(s) && s.pass.Running? && s.pass.stage.Secrets? && Heading(s.ca, n) && Midway(s.ca)
    ensures Path(ss, es, CarefulStep) && |ss| == |es| + 1 && ss[0] == s
    ensures
      var s' := ss[|es|];
      && CaInv(s'.ca) && s'.pass.Running? && s'.pass.stage.Secrets? && Heading(s'.ca, n) && !s'.pass.ca.Unfinished()
      && |s'.fleet.pools| == |s.fleet.pools|
    decreases |s.pass.ca.Ws()| - s.pass.ca.sent
  {
    if !s.pass.ca.Unfinished() {
      ss, es := Stay(s, CarefulStep);
    } else {
      PassIsAfter(s);
      var t := Patches1(s);
      PatchHeads(s, t, n);
      ClientsTrustProof.PatchMark(s, PatchSecret, t);
      ss, es := Stay(s, CarefulStep);
      ss, es := Next(ss, es, PatchSecret, t, CarefulStep);
      hide MarkInv, CarefulStep, Path;
      if !ViewOf(t.ca).Steady? {
        var tt, fs := CompleteSecrets(t, n);
        ss, es := Then(ss, es, tt, fs, CarefulStep);
      }
    }
  }

  /** The batch is completed, and the marker is written if the leafs had to be reissued. */
  lemma {:induction false} RunBatch(s: Sys) returns (ss: seq<Sys>, es: seq<Event>)
    requires s.pass.Running? && s.pass.stage.Users? && Usable(s.ca)
    ensures Path(ss, es, CarefulStep) && |ss| == |es| + 1 && ss[0] == s
    ensures
      var s' := ss[|es|];
      && SameButMarker(s.ca, s'.ca) && s'.fleet == s.fleet && s'.pass == s.pass.(stage := Labels)
      && s'.ca.certSecret.value.leafsKeyGeneration ==
           if s.pass.stage.reissue then Some(s.ca.keySecret.value.keyGeneration) else s.ca.certSecret.value.leafsKeyGeneration
    decreases |s.pass.stage.todo|
  {
    ss, es := Stay(s, CarefulStep);
    if s.pass.stage.todo == [] {
      var c := s.ca.certSecret.value;
      var t := s.(ca := if s.pass.stage.reissue
                        then s.ca.(certSecret := Some(c.(leafsKeyGeneration := Some(s.ca.keySecret.value.keyGeneration))))
                        else s.ca,
                  pass := s.pass.(stage := Labels));
      assert CarefulStep(s, FinishUsers, t);
      ss, es := Next(ss, es, FinishUsers, t, CarefulStep);
    } else {
      var u := s.pass.stage.todo[0];
      var t := s.(users := if u in s.users then s.users[u := Some(Ensured(s.ca, s.users[u], false))] else s.users,
                  pass := s.pass.(stage := s.pass.stage.(todo := s.pass.stage.todo[1..])));
      assert CarefulStep(s, EnsureUser(false), t);
      ss, es := Next(ss, es, EnsureUser(false), t, CarefulStep);
      var tt, fs := RunBatch(t);
      ss, es := Then(ss, es, tt, fs, CarefulStep);
    }
  }

  /** The users are dealt with after the CA patches. */
  lemma UserStage(s: Sys) returns (ss: seq<Sys>, es: seq<Event>)
    requires s.pass.Running? && s.pass.stage.Secrets? && !s.pass.ca.Unfinished() && Usable(s.ca)
    ensures Path(ss, es, CarefulStep) && |ss| == |es| + 1 && ss[0] == s
    ensures
      var s' := ss[|es|];
      && SameButMarker(s.ca, s'.ca) && s'.fleet == s.fleet && s'.pass == s.pass.(stage := Labels)
      && (ReissueRequired(s.ca, s.pass.ca) ==> s'.ca.certSecret.value.leafsKeyGeneration == Some(s.ca.keySecret.value.keyGeneration))
      && (!ReissueRequired(s.ca, s.pass.ca) ==> s'.ca == s.ca)
  {
    ss, es := Stay(s, CarefulStep);
    if SyncUsers(s.ca, s.pass.ca) {
      var names := NamesOf(s.users.Keys);
      var t := s.(pass := s.pass.(stage := Users(names, ReissueRequired(s.ca, s.pass.ca))));
      assert CarefulStep(s, ListUsers(names), t);
      ss, es := Next(ss, es, ListUsers(names), t, CarefulStep);
      var tt, fs := RunBatch(t);
      hide CarefulStep, Path;
      ss, es := Then(ss, es, tt, fs, CarefulStep);
    } else {
      var t := s.(pass := s.pass.(stage := Labels));
      assert CarefulStep(s, SkipUsers, t);
      ss, es := Next(ss, es, SkipUsers, t, CarefulStep);
    }
  }

  lemma {:induction false} AdoptRest(s: Sys) returns (ss: seq<Sys>, es: seq<Event>)
    requires s.pass.Running? && s.pass.stage.Adopt? && s.pass.stage.j <= |s.pass.stage.hashes| == |s.fleet.pools|
    ensures Path(ss, es, CarefulStep) && |ss| == |es| + 1 && ss[0] == s
    ensures ss[|es|] == s.(fleet := ss[|es|].fleet, pass := NoPass)
    decreases |s.pass.stage.hashes| - s.pass.stage.j
  {
    ss, es := Stay(s, CarefulStep);
    var j := s.pass.stage.j;
    if j == |s.pass.stage.hashes| {
      var t := s.(pass := NoPass);
      assert CarefulStep(s, Finish, t);
      ss, es := Next(ss, es, Finish, t, CarefulStep);
    } else {
      var t := s.(fleet := Relabel(s.fleet, j, s.pass.stage.hashes[j]), pass := s.pass.(stage := s.pass.stage.(j := j + 1)));
      assert CarefulStep(s, AdoptPool, t);
      ss, es := Next(ss, es, AdoptPool, t, CarefulStep);
      var tt, fs := AdoptRest(t);
      ss, es := Then(ss, es, tt, fs, CarefulStep);
    }
  }

  /** The labels are planned and all written. */
  lemma LabelStage(s: Sys, rest: nat) returns (ss: seq<Sys>, es: seq<Event>)
    requires s.pass.Running? && s.pass.stage.Labels? && Present(s.ca)
    ensures Path(ss, es, CarefulStep) && |ss| == |es| + 1 && ss[0] == s
    ensures ss[|es|] == s.(fleet := ss[|es|].fleet, pass := NoPass)
    ensures
      var hs := Rollout.Planned(RolloutView(s.fleet, NoneReady(|s.fleet.pools|)), Content(HashedBundle(s.ca), rest));
      Labelled(s.fleet, ss[|es|].fleet, hs, |s.fleet.pools|)
  {
    var hs := Rollout.Planned(RolloutView(s.fleet, NoneReady(|s.fleet.pools|)), Content(HashedBundle(s.ca), rest));
    var t := s.(pass := s.pass.(stage := Adopt(hs, 0)));
    assert CarefulStep(s, PlanLabels(rest, NoneReady(|s.fleet.pools|)), t);
    ss, es := Stay(s, CarefulStep);
    ss, es := Next(ss, es, PlanLabels(rest, NoneReady(|s.fleet.pools|)), t, CarefulStep);
    var tt, fs := ClientsTrustReach.AdoptUpTo(t, |s.fleet.pools|);
    ss, es := Then(ss, es, tt, fs, CarefulStep);
    var u := tt[|fs|];
    var v := u.(pass := NoPass);
    assert CarefulStep(u, Finish, v);
    ss, es := Next(ss, es, Finish, v, CarefulStep);
  }

  /** A running pass can run to its end. */
  lemma FinishPass(s: Sys, n: Key) returns (ss: seq<Sys>, es: seq<Event>)
    requires Inv(s) && s.pass.Running? && Heading(s.ca, n) && Midway(s.ca)
    ensures Path(ss, es, CarefulStep) && |ss| == |es| + 1 && ss[0] == s
    ensures ss[|es|].pass == NoPass && CaInv(ss[|es|].ca) && Heading(ss[|es|].ca, n)
  {
    hide CarefulStep, Path, CaInv, MarkInv, HistoryInv, PhaseInv, GateInv, Rollout.Planned;
    RunningFacts(s);
    ss, es := Stay(s, CarefulStep);
    var tt, fs;
    if s.pass.stage.Secrets? {
      ss, es := CompleteSecrets(s, n);
      UsableCa(ss[|es|].ca);
      tt, fs := UserStage(ss[|es|]);
      MarkerIsNoMatter(ss[|es|].ca, tt[|fs|].ca);
      ss, es := Then(ss, es, tt, fs, CarefulStep);
    } else if s.pass.stage.Users? {
      UsableCa(s.ca);
      ss, es := RunBatch(s);
      MarkerIsNoMatter(s.ca, ss[|es|].ca);
    }
    var t := ss[|es|];
    if t.pass.stage.Labels? {
      UsableCa(t.ca);
      tt, fs := LabelStage(t, 0);
    } else {
      tt, fs := AdoptRest(t);
    }
    ss, es := Then(ss, es, tt, fs, CarefulStep);
  }

  lemma RunningFacts(s: Sys)
    requires Inv(s)
    ensures CaInv(s.ca) && MarkInv(s) && WellFormed(s.fleet)
    ensures s.pass.Running? && s.pass.stage.Adopt? ==> s.pass.stage.j <= |s.pass.stage.hashes| == |s.fleet.pools|
  {
  }

  // --------------------------------------------------------------- getting ready

  /** In a promoted CA the leafs are marked as reissued. */
  ghost predicate Marked(ca: Store)
    requires CaInv(ca)
  {
    ViewOf(ca).Promoted? ==> ca.certSecret.value.leafsKeyGeneration == Some(ca.keySecret.value.keyGeneration)
  }

  /** A pass that finds the roll in flight: no CA patch, users and labels only. */
  lemma IdlePass(s: Sys, rest: nat) returns (ss: seq<Sys>, es: seq<Event>)
    requires s.pass.NoPass? && CaInv(s.ca) && Midway(s.ca) && WellFormed(s.fleet)
    ensures Path(ss, es, CarefulStep) && |ss| == |es| + 1 && ss[0] == s
    ensures ss[|es|].pass == NoPass && SameButMarker(s.ca, ss[|es|].ca) && CaInv(ss[|es|].ca) && Marked(ss[|es|].ca)
    ensures
      var hs := Rollout.Planned(RolloutView(s.fleet, NoneReady(|s.fleet.pools|)), Content(Hashed(s.ca), rest));
      Labelled(s.fleet, ss[|es|].fleet, hs, |s.fleet.pools|)
  {
    hide CarefulStep, Path, Rollout.Planned, Observes;
    var pools, sets := Unlisted(s.fleet);
    var k := FreshKey(s.used);
    var inp := Inputs(Clients, NoForce, false, 0);
    var a := Begins(s, inp, Generated(k), pools, sets);
    ss, es := Stay(s, CarefulStep);
    ss, es := Next(ss, es, Begin(inp, Generated(k), pools, sets), a, CarefulStep);
    UsableCa(s.ca);
    var tt, fs := UserStage(a);
    MarkerIsNoMatter(s.ca, tt[|fs|].ca);
    ss, es := Then(ss, es, tt, fs, CarefulStep);
    var b := tt[|fs|];
    tt, fs := LabelStage(b, rest);
    ss, es := Then(ss, es, tt, fs, CarefulStep);
  }

  /** Labels can be brought to agree, and the fleet to converge on them. */
  lemma GetReady(s: Sys) returns (ss: seq<Sys>, es: seq<Event>)
    requires Inv(s) && s.pass.NoPass? && Midway(s.ca)
    ensures Path(ss, es, CarefulStep) && |ss| == |es| + 1 && ss[0] == s
    ensures SameButMarker(s.ca, ss[|es|].ca) && Poised(ss[|es|]) && FleetConverged(ss[|es|].fleet) && Marked(ss[|es|].ca)
  {
    hide Inv, CarefulStep, Path, CaInv, Rollout.Planned;
    RunningFacts(s);
    ss, es := IdlePass(s, 0);
    PathInv(ss, es, |es|);
    var t := ss[|es|];
    RunningFacts(t);
    MarkerIsNoMatter(s.ca, t.ca);
    var tt, fs;
    if !Uniform(t.fleet) {
      var rest := FreshRest(t.fleet.pools);
      PlansMixed(t.fleet, Content(Hashed(t.ca), rest));
      tt, fs := IdlePass(t, rest);
      ss, es := Then(ss, es, tt, fs, CarefulStep);
      PathInv(ss, es, |es|);
      MarkerIsNoMatter(t.ca, ss[|es|].ca);
      t := ss[|es|];
      RunningFacts(t);
      assert Uniform(t.fleet);
    }
    tt, fs := Settle(t);
    ss, es := Then(ss, es, tt, fs, CarefulStep);
  }

  // ---------------------------------------------------------------- the advances

  /** The CA stage of a pass that finds the fleet converged, and the rest of that pass. */
  lemma Advance(s: Sys, inp: RotationInputs, k: Key) returns (ss: seq<Sys>, es: seq<Event>)
    requires Poised(s) && FleetConverged(s.fleet) && k !in s.used && inp.which == Clients && inp.rolloutConverged
    requires Issued(s.ca, inp, Generated(k)) && OldSignerLive(s.ca, inp)
    requires PassPatches(s.ca, inp, Generated(k)).Ok? && |Patches(s.ca, inp, Generated(k))| == 2
    requires Usable(After(s.ca, inp, Generated(k), 2))
    ensures Path(ss, es, CarefulStep) && |ss| == |es| + 1 && ss[0] == s
    ensures ss[|es|].pass == NoPass && SameButMarker(After(s.ca, inp, Generated(k), 2), ss[|es|].ca)
  {
    hide CarefulStep, Path, Issued, OldSignerLive, PassPatches, After, CaInv, Observes, Rollout.Planned;
    var pools, sets := Listed(s.fleet);
    ss, es := CaStage(s, inp, Generated(k), pools, sets);
    var tt, fs := UserStage(ss[3]);
    ss, es := Then(ss, es, tt, fs, CarefulStep);
    tt, fs := LabelStage(tt[|fs|], 0);
    ss, es := Then(ss, es, tt, fs, CarefulStep);
  }

  /** A pass over a widened or crossed CA that finds the roll done promotes. */
  lemma PromoteWorks(st: Store, k: Key) returns (inp: RotationInputs)
    requires CaInv(st) && (ViewOf(st).Widened? || ViewOf(st).Crossed?)
    ensures inp.which == Clients && inp.rolloutConverged
    ensures
      var m, v := Generated(k), ViewOf(st);
      && Issued(st, inp, m) && OldSignerLive(st, inp)
      && PassPatches(st, inp, m).Ok? && |Patches(st, inp, m)| == 2
      && var st' := After(st, inp, m, 2);
      && Usable(st') && CaInv(st') && ViewOf(st') == Promoted(v.n, v.o)
  {
    var m := Generated(k);
    inp := Inputs(Clients, NoForce, true, st.certSecret.value.bundle[0].notAfter - 1);
    AfterSteps(st, inp, m);
    PatchMoves(st, inp, m, 0);
    PatchMoves(st, inp, m, 1);
  }

  /** And one over a promoted CA whose leafs are marked prunes. */
  lemma PruneWorks(st: Store, k: Key) returns (inp: RotationInputs)
    requires CaInv(st) && ViewOf(st).Promoted? && Marked(st)
    ensures inp.which == Clients && inp.rolloutConverged
    ensures
      var m, v := Generated(k), ViewOf(st);
      && Issued(st, inp, m) && OldSignerLive(st, inp)
      && PassPatches(st, inp, m).Ok? && |Patches(st, inp, m)| == 2
      && var st' := After(st, inp, m, 2);
      && Usable(st') && CaInv(st') && ViewOf(st') == Steady(v.n)
  {
    var m := Generated(k);
    inp := Inputs(Clients, NoForce, true, 0);
    AfterSteps(st, inp, m);
    PatchMoves(st, inp, m, 0);
    PatchMoves(st, inp, m, 1);
  }

  lemma CompletePromoted(s: Sys, n: Key) returns (ss: seq<Sys>, es: seq<Event>)
    requires Inv(s) && s.pass.NoPass? && Heading(s.ca, n) && ViewOf(s.ca).Promoted?
    ensures Path(ss, es, CarefulStep) && |ss| == |es| + 1 && ss[0] == s
    ensures ss[|es|].pass == NoPass && CaInv(ss[|es|].ca) && ViewOf(ss[|es|].ca) == Steady(n)
  {
    hide Inv, CarefulStep, Path, CaInv, FleetConverged, Issued, OldSignerLive, PassPatches, After, Usable;
    ss, es := GetReady(s);
    var t := ss[|es|];
    RunningFacts(s);
    MarkerIsNoMatter(s.ca, t.ca);
    var k := FreshKey(t.used);
    var inp := PruneWorks(t.ca, k);
    var tt, fs := Advance(t, inp, k);
    MarkerIsNoMatter(After(t.ca, inp, Generated(k), 2), tt[|fs|].ca);
    ss, es := Then(ss, es, tt, fs, CarefulStep);
  }

  lemma PromoteBetween(s: Sys, n: Key) returns (ss: seq<Sys>, es: seq<Event>)
    requires Inv(s) && s.pass.NoPass? && Heading(s.ca, n) && (ViewOf(s.ca).Widened? || ViewOf(s.ca).Crossed?)
    ensures Path(ss, es, CarefulStep) && |ss| == |es| + 1 && ss[0] == s
    ensures ss[|es|].pass == NoPass && CaInv(ss[|es|].ca) && ViewOf(ss[|es|].ca).Promoted? && Heading(ss[|es|].ca, n)
  {
    hide Inv, CarefulStep, Path, CaInv, FleetConverged, Issued, OldSignerLive, PassPatches, After, Usable;
    ss, es := GetReady(s);
    var t := ss[|es|];
    RunningFacts(s);
    MarkerIsNoMatter(s.ca, t.ca);
    var k := FreshKey(t.used);
    var inp := PromoteWorks(t.ca, k);
    var tt, fs := Advance(t, inp, k);
    MarkerIsNoMatter(After(t.ca, inp, Generated(k), 2), tt[|fs|].ca);
    ss, es := Then(ss, es, tt, fs, CarefulStep);
  }

  lemma CompleteBetween(s: Sys, n: Key) returns (ss: seq<Sys>, es: seq<Event>)
    requires Inv(s) && s.pass.NoPass? && Heading(s.ca, n)
    ensures Path(ss, es, CarefulStep) && |ss| == |es| + 1 && ss[0] == s
    ensures ss[|es|].pass == NoPass && CaInv(ss[|es|].ca) && ViewOf(ss[|es|].ca) == Steady(n)
  {
    hide Inv, CarefulStep, Path, CaInv;
    RunningFacts(s);
    if ViewOf(s.ca).Steady? {
      ss, es := Stay(s, CarefulStep);
    } else if ViewOf(s.ca).Promoted? {
      ss, es := CompletePromoted(s, n);
    } else {
      ss, es := PromoteBetween(s, n);
      PathInv(ss, es, |es|);
      var tt, fs := CompletePromoted(ss[|es|], n);
      ss, es := Then(ss, es, tt, fs, CarefulStep);
    }
  }

  /**
   Progress: from every careful state in the middle of a replacement of the
   clients CA by `n`, whatever a running pass, the users, the labels and the
   brokers are doing, careful steps lead to an idle CA with `n` as its only
   trusted key.
   */
  lemma RotationCompletes(s: Sys, n: Key) returns (ss: seq<Sys>, es: seq<Event>)
    requires Inv(s) && Heading(s.ca, n) && Midway(s.ca)
    ensures Path(ss, es, CarefulStep) && |ss| == |es| + 1 && ss[0] == s
    ensures ss[|es|].pass == NoPass && CaInv(ss[|es|].ca) && ViewOf(ss[|es|].ca) == Steady(n)
  {
    hide Inv, CarefulStep, Path, CaInv;
    RunningFacts(s);
    ss, es := Stay(s, CarefulStep);
    if s.pass.Running? {
      ss, es := FinishPass(s, n);
    }
    PathInv(ss, es, |es|);
    var tt, fs := CompleteBetween(ss[|es|], n);
    ss, es := Then(ss, es, tt, fs, CarefulStep);
  }
}
