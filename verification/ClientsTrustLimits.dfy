/**
 The hypothesis of the user-trust theorem is exact: a crash is safe for every
 careful continuation if and only if it is not at a harmful point, and harmful
 points are reached by runs from an empty cluster at every place of the window.
 */
module ClientsTrustLimits {
  import opened Options
  import opened CaRotation
  import opened CaViews
  import opened CaPass
  import opened Fleet
  import opened FleetRuns
  import opened Paths
  import opened UserSecrets
  import opened ClientsTrust
  import ClientsTrustProof
  import Convergence

  ghost predicate CarefulStep(s: Sys, e: Event, s': Sys)
  {
    Step(s, e, s') && Careful(s, e)
  }

  /** Trust holds wherever careful steps lead from here. */
  ghost predicate Safe(s: Sys)
  {
    forall ss: seq<Sys>, es: seq<Event> :: Path(ss, es, CarefulStep) && ss[0] == s ==> Continuous(ss[|es|])
  }

  lemma {:induction false} PathInv(ss: seq<Sys>, es: seq<Event>, i: nat)
    requires Path(ss, es, CarefulStep) && Inv(ss[0]) && i < |ss|
    ensures Inv(ss[i])
  {
    hide Inv, Step, Careful;
    if i > 0 {
      PathInv(ss, es, i - 1);
      ClientsTrustProof.StepKeepsInv(ss[i - 1], es[i - 1], ss[i]);
    }
  }

  lemma InvIsSafe(s: Sys)
    requires Inv(s)
    ensures Safe(s)
  {
    hide Inv, CarefulStep, Continuous;
    forall ss: seq<Sys>, es: seq<Event> | Path(ss, es, CarefulStep) && ss[0] == s ensures Continuous(ss[|es|]) {
      PathInv(ss, es, |es|);
      InvImpliesContinuous(ss[|es|]);
    }
  }

  // ---------------------------------------------------------------------- moves

  /** Between passes, with labels that agree. */
  ghost predicate Poised(s: Sys)
  {
    s.pass.NoPass? && CaInv(s.ca) && WellFormed(s.fleet) && Uniform(s.fleet)
  }

  lemma {:induction false} FleetPathPods(fs: seq<Fleet<()>>, es: seq<FleetEvent>, trust: set<Key>, leafs: map<PodId, ()>, i: nat)
    requires Path(fs, es, StepOf(trust, leafs)) && i < |fs|
    ensures fs[i].pods.Keys == fs[0].pods.Keys
  {
    if i > 0 {
      FleetPathPods(fs, es, trust, leafs, i - 1);
      assert StepOf(trust, leafs)(fs[i - 1], es[i - 1], fs[i]);
      FleetStepLabels(fs[i - 1], es[i - 1], fs[i], trust, leafs);
    }
  }

  /** The fleet moves by itself. */
  lemma Lift(s: Sys, fs: seq<Fleet<()>>, fes: seq<FleetEvent>) returns (ss: seq<Sys>, es: seq<Event>)
    requires Path(fs, fes, StepOf(BundleKeys(s.ca), Leafs(s.fleet))) && fs[0] == s.fleet
    ensures Path(ss, es, CarefulStep) && |ss| == |es| + 1 && ss[0] == s && ss[|es|] == s.(fleet := fs[|fes|])
    ensures forall i :: 0 <= i < |es| ==> es[i].Env?
  {
    ss := seq(|fs|, i requires 0 <= i < |fs| => s.(fleet := fs[i]));
    es := seq(|fes|, i requires 0 <= i < |fes| => Env(fes[i]));
    forall i | 0 <= i < |es| ensures CarefulStep(ss[i], es[i], ss[i + 1]) {
      FleetPathPods(fs, fes, BundleKeys(s.ca), Leafs(s.fleet), i);
      assert Leafs(fs[i]) == Leafs(s.fleet);
      assert StepOf(BundleKeys(s.ca), Leafs(s.fleet))(fs[i], fes[i], fs[i + 1]);
    }
  }

  /** The fleet converges on its labels; pods that are there already are not touched. */
  lemma Settle(s: Sys) returns (ss: seq<Sys>, es: seq<Event>)
    requires Poised(s)
    ensures Path(ss, es, CarefulStep) && |ss| == |es| + 1 && ss[0] == s
    ensures ss[|es|] == s.(fleet := ss[|es|].fleet) && Poised(ss[|es|])
    ensures Settled(s.fleet, ss[|es|].fleet, {}, BundleKeys(s.ca), Leafs(s.fleet))
    ensures forall i :: 0 <= i < |es| ==> es[i].Env?
  {
    hide FleetStep, CaInv, CarefulStep, Path;
    var fs, fes := Converge(s.fleet, {}, BundleKeys(s.ca), Leafs(s.fleet));
    ss, es := Lift(s, fs, fes);
  }

  ghost predicate CanBegin(s: Sys, inp: RotationInputs, m: Material, pools: seq<Convergence.NodePool<Content>>,
                           sets: seq<Convergence.StatefulSet<Content>>)
  {
    && s.pass.NoPass? && inp.which == Clients && m.key !in s.used
    && Issued(s.ca, inp, m) && OldSignerLive(s.ca, inp) && PassPatches(s.ca, inp, m).Ok?
    && Observes(s.fleet, pools, sets) && (inp.rolloutConverged <==> Convergence.Converged(pools, sets))
  }

  lemma Begins(s: Sys, inp: RotationInputs, m: Material, pools: seq<Convergence.NodePool<Content>>,
               sets: seq<Convergence.StatefulSet<Content>>) returns (s': Sys)
    requires CanBegin(s, inp, m, pools, sets)
    ensures CarefulStep(s, Begin(inp, m, pools, sets), s')
    ensures s' == s.(pass := Running(CaPass(s.ca, inp, m, 0), Secrets), used := s.used + {m.key})
  {
    s' := s.(pass := Running(CaPass(s.ca, inp, m, 0), Secrets), used := s.used + {m.key});
  }

  lemma Patches1(s: Sys) returns (s': Sys)
    requires s.pass.Running? && s.pass.stage.Secrets? && s.pass.ca.Unfinished()
    requires s.ca == After(s.pass.ca.base, s.pass.ca.inp, s.pass.ca.m, s.pass.ca.sent)
    ensures CarefulStep(s, PatchSecret, s')
    ensures s' == s.(ca := After(s.pass.ca.base, s.pass.ca.inp, s.pass.ca.m, s.pass.ca.sent + 1),
                     pass := s.pass.(ca := s.pass.ca.(sent := s.pass.ca.sent + 1)), seen := s'.seen)
  {
    var p := s.pass.ca;
    AfterSteps(p.base, p.inp, p.m);
    var ca' := ApplyPatch(s.ca, p.Ws()[p.sent]);
    s' := s.(ca := ca', pass := s.pass.(ca := p.(sent := p.sent + 1)), seen := s.seen + BundleKeys(ca'));
  }

  /** All CA patches of a two-patch pass. */
  lemma CaStage(s: Sys, inp: RotationInputs, m: Material, pools: seq<Convergence.NodePool<Content>>,
                sets: seq<Convergence.StatefulSet<Content>>) returns (ss: seq<Sys>, es: seq<Event>)
    requires CanBegin(s, inp, m, pools, sets) && |Patches(s.ca, inp, m)| == 2
    ensures Path(ss, es, CarefulStep) && |es| == 3 && |ss| == 4 && ss[0] == s
    ensures ss[3] == s.(ca := After(s.ca, inp, m, 2), pass := Running(CaPass(s.ca, inp, m, 2), Secrets),
                        used := s.used + {m.key}, seen := ss[3].seen)
  {
    hide Step, Careful, Issued, OldSignerLive, PassPatches, Observes, CarefulStep;
    AfterSteps(s.ca, inp, m);
    var s1 := Begins(s, inp, m, pools, sets);
    var s2 := Patches1(s1);
    var s3 := Patches1(s2);
    ss, es := [s, s1, s2, s3], [Begin(inp, m, pools, sets), PatchSecret, PatchSecret];
    assert CarefulStep(s, es[0], s1) && CarefulStep(s1, es[1], s2) && CarefulStep(s2, es[2], s3);
  }

  // -------------------------------------------------------------- breaking trust

  lemma PromotePass(st: Store, k: Key) returns (inp: RotationInputs)
    requires CaInv(st) && ViewOf(st).Widened?
    ensures inp.which == Clients && inp.rolloutConverged
    ensures
      var m, v := Generated(k), ViewOf(st);
      && PassPlanOf(st, inp) == Rotate(PromoteNewKey) && Issued(st, inp, m) && OldSignerLive(st, inp)
      && PassPatches(st, inp, m).Ok? && |Patches(st, inp, m)| == 2
      && var st' := After(st, inp, m, 2);
      && Usable(st') && st'.keySecret.value.key == v.n && st'.certSecret.value.bundle[0].key == v.n
  {
    var m := Generated(k);
    inp := Inputs(Clients, NoForce, true, st.certSecret.value.bundle[0].notAfter - 1);
    AfterSteps(st, inp, m);
    PatchMoves(st, inp, m, 1);
  }

  lemma {:induction false} NamesOf(users: set<string>) returns (names: seq<string>)
    ensures forall u :: u in users ==> u in names
    decreases |users|
  {
    if users == {} {
      names := [];
    } else {
      var u :| u in users;
      names := NamesOf(users - {u});
      names := names + [u];
    }
  }

  /** There is a user, or one is added. */
  lemma SomeUser(s: Sys) returns (ss: seq<Sys>, es: seq<Event>, u: string)
    ensures Path(ss, es, CarefulStep) && |ss| == |es| + 1 && ss[0] == s
    ensures u in ss[|es|].users && ss[|es|] == s.(users := ss[|es|].users)
  {
    ss, es := Stay(s, CarefulStep);
    if s.users == map[] {
      u := "u";
      var t := s.(users := s.users[u := None]);
      assert CarefulStep(s, AddUser(u), t);
      ss, es := Next(ss, es, AddUser(u), t, CarefulStep);
    } else {
      u :| u in s.users;
    }
  }

  /** The batch after a promotion moves its first user to the new key. */
  lemma UserMoves(s: Sys, u: string) returns (ss: seq<Sys>, es: seq<Event>)
    requires s.pass.Running? && s.pass.stage == Secrets && !s.pass.ca.Unfinished() && u in s.users
    requires Usable(s.ca) && s.pass.ca.Plan() == Rotate(PromoteNewKey)
    requires s.ca.keySecret.value.key == s.ca.certSecret.value.bundle[0].key
    ensures Path(ss, es, CarefulStep) && |es| == 2 && |ss| == 3 && ss[0] == s && ss[2].fleet == s.fleet
    ensures u in ss[2].users && ss[2].users[u] == Some(s.ca.keySecret.value.key)
  {
    var names := NamesOf(s.users.Keys);
    names := [u] + names;
    var a := s.(pass := s.pass.(stage := Users(names, ReissueRequired(s.ca, s.pass.ca))));
    var b := a.(users := a.users[u := Some(Ensured(a.ca, a.users[u], false))],
                pass := a.pass.(stage := a.pass.stage.(todo := names[1..])));
    ss, es := [s, a, b], [ListUsers(names), EnsureUser(false)];
    assert CarefulStep(s, es[0], a) && CarefulStep(a, es[1], b);
  }

  /** A broker on the label does not trust the staged key: the next pass moves a user to it. */
  lemma LaggingBrokerBreaks(s: Sys, q: PodId) returns (ss: seq<Sys>, es: seq<Event>)
    requires Poised(s) && ViewOf(s.ca).Widened? && OnLabel(s.fleet, q) && ViewOf(s.ca).n !in s.fleet.pods[q].trust
    ensures Path(ss, es, CarefulStep) && |ss| == |es| + 1 && ss[0] == s && !Continuous(ss[|es|])
  {
    hide CarefulStep, Path, Issued, OldSignerLive, PassPatches, After, CaInv, Observes;
    ss, es := Settle(s);
    var u;
    var tt, fs;
    tt, fs, u := SomeUser(ss[|es|]);
    ss, es := Then(ss, es, tt, fs, CarefulStep);
    var t := tt[|fs|];
    var k := FreshKey(t.used);
    var inp := PromotePass(t.ca, k);
    var pools, sets := Listed(t.fleet);
    tt, fs := CaStage(t, inp, Generated(k), pools, sets);
    ss, es := Then(ss, es, tt, fs, CarefulStep);
    tt, fs := UserMoves(tt[3], u);
    ss, es := Then(ss, es, tt, fs, CarefulStep);
    assert tt[2].users[u].value !in tt[2].fleet.pods[q].trust;
  }

  // ------------------------------------------------------------------- exactness

  /** A crash at a harmful point leads, by careful steps only, to a user that a broker cannot verify. */
  lemma HarmfulCrashBreaks(s: Sys) returns (ss: seq<Sys>, es: seq<Event>)
    requires Inv(s) && Harmful(s)
    ensures Path(ss, es, CarefulStep) && |ss| == |es| + 1 && ss[0] == s.(pass := NoPass) && !Continuous(ss[|es|])
  {
    hide Contents, Carried, Continuous, CarefulStep, Path, KeysOf;
    var n := s.pass.ca.m.key;
    var q :| OnLabel(s.fleet, q) && n !in s.fleet.pods[q].trust;
    assert ViewOf(s.ca).Widened? && ViewOf(s.ca).n == n;
    ss, es := LaggingBrokerBreaks(s.(pass := NoPass), q);
  }

  /** A crash of a pass is safe for all careful continuations if and only if it is not at a harmful point. */
  lemma CrashIsSafeIff(s: Sys)
    requires Inv(s) && s.pass.Running?
    ensures Safe(s.(pass := NoPass)) <==> !Harmful(s)
  {
    hide Inv, Harmful, Continuous, CarefulStep, Path;
    if Harmful(s) {
      var ss, es := HarmfulCrashBreaks(s);
      assert !Safe(s.(pass := NoPass));
    } else {
      CrashKeeps(s);
      InvIsSafe(s.(pass := NoPass));
    }
  }

  lemma CrashKeeps(s: Sys)
    requires Inv(s) && s.pass.Running? && !Harmful(s)
    ensures Inv(s.(pass := NoPass))
  {
    hide Inv, Harmful;
    ClientsTrustProof.EndKeeps(s, Crash, s.(pass := NoPass));
  }
}
