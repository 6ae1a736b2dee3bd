/** Every step of the clients-trust system keeps its invariant, one lemma per kind of step. */
module ClientsTrustProof {
  import opened Options
  import opened CaRotation
  import opened CaViews
  import opened CaPass
  import opened Fleet
  import opened UserSecrets
  import opened ClientsTrust

  // ------------------------------------- Secrets and users, with crashes anywhere

  lemma BeginMark(s: Sys, e: Event, s': Sys)
    requires MarkInv(s) && Step(s, e, s') && e.Begin?
    ensures MarkInv(s')
  {
    BeginCa(s.ca, s'.pass.ca, s'.used, s'.seen);
  }

  lemma PatchMark(s: Sys, e: Event, s': Sys)
    requires MarkInv(s) && Step(s, e, s') && e.PatchSecret?
    ensures MarkInv(s')
  {
    PatchCa(s.ca, s.pass.ca, s.used, s.seen);
    PatchKeepsPass(s.ca, s.pass.ca, s.used, s.seen);
    PatchMarker(s, e, s');
    PatchUsers(s, e, s');
  }

  /** What a CA patch does to the view: one edge, and users and fleet stay. */
  ghost predicate Edged(s: Sys, e: Event, s': Sys)
  {
    && MarkInv(s) && Step(s, e, s') && e.PatchSecret? && CaInv(s'.ca)
    && Edge(s.pass.ca.Plan(), s.pass.ca.m, s.pass.ca.sent, ViewOf(s.ca), ViewOf(s'.ca))
  }

  lemma PatchMarker(s: Sys, e: Event, s': Sys)
    requires Edged(s, e, s')
    ensures MarkerInv(s')
  {
    hide KeysOf, FleetStep, Issued;
    AfterSteps(s.pass.ca.base, s.pass.ca.inp, s.pass.ca.m);
  }

  lemma PatchUsers(s: Sys, e: Event, s': Sys)
    requires Edged(s, e, s')
    ensures PassUsers(s')
  {
    hide KeysOf, FleetStep, Issued;
    AfterSteps(s.pass.ca.base, s.pass.ca.inp, s.pass.ca.m);
  }

  lemma BatchMark(s: Sys, e: Event, s': Sys)
    requires MarkInv(s) && Step(s, e, s') && (e.ListUsers? || e.SkipUsers? || e.EnsureUser?)
    ensures MarkInv(s')
  {
    hide KeysOf;
  }

  lemma FinishMark(s: Sys, e: Event, s': Sys)
    requires MarkInv(s) && Step(s, e, s') && e.FinishUsers?
    ensures MarkInv(s')
  {
    assert CaInv(s'.ca) && ViewOf(s'.ca) == ViewOf(s.ca);
  }

  lemma UserPassMark(s: Sys, e: Event, s': Sys)
    requires MarkInv(s) && Step(s, e, s') && e.UserPass?
    ensures MarkInv(s')
  {
    hide KeysOf, Patches, PassPatches, FleetStep, Observes, SyncUsers, PassCa;
    UserPassView(s.ca, e.inp, e.m, e.accepted);
    StoredKeys(s'.ca);
  }

  /** The remaining steps touch neither the Secrets nor a user's certificate. */
  lemma OtherMark(s: Sys, e: Event, s': Sys)
    requires MarkInv(s) && Step(s, e, s')
    requires !e.Begin? && !e.PatchSecret? && !e.ListUsers? && !e.SkipUsers? && !e.EnsureUser? && !e.FinishUsers? && !e.UserPass?
    ensures MarkInv(s')
  {
    hide KeysOf, CaInv, PassCa, FleetStep;
  }

  lemma StepKeepsMark(s: Sys, e: Event, s': Sys)
    requires MarkInv(s) && Step(s, e, s')
    ensures MarkInv(s')
  {
    hide MarkInv, Step;
    match e {
      case Begin(_, _, _, _) => BeginMark(s, e, s');
      case PatchSecret => PatchMark(s, e, s');
      case ListUsers(_) => BatchMark(s, e, s');
      case SkipUsers => BatchMark(s, e, s');
      case EnsureUser(_) => BatchMark(s, e, s');
      case FinishUsers => FinishMark(s, e, s');
      case UserPass(_, _, _, _, _) => UserPassMark(s, e, s');
      case _ => OtherMark(s, e, s');
    }
  }

  lemma {:induction false} RunMark(ss: seq<Sys>, es: seq<Event>, i: nat)
    requires Run(ss, es) && i < |ss|
    ensures MarkInv(ss[i])
  {
    if i > 0 {
      RunMark(ss, es, i - 1);
      StepKeepsMark(ss[i - 1], es[i - 1], ss[i]);
    }
  }

  // ---------------------------------------------------- the fleet, in careful runs

  lemma BeginKeeps(s: Sys, e: Event, s': Sys)
    requires Inv(s) && Step(s, e, s') && e.Begin?
    ensures Inv(s')
  {
    BeginMark(s, e, s');
    if e.inp.rolloutConverged {
      ObservedConverged(s.fleet, e.pools, e.sets);
      if ViewOf(s.ca).Widened? {
        ConvergedTrusts(s.fleet, ViewOf(s.ca).n);
      }
    }
  }

  /** What a CA patch that moves the view along one edge does to the system. */
  ghost predicate Patched(s: Sys, s': Sys, plan: PassPlan, m: Material, i: nat)
    requires CaInv(s.ca)
  {
    && CaInv(s'.ca)
    && Edge(plan, m, i, ViewOf(s.ca), ViewOf(s'.ca))
    && BundleKeys(s'.ca) == ViewOf(s'.ca).Trusted()
    && s'.fleet == s.fleet && s'.users == s.users && s'.seen == s.seen + BundleKeys(s'.ca)
    && s.used <= s'.used && m.key in s'.used
    && (plan in {Create, Rotate(StartKeyReplace)} ==> m.key !in s.seen)
  }

  lemma ContentsGrow(f: Fleet<()>, seen: set<Key>, seen': set<Key>)
    requires Contents(f, (c: Content) => KeysOf(c.bundle) <= seen) && seen <= seen'
    ensures Contents(f, (c: Content) => KeysOf(c.bundle) <= seen')
  {
  }

  lemma CarriedFresh(f: Fleet<()>, ks: set<Key>, ks': set<Key>, seen: set<Key>)
    requires WellFormed(f) && Contents(f, (c: Content) => KeysOf(c.bundle) <= seen) && Carried(f, ks)
    requires forall k :: k in ks' && k in seen ==> k in ks
    ensures Carried(f, ks')
  {
    forall p, k | p in f.pods && f.pods[p].Up? && k in ks' && k in KeysOf(f.pods[p].rev.bundle)
      ensures k in f.pods[p].trust
    {
      assert KeysOf(f.pods[p].rev.bundle) <= seen;
    }
  }

  lemma PatchHistory(s: Sys, s': Sys, plan: PassPlan, m: Material, i: nat)
    requires Inv(s) && Patched(s, s', plan, m, i)
    ensures HistoryInv(s')
  {
    ContentsGrow(s.fleet, s.seen, s'.seen);
    CarriedFresh(s.fleet, ViewOf(s.ca).Trusted(), ViewOf(s'.ca).Trusted(), s.seen);
  }

  lemma PatchPhase(s: Sys, e: Event, s': Sys)
    requires Inv(s) && Step(s, e, s') && e.PatchSecret?
    requires Patched(s, s', s.pass.ca.Plan(), s.pass.ca.m, s.pass.ca.sent)
    ensures PhaseInv(s')
  {
    hide Contents, Carried, KeysOf, PassCa, FleetStep, Patches, PassPatches, Issued;
  }

  lemma PatchPassFleet(s: Sys, e: Event, s': Sys)
    requires Inv(s) && Step(s, e, s') && e.PatchSecret?
    requires Patched(s, s', s.pass.ca.Plan(), s.pass.ca.m, s.pass.ca.sent)
    ensures PassFleet(s')
  {
    AfterSteps(s.pass.ca.base, s.pass.ca.inp, s.pass.ca.m);
  }

  lemma PatchKeeps(s: Sys, e: Event, s': Sys)
    requires Inv(s) && Step(s, e, s') && e.PatchSecret?
    ensures Inv(s')
  {
    PatchMark(s, e, s');
    PatchCa(s.ca, s.pass.ca, s.used, s.seen);
    PatchHistory(s, s', s.pass.ca.Plan(), s.pass.ca.m, s.pass.ca.sent);
    PatchPhase(s, e, s');
    PatchPassFleet(s, e, s');
    assert GateInv(s');
  }

  /** The prune gate: the old trust anchor goes only when every live user is on the active key. */
  lemma PruneOnlyWhenReissued(s: Sys, e: Event, s': Sys)
    requires MarkInv(s) && Step(s, e, s') && e.PatchSecret? && ViewOf(s.ca).Promoted?
    requires CaInv(s'.ca) && ViewOf(s'.ca).Steady?
    ensures ViewOf(s'.ca) == Steady(ViewOf(s.ca).n)
    ensures UsersIn(s.users, {ViewOf(s.ca).n})
  {
    PatchCa(s.ca, s.pass.ca, s.used, s.seen);
  }

  lemma UsersKeep(s: Sys, e: Event, s': Sys)
    requires Inv(s) && Step(s, e, s')
    requires e.ListUsers? || e.SkipUsers? || e.EnsureUser? || e.FinishUsers? || e.AddUser? || e.RemoveUser?
    ensures Inv(s')
  {
    hide Contents, Carried, KeysOf, TrustAll, TrustLags, TrustFrom, MarkInv;
    StepKeepsMark(s, e, s');
    UsersView(s, e, s');
    UsersPhase(s, e, s');
  }

  lemma UsersView(s: Sys, e: Event, s': Sys)
    requires MarkInv(s) && Step(s, e, s')
    requires e.ListUsers? || e.SkipUsers? || e.EnsureUser? || e.FinishUsers? || e.AddUser? || e.RemoveUser?
    ensures CaInv(s.ca) && CaInv(s'.ca) && ViewOf(s'.ca) == ViewOf(s.ca)
    ensures s'.fleet == s.fleet && s'.seen == s.seen && s'.used == s.used
    ensures Committed(s') == Committed(s)
  {
    hide KeysOf, PassCa;
  }

  lemma UsersPhase(s: Sys, e: Event, s': Sys)
    requires Inv(s) && Step(s, e, s') && CaInv(s'.ca) && ViewOf(s'.ca) == ViewOf(s.ca)
    requires e.ListUsers? || e.SkipUsers? || e.EnsureUser? || e.FinishUsers? || e.AddUser? || e.RemoveUser?
    ensures PhaseInv(s') && PassFleet(s')
  {
    hide Contents, Carried, KeysOf, TrustAll, TrustLags, TrustFrom, PassCa;
  }

  lemma LabelsKeep(s: Sys, e: Event, s': Sys)
    requires Inv(s) && Step(s, e, s') && (e.PlanLabels? || e.AdoptPool?)
    ensures Inv(s')
  {
    OtherMark(s, e, s');
    StoredKeys(s.ca);
    if e.PlanLabels? {
      var c := Content(HashedBundle(s.ca), e.rest);
      PlannedContents(s.fleet, e.ready, c, (c: Content) => KeysOf(c.bundle) <= s.seen);
    } else if ViewOf(s.ca).Widened? {
      AnnouncedTrust(s'.fleet, ViewOf(s.ca).Trusted(), ViewOf(s.ca).n);
    }
  }

  lemma EndKeeps(s: Sys, e: Event, s': Sys)
    requires Inv(s) && Step(s, e, s') && (e.Finish? || e.Crash?) && Careful(s, e)
    ensures Inv(s')
  {
    OtherMark(s, e, s');
  }

  lemma EnvHistory(s: Sys, e: Event, s': Sys)
    requires Inv(s) && Step(s, e, s') && e.Env?
    ensures HistoryInv(s') && GateInv(s')
  {
    StoredKeys(s.ca);
    FleetStepKeeps(s.fleet, e.e, s'.fleet, BundleKeys(s.ca), Leafs(s.fleet), BundleKeys(s.ca),
                   (c: Content) => KeysOf(c.bundle) <= s.seen);
    var n := if ViewOf(s.ca).Widened? then ViewOf(s.ca).n else 0;
    FleetStepTrusts(s.fleet, e.e, s'.fleet, BundleKeys(s.ca), Leafs(s.fleet), n, s.seen);
  }

  lemma FleetStepTrust(f: Fleet<()>, e: FleetEvent, f': Fleet<()>, trust: set<Key>, leafs: map<PodId, ()>, ks: set<Key>)
    requires FleetStep(f, e, f', trust, leafs) && ks <= trust && TrustAll(f, ks)
    ensures TrustAll(f', ks)
  {
  }

  lemma EnvPhase(s: Sys, e: Event, s': Sys)
    requires Inv(s) && Step(s, e, s') && e.Env?
    ensures PhaseInv(s')
  {
    StoredKeys(s.ca);
    var v := ViewOf(s.ca);
    if v.Fresh? {
      assert AllDown(s'.fleet);
    } else {
      FleetStepTrust(s.fleet, e.e, s'.fleet, BundleKeys(s.ca), Leafs(s.fleet), if v.Widened? then {v.o} else v.Trusted());
    }
  }

  lemma EnvPass(s: Sys, e: Event, s': Sys)
    requires Inv(s) && Step(s, e, s') && e.Env?
    ensures PassFleet(s')
  {
    StoredKeys(s.ca);
    var v := ViewOf(s.ca);
    if TrustAll(s.fleet, v.Trusted()) {
      FleetStepTrust(s.fleet, e.e, s'.fleet, BundleKeys(s.ca), Leafs(s.fleet), v.Trusted());
    }
    assert |s'.fleet.pools| == |s.fleet.pools| && s'.fleet.pools[0].stamp == s.fleet.pools[0].stamp;
  }

  lemma EnvKeeps(s: Sys, e: Event, s': Sys)
    requires Inv(s) && Step(s, e, s') && e.Env?
    ensures Inv(s')
  {
    OtherMark(s, e, s');
    EnvHistory(s, e, s');
    EnvPhase(s, e, s');
    EnvPass(s, e, s');
  }

  /** A pass of the user controller at most creates the CA, or renews and prunes an idle one. */
  lemma UserPassView(ca: Store, inp: RotationInputs, m: Material, n: nat)
    requires CaInv(ca) && Issued(ca, inp, m) && inp.force == NoForce && !inp.rolloutConverged
    requires n <= |Patches(ca, inp, m)|
    ensures
      var ca' := After(ca, inp, m, n);
      && CaInv(ca')
      && (ViewOf(ca') == ViewOf(ca) || (ViewOf(ca).Fresh? && ViewOf(ca') == Steady(m.key)))
      && (ca.certSecret.Some? ==>
            && ca'.certSecret.Some?
            && ca'.certSecret.value.leafsKeyGeneration == ca.certSecret.value.leafsKeyGeneration
            && ca'.keySecret.value.keyGeneration == ca.keySecret.value.keyGeneration)
      && (ca.certSecret.None? && ca'.certSecret.Some? ==> ca'.certSecret.value.leafsKeyGeneration == None)
  {
    AfterSteps(ca, inp, m);
    if n > 0 {
      PatchMoves(ca, inp, m, n - 1);
    }
    if Present(ca) {
      UserPathIsInert(ca, inp, m, n);
    }
  }

  lemma UserPassKeeps(s: Sys, e: Event, s': Sys)
    requires Inv(s) && Step(s, e, s') && e.UserPass?
    ensures Inv(s')
  {
    hide Contents, Carried, KeysOf, Patches, PassPatches, FleetStep, Observes, SyncUsers, PassCa;
    UserPassMark(s, e, s');
    UserPassView(s.ca, e.inp, e.m, e.accepted);
    StoredKeys(s'.ca);
    ContentsGrow(s.fleet, s.seen, s'.seen);
    CarriedFresh(s.fleet, ViewOf(s.ca).Trusted(), ViewOf(s'.ca).Trusted(), s.seen);
  }

  lemma StepKeepsInv(s: Sys, e: Event, s': Sys)
    requires Inv(s) && Step(s, e, s') && Careful(s, e)
    ensures Inv(s')
  {
    hide Inv, Step, Careful;
    match e {
      case Begin(_, _, _, _) => BeginKeeps(s, e, s');
      case PatchSecret => PatchKeeps(s, e, s');
      case ListUsers(_) => UsersKeep(s, e, s');
      case SkipUsers => UsersKeep(s, e, s');
      case EnsureUser(_) => UsersKeep(s, e, s');
      case FinishUsers => UsersKeep(s, e, s');
      case PlanLabels(_, _) => LabelsKeep(s, e, s');
      case AdoptPool => LabelsKeep(s, e, s');
      case Finish => EndKeeps(s, e, s');
      case Crash => EndKeeps(s, e, s');
      case UserPass(_, _, _, _, _) => UserPassKeeps(s, e, s');
      case AddUser(_) => UsersKeep(s, e, s');
      case RemoveUser(_) => UsersKeep(s, e, s');
      case Env(_) => EnvKeeps(s, e, s');
    }
  }

  lemma {:induction false} RunInv(ss: seq<Sys>, es: seq<Event>, i: nat)
    requires Run(ss, es) && i < |ss|
    requires forall j :: 0 <= j < |es| ==> Careful(ss[j], es[j])
    ensures Inv(ss[i])
  {
    if i > 0 {
      RunInv(ss, es, i - 1);
      StepKeepsInv(ss[i - 1], es[i - 1], ss[i]);
    }
  }

  /** At every moment of every careful run each running broker can verify each live user's certificate. */
  lemma UserTrustContinuity(ss: seq<Sys>, es: seq<Event>, i: nat, user: string, q: PodId)
    requires Run(ss, es) && i < |ss| && user in ss[i].users && q in ss[i].fleet.pods
    requires forall j :: 0 <= j < |es| ==> Careful(ss[j], es[j])
    requires ss[i].users[user].Some? && ss[i].fleet.pods[q].Up?
    ensures ss[i].users[user].value in ss[i].fleet.pods[q].trust
  {
    hide Inv;
    RunInv(ss, es, i);
    InvImpliesContinuous(ss[i]);
  }

  /** In every run, wherever passes crash, the old anchor is dropped only when every live user is on the active key. */
  lemma PruneGate(ss: seq<Sys>, es: seq<Event>, i: nat)
    requires Run(ss, es) && i < |es|
    requires ss[i].ca.certSecret.Some? && ss[i].ca.certSecret.value.phase == KeyReplacePromote
    requires ss[i + 1].ca.certSecret.Some? && ss[i + 1].ca.certSecret.value.phase == Idle
    ensures ss[i].ca.keySecret.Some?
    ensures forall u :: u in ss[i].users && ss[i].users[u].Some? ==>
      ss[i].users[u].value == ss[i].ca.keySecret.value.key
  {
    RunMark(ss, es, i);
    RunMark(ss, es, i + 1);
    if es[i].UserPass? {
      UserPathIsInert(ss[i].ca, es[i].inp, es[i].m, es[i].accepted);
    } else if es[i].PatchSecret? {
      PruneOnlyWhenReissued(ss[i], es[i], ss[i + 1]);
    }
  }
}
