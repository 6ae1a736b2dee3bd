/**
 The convergence gate of the clients CA: its bundle enters the hash while a key
 replacement is in progress, and whenever that content changes the check is
 positive again only when the new content is in use everywhere.
 */
module ClientsGate {
  import opened Options
  import opened CaRotation
  import opened CaViews
  import opened CaPass
  import opened Fleet
  import opened Paths
  import opened ClientsTrust
  import ClientsTrustProof
  import ClientsTrustLimits
  import Rollout
  import Convergence

  /** The labels agree on a content other than the current one. */
  ghost predicate Stale(s: Sys)
  {
    Uniform(s.fleet) && s.fleet.pools[0].stamp.value.bundle != Hashed(s.ca)
  }

  /** Every label, template and pod carries exactly the current content. */
  ghost predicate OnCurrent(s: Sys)
  {
    RolledTo(s.fleet, (c: Content) => c.bundle == Hashed(s.ca))
  }

  ghost predicate RollStep(s: Sys, e: Event, s': Sys)
  {
    Step(s, e, s') && (e.Crash? ==> !Stale(s))
  }

  ghost predicate Labelling(s: Sys)
  {
    s.pass.Running? && s.pass.stage.Adopt? && s.pass.stage.j > 0
  }

  // ------------------------------------------------------------------- invariant

  /** Labels are written from the current content, the leading pool first. */
  ghost predicate LabelInv(s: Sys)
  {
    && s.fleet.pools != []
    && (!Present(s.ca) ==> !Uniform(s.fleet))
    && (s.pass.Running? && s.pass.stage.Adopt? ==>
          && Present(s.ca)
          && var hs := s.pass.stage.hashes;
          && |hs| == |s.fleet.pools| && s.pass.stage.j <= |hs|
          && hs[0].bundle == Hashed(s.ca)
          && (s.pass.stage.j > 0 ==> s.fleet.pools[0].stamp == Some(hs[0])))
    && (Stale(s) ==> s.pass.Running? && !Labelling(s))
  }

  ghost predicate RollInv(s: Sys)
  {
    MarkInv(s) && WellFormed(s.fleet) && LabelInv(s)
  }

  lemma FormKeeps(s: Sys, e: Event, s': Sys)
    requires WellFormed(s.fleet) && Step(s, e, s')
    ensures WellFormed(s'.fleet)
  {
    hide CaInv, PassPatches, Issued, Observes, KeysOf;
    if e.Env? {
      FleetStepKeeps(s.fleet, e.e, s'.fleet, BundleKeys(s.ca), Leafs(s.fleet), {}, (c: Content) => true);
    }
  }

  lemma PatchLabels(s: Sys, e: Event, s': Sys)
    requires LabelInv(s) && Step(s, e, s') && e.PatchSecret?
    ensures LabelInv(s')
  {
    hide FleetStep, Observes;
  }

  lemma PlanLabels(s: Sys, e: Event, s': Sys)
    requires LabelInv(s) && Step(s, e, s') && e.PlanLabels?
    ensures LabelInv(s')
  {
    hide FleetStep, Observes, Rollout.Planned;
    Rollout.FirstPoolAlwaysDesired(RolloutView(s.fleet, e.ready), Content(HashedBundle(s.ca), e.rest));
  }

  lemma AdoptLabels(s: Sys, e: Event, s': Sys)
    requires LabelInv(s) && Step(s, e, s') && e.AdoptPool?
    ensures LabelInv(s')
  {
    hide FleetStep, Observes;
  }

  /** The user controller's own pass changes the bundle of an idle CA only, which is not hashed. */
  lemma UserPassHashed(ca: Store, inp: RotationInputs, m: Material, n: nat)
    requires Present(ca) && inp.force == NoForce && !inp.rolloutConverged && n <= |Patches(ca, inp, m)|
    ensures Present(After(ca, inp, m, n)) && Hashed(After(ca, inp, m, n)) == Hashed(ca)
  {
    UserPathIsInert(ca, inp, m, n);
    AfterSteps(ca, inp, m);
  }

  lemma UserPassLabels(s: Sys, e: Event, s': Sys)
    requires LabelInv(s) && MarkInv(s) && Step(s, e, s') && e.UserPass?
    ensures LabelInv(s')
  {
    hide FleetStep, Observes, After, Patches, PassPatches, Issued, MarkerInv, PassUsers, KeysOf;
    if Present(s.ca) {
      UserPassHashed(s.ca, e.inp, e.m, e.accepted);
    }
  }

  lemma OtherLabels(s: Sys, e: Event, s': Sys)
    requires LabelInv(s) && RollStep(s, e, s')
    requires !e.PatchSecret? && !e.AdoptPool? && !e.PlanLabels? && !e.UserPass?
    ensures LabelInv(s')
  {
    hide FleetStep, Observes, Issued, PassPatches, Uniform;
    if e.Env? {
      FleetStepLabels(s.fleet, e.e, s'.fleet, BundleKeys(s.ca), Leafs(s.fleet));
    }
  }

  lemma StepKeepsRoll(s: Sys, e: Event, s': Sys)
    requires RollInv(s) && RollStep(s, e, s')
    ensures RollInv(s')
  {
    hide MarkInv, WellFormed, LabelInv, Step, Stale;
    ClientsTrustProof.StepKeepsMark(s, e, s');
    FormKeeps(s, e, s');
    if e.PatchSecret? {
      PatchLabels(s, e, s');
    } else if e.AdoptPool? {
      AdoptLabels(s, e, s');
    } else if e.PlanLabels? {
      PlanLabels(s, e, s');
    } else if e.UserPass? {
      UserPassLabels(s, e, s');
    } else {
      OtherLabels(s, e, s');
    }
  }

  lemma {:induction false} PathRoll(ss: seq<Sys>, es: seq<Event>, i: nat)
    requires Path(ss, es, RollStep) && RollInv(ss[0]) && i < |ss|
    ensures RollInv(ss[i])
  {
    hide RollInv, RollStep;
    if i > 0 {
      PathRoll(ss, es, i - 1);
      StepKeepsRoll(ss[i - 1], es[i - 1], ss[i]);
    }
  }

  lemma InitRoll(s: Sys)
    requires Init(s)
    ensures RollInv(s)
  {
  }

  // -------------------------------------------------------------------- the gate

  lemma ConvergedOnCurrent(s: Sys)
    requires RollInv(s) && s.pass.NoPass? && FleetConverged(s.fleet)
    ensures OnCurrent(s) && Present(s.ca)
  {
    hide MarkInv;
    assert Uniform(s.fleet);
  }

  /**
   The convergence gate: in every run in which no pass crashes while the labels
   agree on a content that is no longer current, a positive check between passes
   means that every label, template and pod carries exactly the current content,
   which in the middle of a key replacement names the staged key.
   */
  lemma ConvergenceGate(ss: seq<Sys>, es: seq<Event>, i: nat,
                        pools: seq<Convergence.NodePool<Content>>, sets: seq<Convergence.StatefulSet<Content>>)
    requires Run(ss, es) && i < |ss| && ss[i].pass.NoPass?
    requires forall j :: 0 <= j < |es| && es[j].Crash? ==> !Stale(ss[j])
    requires Observes(ss[i].fleet, pools, sets) && Convergence.Converged(pools, sets)
    ensures OnCurrent(ss[i]) && CaInv(ss[i].ca)
    ensures
      var v, b := ViewOf(ss[i].ca), Hashed(ss[i].ca);
      (v.Widened? || v.Crossed? || v.Promoted? ==> v.n in KeysOf(b)) && (v.Steady? ==> b == [])
  {
    hide Step, Stale, Observes, Convergence.Converged, Init, MarkerInv, PassUsers, PassSecrets;
    InitRoll(ss[0]);
    assert forall j :: 0 <= j < |es| ==> RollStep(ss[j], es[j], ss[j + 1]);
    PathRoll(ss, es, i);
    ObservedConverged(ss[i].fleet, pools, sets);
    ConvergedOnCurrent(ss[i]);
    StoredKeys(ss[i].ca);
  }

  // ------------------------------------------------------------------- exactness

  /** Wherever steps without stale crashes lead, a converged fleet between passes is on the current content. */
  ghost predicate GateSafe(s: Sys)
  {
    forall ss: seq<Sys>, es: seq<Event> ::
      Path(ss, es, RollStep) && ss[0] == s && ss[|es|].pass.NoPass? && FleetConverged(ss[|es|].fleet) ==> OnCurrent(ss[|es|])
  }

  /** A crash while the labels are stale lets the check succeed on a content that is no longer current. */
  lemma StaleCrashMisleads(s: Sys) returns (ss: seq<Sys>, es: seq<Event>)
    requires RollInv(s) && Stale(s)
    ensures Path(ss, es, RollStep) && |ss| == |es| + 1 && ss[0] == s.(pass := NoPass)
    ensures ss[|es|].pass.NoPass? && FleetConverged(ss[|es|].fleet) && !OnCurrent(ss[|es|])
  {
    hide Step, Careful, CaInv, PassCa;
    ss, es := ClientsTrustLimits.Settle(s.(pass := NoPass));
    forall i | 0 <= i < |es| ensures RollStep(ss[i], es[i], ss[i + 1]) {
      assert ClientsTrustLimits.CarefulStep(ss[i], es[i], ss[i + 1]);
    }
    assert ss[|es|].fleet.pools[0].stamp == s.fleet.pools[0].stamp;
  }

  /** A crash keeps the gate sound for every continuation if and only if the labels are not stale. */
  lemma GateIsSafeIff(s: Sys)
    requires RollInv(s) && s.pass.Running?
    ensures GateSafe(s.(pass := NoPass)) <==> !Stale(s)
  {
    hide RollInv, RollStep, OnCurrent, Stale, FleetConverged;
    var c := s.(pass := NoPass);
    if Stale(s) {
      var ss, es := StaleCrashMisleads(s);
      assert !GateSafe(c);
    } else {
      CrashRolls(s);
      forall ss: seq<Sys>, es: seq<Event>
        | Path(ss, es, RollStep) && ss[0] == c && ss[|es|].pass.NoPass? && FleetConverged(ss[|es|].fleet)
        ensures OnCurrent(ss[|es|])
      {
        PathRoll(ss, es, |es|);
        ConvergedOnCurrent(ss[|es|]);
      }
    }
  }

  lemma CrashRolls(s: Sys)
    requires RollInv(s) && s.pass.Running? && !Stale(s)
    ensures RollInv(s.(pass := NoPass))
  {
    hide RollInv, Stale;
    StepKeepsRoll(s, Crash, s.(pass := NoPass));
  }
}
