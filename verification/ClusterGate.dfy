/**
 The convergence gate of the cluster CA: whatever changed the stored bundle, a
 renewal, a prune or a step of a key replacement, the check is positive again
 only when that very bundle is in use everywhere.
 */
module ClusterGate {
  import opened Options
  import opened CaRotation
  import opened CaViews
  import opened CaPass
  import opened Fleet
  import opened Paths
  import opened ClusterTrust
  import opened ClusterTrustMoves
  import Rollout
  import Convergence

  /** The labels agree on a bundle other than the stored one. */
  ghost predicate Stale(s: Sys)
  {
    && Uniform(s.fleet) && s.ca.certSecret.Some?
    && s.fleet.pools[0].stamp.value.bundle != s.ca.certSecret.value.bundle
  }

  /** And every broker can run, so the fleet may converge on it. */
  ghost predicate Hazard(s: Sys)
  {
    Stale(s) && Stocked(s)
  }

  /** Every label, template and pod carries exactly the stored bundle. */
  ghost predicate OnStored(s: Sys)
  {
    s.ca.certSecret.Some? && RolledTo(s.fleet, (c: Content) => c.bundle == s.ca.certSecret.value.bundle)
  }

  ghost predicate RollStep(s: Sys, e: Event, s': Sys)
  {
    Step(s, e, s') && (e.Crash? ==> !Hazard(s))
  }

  // ------------------------------------------------------------------ invariant

  ghost predicate SecretsInv(s: Sys)
  {
    && CaInv(s.ca) && ViewOf(s.ca).Trusted() <= s.seen <= s.used
    && (s.pass.Running? ==>
          && PassCa(s.ca, s.pass.ca, s.used, s.seen)
          && (!s.pass.stage.Secrets? ==> !s.pass.ca.Unfinished()))
  }

  ghost predicate StockInv(s: Sys)
  {
    && WellFormed(s.fleet)
    && (s.keystore == map[] || Stocked(s)) && (AllDown(s.fleet) || Stocked(s))
  }

  /** Labels are written from the stored bundle, the leading pool first. */
  ghost predicate LabelInv(s: Sys)
  {
    && s.fleet.pools != []
    && (s.ca.certSecret.None? ==> !Uniform(s.fleet))
    && (s.pass.Running? && s.pass.stage.Adopt? ==>
          && s.ca.certSecret.Some?
          && var hs := s.pass.stage.hashes;
          && |hs| == |s.fleet.pools| && s.pass.stage.j <= |hs|
          && hs[0].bundle == s.ca.certSecret.value.bundle
          && (s.pass.stage.j > 0 ==> s.fleet.pools[0].stamp == Some(hs[0])))
    && (Hazard(s) ==> s.pass.Running? && !Labelling(s))
  }

  ghost predicate RollInv(s: Sys)
  {
    SecretsInv(s) && StockInv(s) && LabelInv(s)
  }

  lemma SecretsKeep(s: Sys, e: Event, s': Sys)
    requires SecretsInv(s) && Step(s, e, s')
    ensures SecretsInv(s')
  {
    hide FleetStep, KeystorePatched, KeysOf, Observes;
    if e.Begin? {
      BeginCa(s.ca, s'.pass.ca, s'.used, s'.seen);
    } else if e.PatchSecret? {
      PatchCa(s.ca, s.pass.ca, s.used, s.seen);
      PatchKeepsPass(s.ca, s.pass.ca, s.used, s.seen);
    } else {
      assert s'.ca == s.ca && s'.seen == s.seen && s'.used == s.used;
    }
  }

  lemma StockKeeps(s: Sys, e: Event, s': Sys)
    requires StockInv(s) && Step(s, e, s')
    ensures StockInv(s')
  {
    hide CaInv, PassPatches, Issued, Observes, KeysOf;
    if e.Env? {
      FleetStepLabels(s.fleet, e.e, s'.fleet, BundleKeys(s.ca), s.keystore);
      FleetStepKeeps(s.fleet, e.e, s'.fleet, BundleKeys(s.ca), s.keystore, {}, (c: Content) => true);
    } else if e.CronRenew? {
      assert s'.keystore.Keys == s.keystore.Keys;
    }
  }

  lemma PatchLabels(s: Sys, e: Event, s': Sys)
    requires LabelInv(s) && Step(s, e, s') && e.PatchSecret?
    ensures LabelInv(s')
  {
    hide FleetStep, KeystorePatched, Observes;
  }

  lemma PlanLabels(s: Sys, e: Event, s': Sys)
    requires LabelInv(s) && StockInv(s) && Step(s, e, s') && (e.EnsureKeystore? || e.SkipKeystore?)
    ensures LabelInv(s')
  {
    hide FleetStep, Observes, Rollout.Planned;
    var c := Content(s.ca.certSecret.value.bundle, e.rest);
    Rollout.FirstPoolAlwaysDesired(RolloutView(s.fleet, e.ready), c);
  }

  lemma AdoptLabels(s: Sys, e: Event, s': Sys)
    requires LabelInv(s) && Step(s, e, s') && e.AdoptPool?
    ensures LabelInv(s')
  {
    hide FleetStep, KeystorePatched, Observes;
  }

  lemma OtherLabels(s: Sys, e: Event, s': Sys)
    requires LabelInv(s) && RollStep(s, e, s')
    requires !e.PatchSecret? && !e.AdoptPool? && !e.EnsureKeystore? && !e.SkipKeystore?
    ensures LabelInv(s')
  {
    hide FleetStep, KeystorePatched, Observes, Issued, PassPatches, Uniform;
    if e.Env? {
      FleetStepLabels(s.fleet, e.e, s'.fleet, BundleKeys(s.ca), s.keystore);
    } else if e.CronRenew? {
      assert s'.keystore.Keys == s.keystore.Keys;
    }
  }

  lemma StepKeepsRoll(s: Sys, e: Event, s': Sys)
    requires RollInv(s) && RollStep(s, e, s')
    ensures RollInv(s')
  {
    hide SecretsInv, StockInv, LabelInv, Step, Hazard;
    SecretsKeep(s, e, s');
    StockKeeps(s, e, s');
    if e.PatchSecret? {
      PatchLabels(s, e, s');
    } else if e.AdoptPool? {
      AdoptLabels(s, e, s');
    } else if e.EnsureKeystore? || e.SkipKeystore? {
      PlanLabels(s, e, s');
    } else {
      OtherLabels(s, e, s');
    }
  }

  lemma {:induction false} PathRoll(ss: seq<Sys>, es: seq<Event>, i: nat)
    requires Path(ss, es, RollStep) && RollInv(ss[0]) && i < |ss|
    ensures RollInv(ss[i])
  {
    hide RollInv, RollStep;
    if i > 0 {
      PathRoll(ss, es, i - 1);
      StepKeepsRoll(ss[i - 1], es[i - 1], ss[i]);
    }
  }

  lemma InitRoll(s: Sys)
    requires Init(s)
    ensures RollInv(s)
  {
  }

  // -------------------------------------------------------------------- the gate

  lemma ConvergedOnStored(s: Sys)
    requires RollInv(s) && s.pass.NoPass? && FleetConverged(s.fleet)
    ensures OnStored(s)
  {
    hide SecretsInv;
    assert Uniform(s.fleet) && Stocked(s);
  }

  /**
   The convergence gate: in every run in which no pass crashes while the labels
   agree on a bundle that is no longer stored, a positive check between passes
   means that every label, template and pod carries exactly the stored bundle.
   In the middle of a key replacement that bundle names the staged key, and
   after a promotion the promoted key signs it.
   */
  lemma ConvergenceGate(ss: seq<Sys>, es: seq<Event>, i: nat,
                        pools: seq<Convergence.NodePool<Content>>, sets: seq<Convergence.StatefulSet<Content>>)
    requires Run(ss, es) && i < |ss| && ss[i].pass.NoPass?
    requires forall j :: 0 <= j < |es| && es[j].Crash? ==> !Hazard(ss[j])
    requires Observes(ss[i].fleet, pools, sets) && Convergence.Converged(pools, sets)
    ensures OnStored(ss[i]) && CaInv(ss[i].ca)
    ensures
      var v, b := ViewOf(ss[i].ca), ss[i].ca.certSecret.value.bundle;
      (v.Widened? || v.Crossed? ==> v.n in KeysOf(b)) && (v.Promoted? ==> SignerOf(b) == {v.n})
  {
    hide Step, Hazard, Observes, Convergence.Converged, Init;
    InitRoll(ss[0]);
    assert forall j :: 0 <= j < |es| ==> RollStep(ss[j], es[j], ss[j + 1]);
    PathRoll(ss, es, i);
    ObservedConverged(ss[i].fleet, pools, sets);
    ConvergedOnStored(ss[i]);
    StoredKeys(ss[i].ca);
  }

  // ------------------------------------------------------------------- exactness

  /** Wherever steps without hazardous crashes lead, a converged fleet between passes is on the stored bundle. */
  ghost predicate GateSafe(s: Sys)
  {
    forall ss: seq<Sys>, es: seq<Event> ::
      Path(ss, es, RollStep) && ss[0] == s && ss[|es|].pass.NoPass? && FleetConverged(ss[|es|].fleet) ==> OnStored(ss[|es|])
  }

  /** A hazardous crash lets the check succeed on a bundle that is no longer stored. */
  lemma HazardousCrashMisleads(s: Sys) returns (ss: seq<Sys>, es: seq<Event>)
    requires RollInv(s) && Hazard(s)
    ensures Path(ss, es, RollStep) && |ss| == |es| + 1 && ss[0] == s.(pass := NoPass)
    ensures ss[|es|].pass.NoPass? && FleetConverged(ss[|es|].fleet) && !OnStored(ss[|es|])
  {
    hide Step, Careful, CaInv, PassCa;
    ss, es := Settle(s.(pass := NoPass), {});
    forall i | 0 <= i < |es| ensures RollStep(ss[i], es[i], ss[i + 1]) {
      assert CarefulStep(ss[i], es[i], ss[i + 1]);
    }
    assert ss[|es|].fleet.pools[0].stamp == s.fleet.pools[0].stamp;
  }

  /** A crash keeps the gate sound for every continuation if and only if it is not hazardous. */
  lemma GateIsSafeIff(s: Sys)
    requires RollInv(s) && s.pass.Running?
    ensures GateSafe(s.(pass := NoPass)) <==> !Hazard(s)
  {
    hide RollInv, RollStep, OnStored, Hazard, FleetConverged;
    var c := s.(pass := NoPass);
    if Hazard(s) {
      var ss, es := HazardousCrashMisleads(s);
      assert !GateSafe(c);
    } else {
      CrashRolls(s);
      forall ss: seq<Sys>, es: seq<Event>
        | Path(ss, es, RollStep) && ss[0] == c && ss[|es|].pass.NoPass? && FleetConverged(ss[|es|].fleet)
        ensures OnStored(ss[|es|])
      {
        PathRoll(ss, es, |es|);
        ConvergedOnStored(ss[|es|]);
      }
    }
  }

  lemma CrashRolls(s: Sys)
    requires RollInv(s) && s.pass.Running? && !Hazard(s)
    ensures RollInv(s.(pass := NoPass))
  {
    hide RollInv, Hazard;
    StepKeepsRoll(s, Crash, s.(pass := NoPass));
  }
}
