/**
 Trust continuity of the cluster CA.

 The system interleaves, patch by patch, the operator's passes (both CA
 Secrets, the operator identity, the broker keystore, the pool labels) with
 pods that start, stop and reload at any time, StatefulSets that follow their
 label at any time, and keystore renewals by the CronJob.  A pass may crash
 between any two patches, except at the points that `Harmful` names.

 Theorem (`TrustContinuity`): at every moment every running broker, and the
 operator, presents a leaf whose signer every running broker, and the operator,
 trusts.
 */
module ClusterTrust {
  import opened Options
  import opened CaRotation
  import opened CaViews
  import opened CaPass
  import opened Fleet
  import Rollout
  import Convergence

  /** A pass sends CA patches, then TLS material, then pool labels. */
  datatype Stage = Secrets | Tls | Adopt(hashes: seq<Content>, j: nat)

  datatype Pass = NoPass | Running(ca: CaPass, stage: Stage)

  datatype Identity = Identity(leaf: Key, trust: set<Key>)

  /**
   `keystore` maps each broker to the signer of the leaf the keystore Secret
   serves.  `used` holds every key generated so far; `seen` and `led` hold the
   keys that have been in, and at the head of, the stored bundle.
   */
  datatype Sys = Sys(
    ca: Store,
    keystore: map<PodId, Key>,
    operator: Option<Identity>,
    fleet: Fleet<Key>,
    pass: Pass,
    used: set<Key>,
    seen: set<Key>,
    led: set<Key>)

  datatype Event =
    | Begin(inp: RotationInputs, m: Material,
            pools: seq<Convergence.NodePool<Content>>, sets: seq<Convergence.StatefulSet<Content>>)
    | PatchSecret
    | EnsureOperatorCert(expiring: bool)
    | EnsureKeystore(keystore: map<PodId, Key>, rest: nat, ready: seq<bool>)
    | SkipKeystore(rest: nat, ready: seq<bool>)
    | AdoptPool
    | Finish
    | Crash
    | CronRenew(pod: PodId)
    | Env(e: FleetEvent)

  predicate Plans(p: Pass, plan: Plan)
  {
    p.Running? && p.ca.Plan() == Rotate(plan)
  }

  /** A finished pass over the cluster CA asks for a forced reissue exactly when it promoted. */
  lemma ReportedReissue(st: Store, inp: RotationInputs, m: Material)
    requires inp.which == Cluster && PassOutcome(st, inp, m).Ok?
    ensures PassOutcome(st, inp, m).value.transition == Reissue <==> PassPlanOf(st, inp) == Rotate(PromoteNewKey)
    ensures CaInv(st) && Issued(st, inp, m) && OldSignerLive(st, inp) && PassPlanOf(st, inp) == Rotate(PromoteNewKey) ==>
      PassOutcome(st, inp, m).value.signingCert.key == PassOutcome(st, inp, m).value.signingKey
  {
    AfterSteps(st, inp, m);
    var ws := Patches(st, inp, m);
    assert ws[..|ws|] == ws;
    if CaInv(st) && Issued(st, inp, m) && OldSignerLive(st, inp) && PassPlanOf(st, inp) == Rotate(PromoteNewKey) {
      PatchMoves(st, inp, m, 1);
    }
  }

  /** `ensure_broker_keystore`: a leaf for every broker, reissued by the active key or kept. */
  ghost predicate KeystorePatched(s: Sys, ks: map<PodId, Key>, signer: Key, force: bool)
  {
    && ks.Keys == s.fleet.pods.Keys
    && forall p :: p in ks ==> ks[p] == signer || (!force && p in s.keystore && ks[p] == s.keystore[p])
  }

  ghost function ToAdopt(s: Sys, rest: nat, ready: seq<bool>): (stage: Stage)
    requires s.ca.certSecret.Some? && |ready| == |s.fleet.pools|
  {
    Adopt(Rollout.Planned(RolloutView(s.fleet, ready), Content(s.ca.certSecret.value.bundle, rest)), 0)
  }

  ghost predicate Step(s: Sys, e: Event, s': Sys)
  {
    match e
    case Begin(inp, m, pools, sets) =>
      && s.pass.NoPass?
      && inp.which == Cluster
      && Issued(s.ca, inp, m) && OldSignerLive(s.ca, inp) && m.key !in s.used
      && PassPatches(s.ca, inp, m).Ok?
      && Observes(s.fleet, pools, sets) && (inp.rolloutConverged <==> Convergence.Converged(pools, sets))
      && s' == s.(pass := Running(CaPass(s.ca, inp, m, 0), Secrets), used := s.used + {m.key})
    case PatchSecret =>
      && s.pass.Running? && s.pass.stage.Secrets? && s.pass.ca.Unfinished()
      && var p := s.pass.ca;
      && var ca' := ApplyPatch(s.ca, p.Ws()[p.sent]);
      && s' == s.(ca := ca', pass := s.pass.(ca := p.(sent := p.sent + 1)),
                  seen := s.seen + BundleKeys(ca'), led := s.led + StoredSigner(ca'))
    case EnsureOperatorCert(expiring) =>
      && s.pass.Running? && s.pass.stage.Secrets? && !s.pass.ca.Unfinished() && Present(s.ca)
      && var keep := !expiring && s.operator.Some? && s.operator.value.leaf in StoredSigner(s.ca);
      && var leaf := if keep then s.operator.value.leaf else s.ca.keySecret.value.key;
      && s' == s.(pass := s.pass.(stage := Tls), operator := Some(Identity(leaf, BundleKeys(s.ca))))
    case EnsureKeystore(ks, rest, ready) =>
      && s.pass.Running? && s.pass.stage.Tls? && Present(s.ca) && |ready| == |s.fleet.pools|
      && KeystorePatched(s, ks, s.ca.keySecret.value.key, Plans(s.pass, PromoteNewKey))
      && s' == s.(keystore := ks, pass := s.pass.(stage := ToAdopt(s, rest, ready)))
    case SkipKeystore(rest, ready) =>
      && s.pass.Running? && s.pass.stage.Tls? && Present(s.ca) && |ready| == |s.fleet.pools|
      && s' == s.(pass := s.pass.(stage := ToAdopt(s, rest, ready)))
    case AdoptPool =>
      && s.pass.Running? && s.pass.stage.Adopt?
      && var j := s.pass.stage.j;
      && j < |s.pass.stage.hashes| && j < |s.fleet.pools|
      && s' == s.(fleet := Relabel(s.fleet, j, s.pass.stage.hashes[j]),
                  pass := s.pass.(stage := s.pass.stage.(j := j + 1)))
    case Finish =>
      && s.pass.Running? && s.pass.stage.Adopt? && s.pass.stage.j == |s.pass.stage.hashes|
      && s' == s.(pass := NoPass)
    case Crash => s.pass.Running? && s' == s.(pass := NoPass)
    case CronRenew(p) =>
      && Present(s.ca) && p in s.keystore
      && s' == s.(keystore := s.keystore[p := s.ca.keySecret.value.key])
    case Env(fe) =>
      && FleetStep(s.fleet, fe, s'.fleet, BundleKeys(s.ca), s.keystore)
      && s' == s.(fleet := s'.fleet)
  }

  /** The new trust or the new signer is stored, but no pool label announces it yet. */
  ghost predicate Committed(s: Sys)
  {
    && (Plans(s.pass, StartKeyReplace) || Plans(s.pass, PromoteNewKey))
    && match s.pass.stage
       case Secrets => !s.pass.ca.Unfinished()
       case Tls => true
       case Adopt(_, j) => j == 0
  }

  /** Every broker has an entry in the keystore Secret. */
  ghost predicate Stocked(s: Sys)
  {
    s.keystore.Keys == s.fleet.pods.Keys
  }

  /** The labels agree and every broker can run, yet a broker on the label, or the operator, does not trust `n`. */
  ghost predicate Unprepared(s: Sys, n: Key)
  {
    && Uniform(s.fleet) && Stocked(s)
    && (TrustLags(s.fleet, n) || (s.operator.Some? && n !in s.operator.value.trust))
  }

  /** A broker on the label, the keystore or the operator still holds a leaf that `n` did not sign. */
  ghost predicate LeafsLag(s: Sys, n: Key)
  {
    || (exists p :: OnLabel(s.fleet, p) && s.fleet.pods[p].leaf != n)
    || !KeystoreIn(s.keystore, {n})
    || (s.operator.Some? && s.operator.value.leaf != n)
  }

  /**
   A crash here breaks trust: the labels agree, so no roll follows by itself.
   After new trust was stored, someone does not have it yet; after a new signer
   was stored, someone still holds a leaf of the old one.
   */
  ghost predicate Harmful(s: Sys)
  {
    && Committed(s) && Present(s.ca)
    && if Plans(s.pass, StartKeyReplace) then Unprepared(s, s.pass.ca.m.key) else LeafsLag(s, s.ca.keySecret.value.key)
  }

  /**
   The hypothesis on runs: no pass ends at a harmful point, and a promoting
   pass skips the keystore only if it has nothing to reissue.
   */
  ghost predicate Careful(s: Sys, e: Event)
  {
    && (e.Crash? ==> !Harmful(s))
    && (e.SkipKeystore? && Plans(s.pass, PromoteNewKey) && Present(s.ca) ==> KeystoreIn(s.keystore, {s.ca.keySecret.value.key}))
  }

  ghost predicate Init(s: Sys)
  {
    && s.ca == Store(None, None) && s.keystore == map[] && s.operator == None && s.pass == NoPass
    && s.seen == s.led == {}
    && WellFormed(s.fleet) && AllDown(s.fleet)
    && forall i :: 0 <= i < |s.fleet.pools| ==> s.fleet.pools[i] == Pool(None, None, {})
  }

  ghost predicate Run(ss: seq<Sys>, es: seq<Event>)
  {
    && |ss| == |es| + 1
    && Init(ss[0])
    && forall i :: 0 <= i < |es| ==> Step(ss[i], es[i], ss[i + 1])
  }

  /** Every running party presents a leaf that every running party trusts. */
  ghost predicate Continuous(s: Sys)
  {
    && (forall p, q :: p in s.fleet.pods && q in s.fleet.pods && s.fleet.pods[p].Up? && s.fleet.pods[q].Up? ==>
          s.fleet.pods[p].leaf in s.fleet.pods[q].trust)
    && (s.operator.Some? ==> forall p :: p in s.fleet.pods && s.fleet.pods[p].Up? ==>
          && s.operator.value.leaf in s.fleet.pods[p].trust
          && s.fleet.pods[p].leaf in s.operator.value.trust)
  }

  // --------------------------------------------------------------- invariant

  /** All leafs, served or loaded, are signed by `leafs`; all loaded trust includes `trusts`. */
  ghost predicate Parties(s: Sys, leafs: set<Key>, trusts: set<Key>)
  {
    && TrustAll(s.fleet, trusts)
    && LeafsIn(s.fleet, leafs)
    && KeystoreIn(s.keystore, leafs)
    && (s.operator.Some? ==> s.operator.value.leaf in leafs && trusts <= s.operator.value.trust)
  }

  ghost predicate LeafsIn(f: Fleet<Key>, ks: set<Key>)
  {
    forall p :: p in f.pods && f.pods[p].Up? ==> f.pods[p].leaf in ks
  }

  ghost predicate KeystoreIn(keystore: map<PodId, Key>, ks: set<Key>)
  {
    forall p :: p in keystore ==> keystore[p] in ks
  }

  ghost predicate PhaseInv(s: Sys)
    requires CaInv(s.ca)
  {
    match ViewOf(s.ca)
    case Fresh => AllDown(s.fleet) && s.keystore == map[] && s.operator == None && s.seen == s.led == {}
    case Steady(a) => Parties(s, {a}, {a})
    case Widened(o, n) => Parties(s, {o}, {o})
    case Crossed(o, n) => Parties(s, {o, n}, {o, n})
    case Promoted(n, o) => Parties(s, {n, o}, {n, o})
  }

  ghost predicate Known(c: Content, seen: set<Key>, led: set<Key>)
  {
    KeysOf(c.bundle) <= seen && c.bundle != [] && c.bundle[0].Cert? && c.bundle[0].key in led
  }

  ghost predicate HistoryInv(s: Sys)
    requires CaInv(s.ca)
  {
    && var v := ViewOf(s.ca);
    && v.Trusted() <= s.seen <= s.used && s.led <= s.seen
    && StoredSigner(s.ca) <= s.led
    && WellFormed(s.fleet)
    && Contents(s.fleet, c => Known(c, s.seen, s.led))
    && Carried(s.fleet, v.Trusted())
    && ((v.Widened? || v.Crossed?) ==> v.n !in s.led)
    && TrustFrom(s.fleet, s.seen)
    && (s.operator.Some? ==> s.operator.value.trust <= s.seen)
    && (s.keystore == map[] || Stocked(s))
    && (AllDown(s.fleet) || Stocked(s))
  }

  /** The promoting pass has not reached the keystore yet. */
  ghost predicate Reissuing(s: Sys)
  {
    Plans(s.pass, PromoteNewKey) && !s.pass.stage.Adopt?
  }

  /** Pods of a revision that announces the new signer run a leaf of that signer. */
  ghost predicate AnnouncedLeafs(f: Fleet<Key>, n: Key)
  {
    forall p :: p in f.pods && f.pods[p].Up? && SignerOf(f.pods[p].rev.bundle) == {n} ==> f.pods[p].leaf == n
  }

  /** While the labels agree, every pod that runs them has a leaf of the new signer. */
  ghost predicate LabelLeafs(f: Fleet<Key>, n: Key)
  {
    Uniform(f) ==> forall p :: OnLabel(f, p) ==> f.pods[p].leaf == n
  }

  /** Outside the committed window nobody that may count as rolled is behind the current step of the rotation. */
  ghost predicate GateInv(s: Sys)
    requires CaInv(s.ca) && s.fleet.pools != []
  {
    match ViewOf(s.ca)
    case Fresh => true
    case Steady(_) => true
    case Widened(o, n) => !Committed(s) ==> !Unprepared(s, n)
    case Crossed(_, _) => true
    case Promoted(n, o) =>
      && (!Committed(s) ==> LabelLeafs(s.fleet, n))
      && AnnouncedLeafs(s.fleet, n)
      && (!Reissuing(s) ==> KeystoreIn(s.keystore, {n}))
      && (Reissuing(s) ==> Contents(s.fleet, (c: Content) => SignerOf(c.bundle) != {n}))
      && (s.operator.Some? && !(Plans(s.pass, PromoteNewKey) && s.pass.stage.Secrets?) ==> s.operator.value.leaf == n)
  }

  /** The pass has written its first label. */
  ghost predicate Labelling(s: Sys)
  {
    s.pass.Running? && s.pass.stage.Adopt? && s.pass.stage.j > 0
  }

  /** What the gate established when the pass began, and the labels it is about to write. */
  ghost predicate PassFleet(s: Sys)
    requires CaInv(s.ca)
  {
    && var v := ViewOf(s.ca);
    && (Plans(s.pass, PromoteNewKey) && s.pass.ca.Unfinished() && (v.Widened? || v.Crossed?) ==>
          TrustAll(s.fleet, {v.o, v.n}) && (s.operator.Some? ==> v.n in s.operator.value.trust))
    && (Plans(s.pass, PruneOldTrust) && v.Promoted? ==> LeafsIn(s.fleet, {v.n}))
    && (Plans(s.pass, PromoteNewKey) && !Labelling(s) ==> Uniform(s.fleet) && Stocked(s))
    && (s.pass.Running? && !s.pass.stage.Secrets? ==> s.operator.Some? && s.operator.value.trust == BundleKeys(s.ca))
    && (s.pass.Running? && s.pass.stage.Adopt? ==>
          && s.ca.certSecret.Some?
          && var hs := s.pass.stage.hashes;
          && |hs| == |s.fleet.pools| && |hs| > 0 && s.pass.stage.j <= |hs|
          && hs[0].bundle == s.ca.certSecret.value.bundle
          && (forall i :: 0 <= i < |hs| ==> Known(hs[i], s.seen, s.led))
          && (s.pass.stage.j > 0 ==> s.fleet.pools[0].stamp == Some(hs[0])))
  }

  ghost predicate PassInv(s: Sys)
    requires CaInv(s.ca)
  {
    && (s.pass.Running? ==>
          && PassCa(s.ca, s.pass.ca, s.used, s.seen)
          && s.pass.ca.inp.which == Cluster
          && (!s.pass.stage.Secrets? ==> !s.pass.ca.Unfinished()))
    && PassFleet(s)
  }

  ghost predicate Inv(s: Sys)
  {
    CaInv(s.ca) && HistoryInv(s) && PhaseInv(s) && PassInv(s) && GateInv(s)
  }

  lemma InvImpliesContinuous(s: Sys)
    requires Inv(s)
    ensures Continuous(s)
  {
  }
}
