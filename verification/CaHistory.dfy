/**
 Whole runs over one CA: any number of passes, each cut off after any number of
 accepted patches, with leaf markers written in between.  Also the quiescence
 of an idle CA.
 */
module CaHistory {
  import opened Options
  import opened Blocks
  import opened CaRotation
  import opened CaViews

  datatype Event =
    | Pass(inp: RotationInputs, m: Material, accepted: nat)
    | MarkLeafs(generation: nat)

  ghost predicate Step(st: Store, e: Event, st': Store)
  {
    match e
    case Pass(inp, m, accepted) =>
      && Issued(st, inp, m)
      && (Present(st) && PlanCaRotation(ReadState(st), inp) == RenewCertSameKey && ReadState(st).bundle != [] ==>
            m.cert != ReadState(st).bundle[0])
      && accepted <= |Patches(st, inp, m)|
      && st' == After(st, inp, m, accepted)
    case MarkLeafs(g) =>
      && st.certSecret.Some?
      && st' == st.(certSecret := Some(st.certSecret.value.(leafsKeyGeneration := Some(g))))
  }

  ghost predicate Run(tr: seq<Store>, es: seq<Event>)
  {
    && |tr| == |es| + 1
    && tr[0] == Store(None, None)
    && forall i :: 0 <= i < |es| ==> Step(tr[i], es[i], tr[i + 1])
  }

  /** One pass, cut off anywhere, leaves a consistent pair. */
  lemma PassKeepsPair(st: Store, inp: RotationInputs, m: Material, i: nat)
    requires PairInv(st) && Issued(st, inp, m) && i <= |Patches(st, inp, m)|
    ensures var st' := After(st, inp, m, i); PairInv(st') && (Present(st) ==> Present(st'))
  {
    hide Dedup, PruneExpired, PromotedBundle, Expired;
    AfterSteps(st, inp, m);
    if Present(st) {
      var s := ReadState(st);
      match PlanCaRotation(s, inp) {
        case NoOp =>
        case RefuseByo =>
        case RenewCertSameKey => RenewedBundle(s.bundle, m.cert, inp.now);
        case StartKeyReplace => WidenedBundle(s.bundle, m.cert, inp.now);
        case PromoteNewKey => PromotedBundleShape(s.bundle, s.pendingCert.value, inp.now);
        case PruneOldTrust => PruneElements(s.bundle, inp.now);
      }
    }
  }

  /** And each counter moves exactly with what it counts. */
  lemma PassCounts(st: Store, inp: RotationInputs, m: Material, i: nat)
    requires PairInv(st) && Issued(st, inp, m) && i <= |Patches(st, inp, m)| && Present(st)
    ensures var st' := After(st, inp, m, i);
      && Present(st')
      && st'.keySecret.value.keyGeneration == st.keySecret.value.keyGeneration + KeyChanged(st, st')
      && (PlanCaRotation(ReadState(st), inp) != RenewCertSameKey || m.cert != ReadState(st).bundle[0] ==>
            st'.certSecret.value.certGeneration == st.certSecret.value.certGeneration + SignerChanged(st, st'))
  {
    hide Dedup, PruneExpired, PromotedBundle, Expired;
    AfterSteps(st, inp, m);
    if Present(st) {
      var s := ReadState(st);
      match PlanCaRotation(s, inp) {
        case NoOp =>
        case RefuseByo =>
        case RenewCertSameKey => RenewedBundle(s.bundle, m.cert, inp.now);
        case StartKeyReplace => WidenedBundle(s.bundle, m.cert, inp.now);
        case PromoteNewKey => PromotedBundleShape(s.bundle, s.pendingCert.value, inp.now);
        case PruneOldTrust => PruneElements(s.bundle, inp.now);
      }
    }
  }

  lemma StepKeepsInv(st: Store, e: Event, st': Store)
    requires PairInv(st) && Step(st, e, st')
    ensures PairInv(st') && (Present(st) ==> Present(st'))
  {
    if e.Pass? {
      PassKeepsPair(st, e.inp, e.m, e.accepted);
    }
  }

  /** Every state a crash can leave behind is consistent. */
  lemma {:induction false} CrashReplay(tr: seq<Store>, es: seq<Event>, i: nat)
    requires Run(tr, es) && i < |tr|
    ensures PairInv(tr[i])
  {
    if i > 0 {
      CrashReplay(tr, es, i - 1);
      StepKeepsInv(tr[i - 1], es[i - 1], tr[i]);
    }
  }

  /** And it is a state of the view automaton when no promotion finds the old signer expired. */
  lemma {:induction false} ViewsReplay(tr: seq<Store>, es: seq<Event>, i: nat)
    requires Run(tr, es) && i < |tr|
    requires forall j :: 0 <= j < |es| && es[j].Pass? ==> OldSignerLive(tr[j], es[j].inp)
    ensures CaInv(tr[i])
  {
    if i > 0 {
      ViewsReplay(tr, es, i - 1);
      var st, e := tr[i - 1], es[i - 1];
      assert Step(st, e, tr[i]);
      if e.Pass? {
        AfterSteps(st, e.inp, e.m);
        if e.accepted > 0 {
          PatchMoves(st, e.inp, e.m, e.accepted - 1);
        }
      }
    }
  }

  // ------------------------------------------------------ generation counters

  function KeyChanged(a: Store, b: Store): (n: nat)
  {
    if Present(a) && Present(b) && a.keySecret.value.key != b.keySecret.value.key then 1 else 0
  }

  function Head(bundle: seq<Cert>): (c: Option<Cert>)
  {
    if bundle == [] then None else Some(bundle[0])
  }

  function SignerChanged(a: Store, b: Store): (n: nat)
  {
    if Present(a) && Present(b) && Head(a.certSecret.value.bundle) != Head(b.certSecret.value.bundle) then 1 else 0
  }

  function Sum(f: (Store, Store) -> nat, tr: seq<Store>, i: nat): (n: nat)
    requires i < |tr|
  {
    if i == 0 then 0 else Sum(f, tr, i - 1) + f(tr[i - 1], tr[i])
  }

  lemma StepCounts(st: Store, e: Event, st': Store)
    requires PairInv(st) && Step(st, e, st')
    ensures Present(st) ==>
      && Present(st')
      && st'.keySecret.value.keyGeneration == st.keySecret.value.keyGeneration + KeyChanged(st, st')
      && st'.certSecret.value.certGeneration == st.certSecret.value.certGeneration + SignerChanged(st, st')
    ensures !Present(st) && Present(st') ==>
      st'.keySecret.value.keyGeneration == 0 && st'.certSecret.value.certGeneration == 0
  {
    if e.Pass? {
      AfterSteps(st, e.inp, e.m);
      if Present(st) {
        PassCounts(st, e.inp, e.m, e.accepted);
      }
    }
  }

  /**
   Exactly-once generations: through crashes and replays the stored key
   generation is the number of times the active key really changed, and the
   certificate generation the number of times the signing certificate did.
   */
  lemma {:induction false} GenerationsCountChanges(tr: seq<Store>, es: seq<Event>, i: nat)
    requires Run(tr, es) && i < |tr|
    ensures Present(tr[i]) ==>
      && tr[i].keySecret.value.keyGeneration == Sum(KeyChanged, tr, i)
      && tr[i].certSecret.value.certGeneration == Sum(SignerChanged, tr, i)
    ensures !Present(tr[i]) ==> Sum(KeyChanged, tr, i) == Sum(SignerChanged, tr, i) == 0
  {
    if i > 0 {
      GenerationsCountChanges(tr, es, i - 1);
      CrashReplay(tr, es, i - 1);
      StepKeepsInv(tr[i - 1], es[i - 1], tr[i]);
      StepCounts(tr[i - 1], es[i - 1], tr[i]);
    }
  }

  lemma {:induction false} GenerationsMonotone(tr: seq<Store>, es: seq<Event>, i: nat, j: nat)
    requires Run(tr, es) && i <= j < |tr| && Present(tr[i])
    ensures Present(tr[j])
    ensures tr[i].keySecret.value.keyGeneration <= tr[j].keySecret.value.keyGeneration
    ensures tr[i].certSecret.value.certGeneration <= tr[j].certSecret.value.certGeneration
    decreases j
  {
    if i < j {
      GenerationsMonotone(tr, es, i, j - 1);
      CrashReplay(tr, es, j - 1);
      StepCounts(tr[j - 1], es[j - 1], tr[j]);
    }
  }

  // --------------------------------------------------------------- quiescence

  function FullPass(st: Store, inp: RotationInputs, m: Material): (r: Store)
  {
    ApplyAll(st, Patches(st, inp, m))
  }

  /** An idle CA whatever its bundle holds, and a pass without force. */
  predicate QuietIdle(st: Store, inp: RotationInputs)
  {
    Present(st) && ReadState(st).phase == Idle && inp.generate && inp.force == NoForce
  }

  /** The certificate a renewal issues parses and outlives the renewal window. */
  predicate Outlives(m: Material, inp: RotationInputs)
  {
    m.cert.Cert? && m.cert.notAfter > inp.now + inp.renewal
  }

  /** An idle pass renews, prunes, or does nothing; it never drops the signing certificate. */
  lemma IdlePass(st: Store, inp: RotationInputs, m: Material)
    requires QuietIdle(st, inp) && Outlives(m, inp)
    ensures QuietIdle(FullPass(st, inp, m), inp)
    ensures
      var b, b' := ReadState(st).bundle, ReadState(FullPass(st, inp, m)).bundle;
      && (b != [] ==> b[0] in b')
      && (b == [] ==> b' == [])
      && (b != [] && b[0].Cert? ==> b'[0].Cert? && b'[0].notAfter > inp.now + inp.renewal)
      && (b != [] && b[0].Cert? && b[0].notAfter > inp.now + inp.renewal ==> b'[0] == b[0])
      && (b != [] && b[0].Unparsed? ==> b'[0] == b[0])
      && (RenewDue(b, inp.renewal, inp.now) ==> b' != [] && b'[0] == m.cert && Distinct(b'))
      && !RenewDue(b', inp.renewal, inp.now)
      && (!RenewDue(b, inp.renewal, inp.now) ==>
            forall i :: 1 <= i < |b'| ==> !Expired(b'[i], inp.now))
  {
    var s := ReadState(st);
    var ws := Patches(st, inp, m);
    AfterSteps(st, inp, m);
    assert ws[..|ws|] == ws;
    if s.bundle != [] {
      PruneElements(s.bundle, inp.now);
      RenewedBundle(s.bundle, m.cert, inp.now);
      KeepLiveElements(s.bundle[1..], inp.now);
    }
  }

  /**
   Quiescence: with no forced rotation and a fixed clock, an idle generated CA
   changes its Secrets in at most two passes and plans nothing ever after.
   */
  lemma IdleQuiesces(st: Store, inp: RotationInputs, m1: Material, m2: Material, m3: Material)
    requires QuietIdle(st, inp) && Outlives(m1, inp) && Outlives(m2, inp)
    ensures
      var st2 := FullPass(FullPass(st, inp, m1), inp, m2);
      && QuietIdle(st2, inp)
      && PassPlanOf(st2, inp) == Rotate(NoOp)
      && FullPass(st2, inp, m3) == st2
  {
    IdlePass(st, inp, m1);
    var st1 := FullPass(st, inp, m1);
    IdlePass(st1, inp, m2);
    var s1 := ReadState(st1);
    assert !RenewDue(s1.bundle, inp.renewal, inp.now);
  }

  /** A row of complete idle passes, none later than one renewal window after the one before. */
  ghost predicate IdleRow(sts: seq<Store>, inps: seq<RotationInputs>, ms: seq<Material>)
  {
    && |sts| == |inps| + 1 == |ms| + 1 && |inps| > 0
    && QuietIdle(sts[0], inps[0]) && ReadState(sts[0]).bundle != [] && ReadState(sts[0]).bundle[0].Cert?
    && (forall k :: 0 <= k < |inps| ==>
          && inps[k].generate && inps[k].force == NoForce && Outlives(ms[k], inps[k])
          && sts[k + 1] == FullPass(sts[k], inps[k], ms[k]))
    && (forall k :: 0 <= k < |inps| - 1 ==> inps[k].now <= inps[k + 1].now <= inps[k].now + inps[k].renewal)
  }

  lemma {:induction false} IdleRowIsIdle(sts: seq<Store>, inps: seq<RotationInputs>, ms: seq<Material>, k: nat)
    requires IdleRow(sts, inps, ms) && k < |inps|
    ensures QuietIdle(sts[k], inps[k]) && ReadState(sts[k]).bundle != [] && ReadState(sts[k]).bundle[0].Cert?
  {
    hide FullPass, Patches;
    if k > 0 {
      IdleRowIsIdle(sts, inps, ms, k - 1);
      IdlePass(sts[k - 1], inps[k - 1], ms[k - 1]);
      assert sts[k] == FullPass(sts[k - 1], inps[k - 1], ms[k - 1]);
    }
  }

  /**
   When idle passes are never further apart than the renewal window and issued
   certificates outlive it, the signing certificate is never found expired: not
   by any pass after the first, and at no moment in between.
   */
  lemma NeverExpired(sts: seq<Store>, inps: seq<RotationInputs>, ms: seq<Material>, k: nat, t: int)
    requires IdleRow(sts, inps, ms) && k < |inps| && t <= inps[k].now + inps[k].renewal
    ensures Present(sts[k + 1]) && ReadState(sts[k + 1]).bundle != []
    ensures !Expired(ReadState(sts[k + 1]).bundle[0], t)
    ensures k + 1 < |inps| ==> !Expired(ReadState(sts[k + 1]).bundle[0], inps[k + 1].now)
  {
    hide FullPass, Patches;
    IdleRowIsIdle(sts, inps, ms, k);
    IdlePass(sts[k], inps[k], ms[k]);
    assert sts[k + 1] == FullPass(sts[k], inps[k], ms[k]);
  }

  // ------------------------------------------------------------------- commands

  /** A forced renewal of an idle generated CA puts the new certificate first, whatever the old one's expiry, and counts. */
  lemma ForcedRenewal(st: Store, inp: RotationInputs, m: Material)
    requires Present(st) && ReadState(st).phase == Idle && ReadState(st).bundle != []
    requires inp.generate && inp.force == RenewCertificate
    ensures Present(FullPass(st, inp, m))
    ensures
      var s, s' := ReadState(st), ReadState(FullPass(st, inp, m));
      && s'.bundle != [] && s'.bundle[0] == m.cert && s.bundle[0] in s'.bundle
      && s'.certGeneration == s.certGeneration + 1 && s'.key == s.key && s'.phase == Idle
  {
    AfterSteps(st, inp, m);
    var ws := Patches(st, inp, m);
    assert ws[..|ws|] == ws;
    RenewedBundle(ReadState(st).bundle, m.cert, inp.now);
  }

  /** A forced replacement stages the new key and its certificate, and signs with the old one until it is promoted. */
  lemma ForcedReplacement(st: Store, inp: RotationInputs, m: Material)
    requires Present(st) && ReadState(st).phase == Idle && ReadState(st).bundle != []
    requires inp.generate && inp.force in {ReplaceKey, RenewAndReplaceKey}
    ensures Present(FullPass(st, inp, m))
    ensures
      var s, s' := ReadState(st), ReadState(FullPass(st, inp, m));
      && s'.phase == KeyReplaceTrust && s'.pendingKey == Some(m.key) && s'.pendingCert == Some(m.cert)
      && m.cert in s'.bundle && s'.bundle[0] == s.bundle[0] && s'.key == s.key
      && s'.keyGeneration == s.keyGeneration && s'.certGeneration == s.certGeneration
  {
    AfterSteps(st, inp, m);
    var ws := Patches(st, inp, m);
    assert ws[..|ws|] == ws;
    WidenedBundle(ReadState(st).bundle, m.cert, inp.now);
  }

  /** A user-supplied CA is never touched; a forced rotation of it is refused, and only that is. */
  lemma UserSuppliedIsUntouched(st: Store, inp: RotationInputs, m: Material)
    requires Present(st) && !inp.generate
    ensures FullPass(st, inp, m) == st
    ensures PassOutcome(st, inp, m).Ok? ==> (PassOutcome(st, inp, m).value.refused <==> inp.force != NoForce)
  {
  }

  /** What a finished pass reports is what it leaves: the signing pair, the bundle, the phase and both generations. */
  lemma OutcomeDescribesSecrets(st: Store, inp: RotationInputs, m: Material)
    requires PassOutcome(st, inp, m).Ok?
    ensures Present(FullPass(st, inp, m))
    ensures
      var o, st' := PassOutcome(st, inp, m).value, FullPass(st, inp, m);
      && st'.certSecret.value.bundle == o.bundle && o.bundle != [] && o.signingCert == o.bundle[0]
      && st'.keySecret.value.key == o.signingKey && st'.certSecret.value.phase == o.phase
      && st'.certSecret.value.certGeneration == o.certGeneration && st'.keySecret.value.keyGeneration == o.keyGeneration
  {
  }

  /** No generated CA refuses. */
  lemma GeneratedIsNeverRefused(st: Store, inp: RotationInputs, m: Material)
    requires inp.generate && PassOutcome(st, inp, m).Ok?
    ensures !PassOutcome(st, inp, m).value.refused
  {
  }

  /** No pass touches the leaf marker, at any crash point. */
  lemma MarkerSurvives(st: Store, inp: RotationInputs, m: Material, i: nat)
    requires i <= |Patches(st, inp, m)| && st.certSecret.Some?
    ensures After(st, inp, m, i).certSecret.Some?
    ensures After(st, inp, m, i).certSecret.value.leafsKeyGeneration == st.certSecret.value.leafsKeyGeneration
  {
    AfterSteps(st, inp, m);
  }
}
