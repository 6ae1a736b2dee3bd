/**
 The certificate-authority rotation machine: the pure decision of the planner,
 the ordered Secret patches each plan performs, and the reconcile method that
 performs them against the two Secrets of one CA.

 A certificate is its serial, the key it certifies and its expiry; a block the
 X.509 parser rejects is `Unparsed`.  A private key is named by the public key
 it pairs with.  Freshly generated material is an input.
 */
module CaRotation {
  import opened Options
  import opened Blocks

  type Key = nat

  datatype Cert = Cert(serial: nat, key: Key, notAfter: int) | Unparsed(text: nat)

  datatype Phase = Idle | KeyReplaceTrust | KeyReplacePromote

  datatype WhichCa = Cluster | Clients

  /** CA material and bookkeeping as one pass reads it; generic in blocks and keys. */
  datatype CaState<B, K> = CaState(
    bundle: seq<B>,
    key: K,
    pendingKey: Option<K>,
    pendingCert: Option<B>,
    certGeneration: nat,
    keyGeneration: nat,
    leafsKeyGeneration: Option<nat>,
    phase: Phase)

  type Ca = CaState<Cert, Key>

  datatype ForceRotation = NoForce | RenewCertificate | ReplaceKey | RenewAndReplaceKey
  {
    predicate Renews() { RenewCertificate? || RenewAndReplaceKey? }
    predicate Replaces() { ReplaceKey? || RenewAndReplaceKey? }
  }

  datatype RotationInputs = RotationInputs(
    generate: bool,
    renewal: int,
    force: ForceRotation,
    rolloutConverged: bool,
    now: int,
    which: WhichCa)

  datatype Plan = NoOp | RenewCertSameKey | StartKeyReplace | PromoteNewKey | PruneOldTrust | RefuseByo

  datatype CaError = ByoCaMissing | PromoteWithoutStagedKey | PromoteWithoutStagedCert | CertParse | ApiFailure

  /** A new key and its self-signed certificate; a renewal uses the certificate only. */
  datatype Material = Material(key: Key, cert: Cert)

  // ---------------------------------------------------------------- planning

  predicate Expired(c: Cert, now: int)
  {
    c.Cert? && c.notAfter <= now
  }

  /** `renew_if_expiring(...).unwrap_or(false)` on the signing block. */
  predicate RenewDue(bundle: seq<Cert>, renewal: int, now: int)
  {
    bundle != [] && bundle[0].Cert? && bundle[0].notAfter - now <= renewal
  }

  function PlanCaRotation(s: Ca, inp: RotationInputs): (p: Plan)
  {
    if !inp.generate then
      if inp.force.Renews() || inp.force.Replaces() then RefuseByo else NoOp
    else match s.phase
      case KeyReplaceTrust => if inp.rolloutConverged then PromoteNewKey else NoOp
      case KeyReplacePromote =>
        var leafsConverged := inp.which == Cluster || s.leafsKeyGeneration == Some(s.keyGeneration);
        if inp.rolloutConverged && leafsConverged then PruneOldTrust else NoOp
      case Idle =>
        if inp.force.Replaces() then StartKeyReplace
        else if inp.force.Renews() || RenewDue(s.bundle, inp.renewal, inp.now) then RenewCertSameKey
        else if exists i :: 1 <= i < |s.bundle| && Expired(s.bundle[i], inp.now) then PruneOldTrust
        else NoOp
  }

  function KeepLive(bs: seq<Cert>, now: int): (r: seq<Cert>)
  {
    if bs == [] then []
    else if Expired(bs[0], now) then KeepLive(bs[1..], now)
    else [bs[0]] + KeepLive(bs[1..], now)
  }

  /** Drops expired blocks, but never the first one and never an unparsed one. */
  function PruneExpired(bs: seq<Cert>, now: int): (r: seq<Cert>)
  {
    if bs == [] then [] else [bs[0]] + KeepLive(bs[1..], now)
  }

  function Without(bs: seq<Cert>, c: Cert): (r: seq<Cert>)
  {
    if bs == [] then []
    else if bs[0] == c then Without(bs[1..], c)
    else [bs[0]] + Without(bs[1..], c)
  }

  // ------------------------------------------------------ Secrets and patches

  datatype KeySecret = KeySecret(key: Key, nextKey: Option<Key>, nextCert: Option<Cert>, keyGeneration: nat)

  datatype CertSecret = CertSecret(bundle: seq<Cert>, certGeneration: nat, phase: Phase, leafsKeyGeneration: Option<nat>)

  datatype Store = Store(keySecret: Option<KeySecret>, certSecret: Option<CertSecret>)

  datatype Patch =
    | PatchKey(secret: KeySecret)
    | PatchCert(bundle: seq<Cert>, certGeneration: nat, phase: Phase)

  /** Server-side apply replaces every field it owns; the leaf marker belongs to another manager and stays. */
  function ApplyPatch(st: Store, w: Patch): (r: Store)
  {
    match w
    case PatchKey(k) => st.(keySecret := Some(k))
    case PatchCert(b, g, p) =>
      var leafs := if st.certSecret.Some? then st.certSecret.value.leafsKeyGeneration else None;
      st.(certSecret := Some(CertSecret(b, g, p, leafs)))
  }

  function ApplyAll(st: Store, ws: seq<Patch>): (r: Store)
    decreases |ws|
  {
    if ws == [] then st else ApplyAll(ApplyPatch(st, ws[0]), ws[1..])
  }

  lemma ApplyFew(st: Store, ws: seq<Patch>)
    ensures ApplyAll(st, []) == st
    ensures |ws| >= 1 ==> ApplyAll(st, ws[..1]) == ApplyPatch(st, ws[0])
    ensures |ws| == 2 ==> ApplyAll(st, ws) == ApplyPatch(ApplyPatch(st, ws[0]), ws[1])
  {
    if |ws| >= 1 {
      assert ws[..1] == [ws[0]];
    }
    if |ws| == 2 {
      var mid := ApplyPatch(st, ws[0]);
      assert ws[1..] == [ws[1]];
      assert ApplyAll(mid, [ws[1]]) == ApplyAll(ApplyPatch(mid, ws[1]), []);
    }
  }

  predicate Present(st: Store)
  {
    st.keySecret.Some? && st.certSecret.Some?
  }

  function ReadState(st: Store): (s: Ca)
    requires Present(st)
  {
    var k, c := st.keySecret.value, st.certSecret.value;
    CaState(c.bundle, k.key, k.nextKey, k.nextCert, c.certGeneration, k.keyGeneration, c.leafsKeyGeneration, c.phase)
  }

  /** The bundle of a promotion: the staged certificate first, the old ones as trust only. */
  function PromotedBundle(bundle: seq<Cert>, newCert: Cert, now: int): (r: seq<Cert>)
  {
    PruneExpired(Dedup([newCert] + Without(bundle, newCert)), now)
  }

  /** The Secret patches of one plan, in the order the operator sends them. */
  function PlanPatches(s: Ca, plan: Plan, now: int, m: Material): (r: Result<seq<Patch>, CaError>)
  {
    match plan
    case NoOp => Ok([])
    case RefuseByo => Ok([])
    case RenewCertSameKey =>
      Ok([PatchCert(Dedup([m.cert] + PruneExpired(s.bundle, now)), s.certGeneration + 1, Idle)])
    case StartKeyReplace =>
      Ok([PatchKey(KeySecret(s.key, Some(m.key), Some(m.cert), s.keyGeneration)),
          PatchCert(Dedup(PruneExpired(s.bundle, now) + [m.cert]), s.certGeneration, KeyReplaceTrust)])
    case PromoteNewKey =>
      if s.pendingKey.None? then Err(PromoteWithoutStagedKey)
      else if s.pendingCert.None? then Err(PromoteWithoutStagedCert)
      else
        var newKey, newCert := s.pendingKey.value, s.pendingCert.value;
        var keyGen := if s.key == newKey then s.keyGeneration else s.keyGeneration + 1;
        Ok([PatchKey(KeySecret(newKey, Some(newKey), Some(newCert), keyGen)),
            PatchCert(PromotedBundle(s.bundle, newCert, now), s.certGeneration + 1, KeyReplacePromote)])
    case PruneOldTrust =>
      if s.phase.KeyReplacePromote? then
        Ok([PatchKey(KeySecret(s.key, None, None, s.keyGeneration)),
            PatchCert(if s.bundle == [] then [] else [s.bundle[0]], s.certGeneration, Idle)])
      else Ok([PatchCert(PruneExpired(s.bundle, now), s.certGeneration, Idle)])
  }

  /** What a whole pass over one CA wants to do to the pair of Secrets. */
  datatype PassPlan = Create | Rotate(plan: Plan) | ByoMissing

  function PassPlanOf(st: Store, inp: RotationInputs): (p: PassPlan)
  {
    if Present(st) then Rotate(PlanCaRotation(ReadState(st), inp))
    else if !inp.generate then ByoMissing
    else Create
  }

  function PassPatches(st: Store, inp: RotationInputs, m: Material): (r: Result<seq<Patch>, CaError>)
  {
    match PassPlanOf(st, inp)
    case ByoMissing => Err(ByoCaMissing)
    case Create => Ok([PatchKey(KeySecret(m.key, None, None, 0)), PatchCert([m.cert], 0, Idle)])
    case Rotate(plan) => PlanPatches(ReadState(st), plan, inp.now, m)
  }

  /** The patches of a pass; none when the pass fails before it sends one. */
  function Patches(st: Store, inp: RotationInputs, m: Material): (ws: seq<Patch>)
  {
    var r := PassPatches(st, inp, m);
    if r.Ok? then r.value else []
  }

  // -------------------------------------------------------------- the outcome

  datatype LeafTransition = NoTransition | Reissue | OldTrustPruned

  datatype Outcome = Outcome(
    signingCert: Cert,
    signingKey: Key,
    bundle: seq<Cert>,
    phase: Phase,
    certGeneration: nat,
    keyGeneration: nat,
    transition: LeafTransition,
    refused: bool)

  /** What a pass whose every patch was accepted reports about the Secrets it leaves. */
  function PassOutcome(st: Store, inp: RotationInputs, m: Material): (r: Result<Outcome, CaError>)
  {
    var patches := PassPatches(st, inp, m);
    if patches.Err? then Err(patches.error)
    else
      var after := ApplyAll(st, patches.value);
      if !Present(after) then Err(ApiFailure)
      else
        var s := ReadState(after);
        if s.bundle == [] || s.bundle[0].Unparsed? then Err(CertParse)
        else
          var plan := PassPlanOf(st, inp);
          var reissue :=
            || plan == Rotate(PromoteNewKey)
            || (plan.Rotate? && inp.which == Clients && s.phase == KeyReplacePromote
                && s.leafsKeyGeneration != Some(s.keyGeneration));
          Ok(Outcome(s.bundle[0], s.key, s.bundle, s.phase, s.certGeneration, s.keyGeneration,
                     if reissue then Reissue
                     else if plan == Rotate(PruneOldTrust) then OldTrustPruned
                     else NoTransition,
                     plan == Rotate(RefuseByo)))
  }

  function Min(a: nat, b: nat): (r: nat) { if a <= b then a else b }

  /** The Secret pair of one CA, patched in place. */
  class SecretPair {
    var keySecret: Option<KeySecret>
    var certSecret: Option<CertSecret>

    constructor ()
      ensures Contents() == Store(None, None)
    {
      keySecret, certSecret := None, None;
    }

    ghost function Contents(): (st: Store)
      reads this
    {
      Store(keySecret, certSecret)
    }

    method PatchKeySecret(secret: KeySecret)
      modifies this
      ensures Contents() == ApplyPatch(old(Contents()), PatchKey(secret))
    {
      keySecret := Some(secret);
    }

    method PatchCertBundle(bundle: seq<Cert>, certGen: nat, phase: Phase)
      modifies this
      ensures Contents() == ApplyPatch(old(Contents()), PatchCert(bundle, certGen, phase))
    {
      var leafs := None;
      if certSecret.Some? {
        leafs := certSecret.value.leafsKeyGeneration;
      }
      certSecret := Some(CertSecret(bundle, certGen, phase, leafs));
    }

    /**
     One reconcile of one CA.  The API server accepts the first `accepted`
     patches and refuses the next one, which ends the pass.
     */
    method ReconcileCa(inp: RotationInputs, m: Material, accepted: nat)
      returns (r: Result<Outcome, CaError>)
      modifies this
      ensures
        var ws := Patches(old(Contents()), inp, m);
        && Contents() == ApplyAll(old(Contents()), ws[..Min(accepted, |ws|)])
        && (accepted >= |ws| ==> r == PassOutcome(old(Contents()), inp, m))
        && (accepted < |ws| ==> r == Err(ApiFailure))
    {
      ghost var st := Contents();
      ghost var ws := Patches(st, inp, m);
      ApplyFew(st, ws);
      assert ws[..|ws|] == ws;
      if keySecret.None? || certSecret.None? {
        if !inp.generate {
          return Err(ByoCaMissing);
        }
        if accepted == 0 { return Err(ApiFailure); }
        PatchKeySecret(KeySecret(m.key, None, None, 0));
        if accepted == 1 { return Err(ApiFailure); }
        PatchCertBundle([m.cert], 0, Idle);
        if m.cert.Unparsed? { return Err(CertParse); }
        return Ok(Outcome(m.cert, m.key, [m.cert], Idle, 0, 0, NoTransition, false));
      }
      var k, c := keySecret.value, certSecret.value;
      var s := CaState(c.bundle, k.key, k.nextKey, k.nextCert, c.certGeneration, k.keyGeneration,
                       c.leafsKeyGeneration, c.phase);
      var plan := PlanCaRotation(s, inp);
      var bundle, key, certGen, keyGen, phase := s.bundle, s.key, s.certGeneration, s.keyGeneration, s.phase;
      var forceReissue, refused := false, false;
      match plan {
        case NoOp =>
        case RefuseByo => refused := true;
        case RenewCertSameKey =>
          bundle := Dedup([m.cert] + PruneExpired(s.bundle, inp.now));
          certGen := certGen + 1;
          phase := Idle;
          if accepted == 0 { return Err(ApiFailure); }
          PatchCertBundle(bundle, certGen, phase);
        case StartKeyReplace =>
          bundle := Dedup(PruneExpired(s.bundle, inp.now) + [m.cert]);
          phase := KeyReplaceTrust;
          if accepted == 0 { return Err(ApiFailure); }
          PatchKeySecret(KeySecret(key, Some(m.key), Some(m.cert), keyGen));
          if accepted == 1 { return Err(ApiFailure); }
          PatchCertBundle(bundle, certGen, phase);
        case PromoteNewKey =>
          if s.pendingKey.None? { return Err(PromoteWithoutStagedKey); }
          if s.pendingCert.None? { return Err(PromoteWithoutStagedCert); }
          var newKey, newCert := s.pendingKey.value, s.pendingCert.value;
          bundle := PruneExpired(Dedup([newCert] + Without(s.bundle, newCert)), inp.now);
          if key != newKey { keyGen := keyGen + 1; }
          key := newKey;
          certGen := certGen + 1;
          phase := KeyReplacePromote;
          forceReissue := true;
          if accepted == 0 { return Err(ApiFailure); }
          PatchKeySecret(KeySecret(newKey, Some(newKey), Some(newCert), keyGen));
          if accepted == 1 { return Err(ApiFailure); }
          PatchCertBundle(bundle, certGen, phase);
        case PruneOldTrust =>
          phase := Idle;
          if accepted == 0 { return Err(ApiFailure); }
          if s.phase == KeyReplacePromote {
            PatchKeySecret(KeySecret(key, None, None, keyGen));
            bundle := if s.bundle == [] then [] else [s.bundle[0]];
            if accepted == 1 { return Err(ApiFailure); }
          } else {
            bundle := PruneExpired(s.bundle, inp.now);
          }
          PatchCertBundle(bundle, certGen, phase);
      }
      assert |ws| == 1 ==> ws[..1] == ws;
      assert Contents() == ApplyAll(st, ws);
      if bundle == [] || bundle[0].Unparsed? { return Err(CertParse); }
      if inp.which == Clients && phase == KeyReplacePromote && s.leafsKeyGeneration != Some(keyGen) {
        forceReissue := true;
      }
      r := Ok(Outcome(bundle[0], key, bundle, phase, certGen, keyGen,
                      if forceReissue then Reissue
                      else if plan == PruneOldTrust then OldTrustPruned
                      else NoTransition,
                      refused));
    }
  }
}
