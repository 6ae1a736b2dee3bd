/** The persisted form of a CA: Secret data and annotations as text, written by one pass and read by the next. */
module SecretCodec {
  import opened Options
  import opened Decimal
  import opened CaRotation
  import Pem

  const U64_MAX: nat := 0xFFFF_FFFF_FFFF_FFFF

  /** The data keys `ca.key`, `ca.key.next`, `ca.crt.next` and `ca.crt`. */
  datatype DataKey = CaKey | CaKeyNext | CaCrtNext | CaCrt

  /** The rotation annotations under the `krabka.io/` prefix. */
  datatype Annotation = CaCertGeneration | CaKeyGeneration | CaLeafsKeyGeneration | CaRotationPhase

  datatype Secret = Secret(data: map<DataKey, string>, annotations: map<Annotation, string>)

  type TextCa = CaState<string, string>

  function Lookup<K>(m: map<K, string>, k: K): (r: Option<string>)
  {
    if k in m then Some(m[k]) else None
  }

  function PhaseText(p: Phase): (s: string)
  {
    match p
    case Idle => "idle"
    case KeyReplaceTrust => "key-replace-trust"
    case KeyReplacePromote => "key-replace-promote"
  }

  /** An unknown phase reads as idle. */
  function ParsePhase(s: string): (p: Phase)
  {
    if s == "key-replace-trust" then KeyReplaceTrust
    else if s == "key-replace-promote" then KeyReplacePromote
    else Idle
  }

  function ReadOptionalGeneration(s: Secret, ann: Annotation): (g: Option<nat>)
  {
    var v := Lookup(s.annotations, ann);
    if v.None? then None else ParseUnsigned(v.value, U64_MAX)
  }

  function ReadGeneration(s: Secret, ann: Annotation): (g: nat)
  {
    var g := ReadOptionalGeneration(s, ann);
    if g.Some? then g.value else 0
  }

  function ReadPhase(s: Secret): (p: Phase)
  {
    var v := Lookup(s.annotations, CaRotationPhase);
    if v.None? then Idle else ParsePhase(v.value)
  }

  /** The state a pass rebuilds from the pair, if both carry their material. */
  function ReadCa(k: Secret, c: Secret): (s: Option<TextCa>)
  {
    var key, bundle := Lookup(k.data, CaKey), Lookup(c.data, CaCrt);
    if key.None? || bundle.None? then None
    else Some(CaState(
      Pem.Split(bundle.value), key.value, Lookup(k.data, CaKeyNext), Lookup(k.data, CaCrtNext),
      ReadGeneration(c, CaCertGeneration), ReadGeneration(k, CaKeyGeneration),
      ReadOptionalGeneration(c, CaLeafsKeyGeneration), ReadPhase(c)))
  }

  function With<K>(m: map<K, string>, k: K, v: Option<string>): (r: map<K, string>)
  {
    if v.Some? then m[k := v.value] else m
  }

  /** The key Secret a pass writes. */
  function WriteKeySecret(s: TextCa): (k: Secret)
  {
    Secret(With(With(map[CaKey := s.key], CaKeyNext, s.pendingKey), CaCrtNext, s.pendingCert),
           map[CaKeyGeneration := Print(s.keyGeneration)])
  }

  /** The certificate Secret a pass writes, with the leaf marker a merge patch left on it. */
  function WriteCertSecret(s: TextCa): (c: Secret)
  {
    var leafs := if s.leafsKeyGeneration.Some? then Some(Print(s.leafsKeyGeneration.value)) else None;
    Secret(map[CaCrt := Pem.Join(s.bundle)],
           With(map[CaCertGeneration := Print(s.certGeneration), CaRotationPhase := PhaseText(s.phase)],
                CaLeafsKeyGeneration, leafs))
  }

  ghost predicate Storable(s: TextCa)
  {
    && (forall i :: 0 <= i < |s.bundle| ==> Pem.Canonical(s.bundle[i]))
    && s.certGeneration <= U64_MAX && s.keyGeneration <= U64_MAX
    && (s.leafsKeyGeneration.Some? ==> s.leafsKeyGeneration.value <= U64_MAX)
  }

  lemma PhaseReadsBack(p: Phase)
    ensures ParsePhase(PhaseText(p)) == p
  {
  }

  lemma KeySecretReadsBack(s: TextCa)
    requires s.keyGeneration <= U64_MAX
    ensures
      var k := WriteKeySecret(s);
      && Lookup(k.data, CaKey) == Some(s.key)
      && Lookup(k.data, CaKeyNext) == s.pendingKey && Lookup(k.data, CaCrtNext) == s.pendingCert
      && ReadGeneration(k, CaKeyGeneration) == s.keyGeneration
  {
    ParsePrint(s.keyGeneration, U64_MAX);
  }

  lemma CertSecretReadsBack(s: TextCa)
    requires Storable(s)
    ensures
      var c := WriteCertSecret(s);
      && Lookup(c.data, CaCrt) == Some(Pem.Join(s.bundle))
      && ReadGeneration(c, CaCertGeneration) == s.certGeneration
      && ReadOptionalGeneration(c, CaLeafsKeyGeneration) == s.leafsKeyGeneration
      && ReadPhase(c) == s.phase
  {
    ParsePrint(s.certGeneration, U64_MAX);
    if s.leafsKeyGeneration.Some? {
      ParsePrint(s.leafsKeyGeneration.value, U64_MAX);
    }
    PhaseReadsBack(s.phase);
  }

  /** Persisted-state round trip: the next pass reads exactly the state this pass wrote. */
  lemma StateReadsBack(s: TextCa)
    requires Storable(s)
    ensures ReadCa(WriteKeySecret(s), WriteCertSecret(s)) == Some(s)
  {
    KeySecretReadsBack(s);
    CertSecretReadsBack(s);
    Pem.SplitJoin(s.bundle);
  }

  /** A pair as the create path writes it, without a phase, reads as an idle CA of generation zero. */
  lemma CreatedReadsIdle(key: string, cert: string)
    ensures
      var k := Secret(map[CaKey := key], map[CaKeyGeneration := Print(0)]);
      var c := Secret(map[CaCrt := cert], map[CaCertGeneration := Print(0)]);
      && ReadCa(k, c) == Some(CaState(Pem.Split(cert), key, None, None, 0, 0, None, Idle))
      && (Pem.Canonical(cert) ==> Pem.Split(cert) == [cert])
  {
    ParsePrint(0, U64_MAX);
    if Pem.Canonical(cert) {
      Pem.SplitOne(cert);
    }
  }

  /** Whatever text the Secrets hold, the state that is read can be stored and read again unchanged. */
  lemma ReadIsStable(k: Secret, c: Secret)
    requires ReadCa(k, c).Some?
    ensures Storable(ReadCa(k, c).value)
    ensures ReadCa(WriteKeySecret(ReadCa(k, c).value), WriteCertSecret(ReadCa(k, c).value)) == ReadCa(k, c)
  {
    Pem.SplitIsCanonical(c.data[CaCrt]);
    StateReadsBack(ReadCa(k, c).value);
  }
}
