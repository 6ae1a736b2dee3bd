/**
 What every crash point of a CA pass leaves behind.

 `PairInv` is what every crash point of every run keeps.  `CaInv` says more:
 under it the pair is in one of five situations (`View`), and every accepted
 patch of every pass moves the pair along one edge of a small automaton
 (`PatchMoves`), as long as a promotion finds the old signer unexpired.
 */
module CaViews {
  import opened Options
  import opened Blocks
  import opened CaRotation

  /**
   - `Fresh`: the certificate Secret does not exist yet.
   - `Steady(a)`: idle; `a` signs and is the only trusted key.
   - `Widened(o, n)`: `o` still signs, `{o, n}` is trusted.
   - `Crossed(o, n)`: the key Secret already holds `n`, the bundle still starts with `o`.
   - `Promoted(n, o)`: `n` signs, `{n, o}` is trusted.
   */
  datatype View = Fresh | Steady(a: Key) | Widened(o: Key, n: Key) | Crossed(o: Key, n: Key) | Promoted(n: Key, o: Key)
  {
    function Trusted(): (ks: set<Key>)
    {
      match this
      case Fresh => {}
      case Steady(a) => {a}
      case Widened(o, n) => {o, n}
      case Crossed(o, n) => {o, n}
      case Promoted(n, o) => {n, o}
    }
  }

  function KeysOf(bundle: seq<Cert>): (ks: set<Key>)
  {
    set c | c in bundle && c.Cert? :: c.key
  }

  ghost predicate KeyedBy(bundle: seq<Cert>, ks: set<Key>)
  {
    forall c :: c in bundle ==> c.Cert? && c.key in ks
  }

  /** The pair as the view automaton needs it: every block certifies a key of the view. */
  ghost predicate CaInv(st: Store)
  {
    st.certSecret.Some? ==>
      && st.keySecret.Some?
      && var k, c := st.keySecret.value, st.certSecret.value;
      && c.bundle != []
      && c.bundle[0].Cert?
      && match c.phase
         case Idle => KeyedBy(c.bundle, {k.key})
         case KeyReplaceTrust =>
           && k.nextKey.Some? && k.nextCert.Some?
           && k.nextCert.value.Cert? && k.nextCert.value.key == k.nextKey.value
           && k.nextCert.value in c.bundle
           && c.bundle[0].key != k.nextKey.value
           && k.key in {c.bundle[0].key, k.nextKey.value}
           && KeyedBy(c.bundle, {c.bundle[0].key, k.nextKey.value})
         case KeyReplacePromote =>
           && c.bundle[0].key == k.key
           && |c.bundle| >= 2
           && c.bundle[1].Cert? && c.bundle[1].key != k.key
           && KeyedBy(c.bundle, {k.key, c.bundle[1].key})
  }

  /**
   The crash-replay invariant of the Secret pair: the active key certifies the
   first block, or the staged pair is complete and already trusted.
   */
  ghost predicate PairInv(st: Store)
  {
    st.certSecret.Some? ==>
      && st.keySecret.Some?
      && var k, c := st.keySecret.value, st.certSecret.value;
      && c.bundle != []
      && c.bundle[0].Cert?
      && match c.phase
         case Idle => c.bundle[0].key == k.key
         case KeyReplaceTrust =>
           && k.nextKey.Some? && k.nextCert.Some?
           && k.nextCert.value.Cert? && k.nextCert.value.key == k.nextKey.value
           && k.nextCert.value in c.bundle
           && c.bundle[0].key != k.nextKey.value
           && k.key in {c.bundle[0].key, k.nextKey.value}
         case KeyReplacePromote => c.bundle[0].key == k.key
  }

  ghost function ViewOf(st: Store): (v: View)
    requires CaInv(st)
  {
    if st.certSecret.None? then Fresh
    else
      var k, c := st.keySecret.value, st.certSecret.value;
      match c.phase
      case Idle => Steady(k.key)
      case KeyReplaceTrust =>
        if k.key == c.bundle[0].key then Widened(k.key, k.nextKey.value)
        else Crossed(c.bundle[0].key, k.nextKey.value)
      case KeyReplacePromote => Promoted(k.key, c.bundle[1].key)
  }

  /** The CA is being replaced by `n`, or has been. */
  ghost predicate Heading(st: Store, n: Key)
    requires CaInv(st)
  {
    match ViewOf(st)
    case Fresh => false
    case Steady(a) => a == n
    case Widened(_, m) => m == n
    case Crossed(_, m) => m == n
    case Promoted(m, _) => m == n
  }

  /** A key replacement is in progress. */
  ghost predicate Midway(st: Store)
    requires CaInv(st)
  {
    !ViewOf(st).Fresh? && !ViewOf(st).Steady?
  }

  /** The certificate Secret trusts exactly the keys of the view, and signs with its first one. */
  lemma ViewTrust(st: Store)
    requires CaInv(st) && st.certSecret.Some?
    ensures KeysOf(st.certSecret.value.bundle) == ViewOf(st).Trusted()
    ensures st.certSecret.value.bundle[0].key in ViewOf(st).Trusted()
  {
    var k, c := st.keySecret.value, st.certSecret.value;
    var ks := KeysOf(c.bundle);
    assert c.bundle[0] in c.bundle;
    assert c.bundle[0].key in ks;
    match c.phase {
      case Idle =>
      case KeyReplaceTrust =>
        assert k.nextCert.value.key in ks;
      case KeyReplacePromote =>
        assert c.bundle[1] in c.bundle;
        assert c.bundle[1].key in ks;
    }
    assert ks == ViewOf(st).Trusted();
  }

  /** What the key generator and the signer return for a pass. */
  ghost predicate Issued(st: Store, inp: RotationInputs, m: Material)
  {
    && m.cert.Cert?
    && match PassPlanOf(st, inp)
       case Rotate(RenewCertSameKey) => m.cert.key == ReadState(st).key
       case Rotate(StartKeyReplace) => m.cert.key == m.key && m.key != ReadState(st).key
       case _ => m.cert.key == m.key
  }

  /** A promotion runs while the certificate it replaces is still valid. */
  ghost predicate OldSignerLive(st: Store, inp: RotationInputs)
  {
    PassPlanOf(st, inp) == Rotate(PromoteNewKey) && ReadState(st).bundle != [] ==>
      !Expired(ReadState(st).bundle[0], inp.now)
  }

  // ------------------------------------------------------ bundle construction

  lemma {:induction false} KeepLiveElements(bs: seq<Cert>, now: int)
    ensures forall c :: c in KeepLive(bs, now) <==> c in bs && !Expired(c, now)
  {
    if bs != [] {
      KeepLiveElements(bs[1..], now);
      assert bs == [bs[0]] + bs[1..];
    }
  }

  /** Blocks that do not parse, or have not reached their end, stay; of the others only the signing one does. */
  lemma PruneElements(bs: seq<Cert>, now: int)
    requires bs != []
    ensures forall c :: c in PruneExpired(bs, now) <==> c == bs[0] || (c in bs[1..] && (c.Unparsed? || c.notAfter > now))
    ensures PruneExpired(bs, now) != [] && PruneExpired(bs, now)[0] == bs[0]
    ensures forall c :: c in PruneExpired(bs, now) <==> c == bs[0] || (c in bs[1..] && !Expired(c, now))
    ensures forall c :: c in PruneExpired(bs, now) ==> c in bs
  {
    KeepLiveElements(bs[1..], now);
    assert bs == [bs[0]] + bs[1..];
  }

  lemma {:induction false} WithoutElements(bs: seq<Cert>, x: Cert)
    ensures forall c :: c in Without(bs, x) <==> c in bs && c != x
  {
    if bs != [] {
      WithoutElements(bs[1..], x);
      assert bs == [bs[0]] + bs[1..];
    }
  }

  lemma RenewedBundle(bundle: seq<Cert>, c: Cert, now: int)
    requires bundle != []
    ensures
      var r := Dedup([c] + PruneExpired(bundle, now));
      && r != [] && r[0] == c && bundle[0] in r && Distinct(r)
      && forall x :: x in r ==> x == c || x in bundle
  {
    var p := PruneExpired(bundle, now);
    PruneElements(bundle, now);
    DedupHead([c] + p);
    DedupElements([c] + p);
    DedupDistinct([c] + p);
    assert bundle[0] == p[0] && p[0] == ([c] + p)[1];
  }

  lemma WidenedBundle(bundle: seq<Cert>, c: Cert, now: int)
    requires bundle != []
    ensures
      var r := Dedup(PruneExpired(bundle, now) + [c]);
      && r != [] && r[0] == bundle[0] && c in r && Distinct(r)
      && forall x :: x in r ==> x == c || x in bundle
  {
    var p := PruneExpired(bundle, now);
    PruneElements(bundle, now);
    DedupHead(p + [c]);
    DedupElements(p + [c]);
    DedupDistinct(p + [c]);
  }

  /** The promoted bundle starts with the new signer, then the old one, and adds nothing else. */
  lemma PromotedBundleShape(bundle: seq<Cert>, c: Cert, now: int)
    requires bundle != [] && bundle[0] != c
    ensures
      var r := PromotedBundle(bundle, c, now);
      && r != [] && r[0] == c && Distinct(r)
      && (forall x :: x in r ==> x == c || x in bundle)
      && (!Expired(bundle[0], now) ==> |r| >= 2 && r[1] == bundle[0])
  {
    var rest := Without(bundle, c);
    WithoutElements(bundle, c);
    assert rest[0] == bundle[0];
    var d := Dedup([c] + rest);
    assert [c] + rest == [c, rest[0]] + rest[1..];
    DedupPrefix([c, rest[0]], rest[1..]);
    DedupOfDistinct([c, rest[0]]);
    assert d[0] == c && d[1] == bundle[0];
    DedupElements([c] + rest);
    DedupDistinct([c] + rest);
    PruneElements(d, now);
    PruneDistinct(d, now);
  }

  lemma {:induction false} KeepLiveDistinct(bs: seq<Cert>, now: int)
    requires Distinct(bs)
    ensures Distinct(KeepLive(bs, now))
  {
    if bs != [] {
      KeepLiveDistinct(bs[1..], now);
      KeepLiveElements(bs[1..], now);
    }
  }

  lemma PruneDistinct(bs: seq<Cert>, now: int)
    requires Distinct(bs)
    ensures Distinct(PruneExpired(bs, now))
  {
    if bs != [] {
      KeepLiveDistinct(bs[1..], now);
      KeepLiveElements(bs[1..], now);
      assert bs[0] !in bs[1..];
    }
  }

  // ---------------------------------------------------------- crash and replay

  /** The store after the first `i` patches of a pass. */
  function After(st: Store, inp: RotationInputs, m: Material, i: nat): (r: Store)
    requires i <= |Patches(st, inp, m)|
  {
    ApplyAll(st, Patches(st, inp, m)[..i])
  }

  lemma AfterSteps(st: Store, inp: RotationInputs, m: Material)
    ensures
      var ws := Patches(st, inp, m);
      && |ws| <= 2
      && After(st, inp, m, 0) == st
      && (|ws| >= 1 ==> After(st, inp, m, 1) == ApplyPatch(st, ws[0]))
      && (|ws| == 2 ==> After(st, inp, m, 2) == ApplyPatch(After(st, inp, m, 1), ws[1]))
  {
    var ws := Patches(st, inp, m);
    ApplyFew(st, ws);
    assert ws[..0] == [];
    if |ws| == 2 {
      assert ws[..2] == ws;
    }
  }

  /** The edges of the view automaton, one per accepted patch. */
  ghost predicate Edge(plan: PassPlan, m: Material, i: nat, v: View, v': View)
  {
    match plan
    case Create => (i == 0 && v == v' == Fresh) || (i == 1 && v.Fresh? && v' == Steady(m.key))
    case Rotate(RenewCertSameKey) => v.Steady? && v' == v
    case Rotate(StartKeyReplace) =>
      v.Steady? && v' == if i == 0 then v else Widened(v.a, m.key)
    case Rotate(PromoteNewKey) =>
      if i == 0 then
        (v.Widened? || v.Crossed?) && v' == Crossed(v.o, v.n)
      else v.Crossed? && v' == Promoted(v.n, v.o)
    case Rotate(PruneOldTrust) =>
      || (v.Steady? && v' == v)
      || (v.Promoted? && v' == if i == 0 then v else Steady(v.n))
    case _ => false
  }

  /**
   Every prefix of the patches of every pass keeps the Secret pair consistent,
   and each patch is one edge of the automaton.
   */
  lemma PatchMoves(st: Store, inp: RotationInputs, m: Material, i: nat)
    requires CaInv(st) && Issued(st, inp, m) && OldSignerLive(st, inp)
    requires i < |Patches(st, inp, m)|
    ensures CaInv(After(st, inp, m, i)) && CaInv(After(st, inp, m, i + 1))
    ensures Edge(PassPlanOf(st, inp), m, i, ViewOf(After(st, inp, m, i)), ViewOf(After(st, inp, m, i + 1)))
  {
    AfterSteps(st, inp, m);
    if Present(st) {
      var s := ReadState(st);
      match PlanCaRotation(s, inp) {
        case NoOp =>
        case RefuseByo =>
        case RenewCertSameKey => RenewedBundle(s.bundle, m.cert, inp.now);
        case StartKeyReplace => WidenedBundle(s.bundle, m.cert, inp.now);
        case PromoteNewKey =>
          PromotedBundleShape(s.bundle, s.pendingCert.value, inp.now);
          if i == 1 {
            assert ViewOf(After(st, inp, m, 1)) == Crossed(s.bundle[0].key, s.pendingKey.value);
          }
        case PruneOldTrust => PruneElements(s.bundle, inp.now);
      }
    }
  }

  /** A promotion never runs without staged material. */
  lemma PromoteAlwaysStaged(st: Store, inp: RotationInputs, m: Material)
    requires PairInv(st)
    ensures PassPatches(st, inp, m).Err? ==> PassPatches(st, inp, m) == Err(ByoCaMissing)
    ensures PassPatches(st, inp, m).Err? <==> !Present(st) && !inp.generate
  {
  }

  /**
   The key Secret pairs with the signing certificate, except after a crash
   between the two patches of a promotion, where the staged pair is complete
   and already trusted.
   */
  lemma KeyPairsOrStaged(st: Store)
    requires PairInv(st) && st.certSecret.Some?
    ensures
      var k, c := st.keySecret.value, st.certSecret.value;
      || k.key == c.bundle[0].key
      || (c.phase == KeyReplaceTrust && k.nextKey == Some(k.key) && k.nextCert.Some?
          && k.nextCert.value.Cert? && k.nextCert.value.key == k.key && k.nextCert.value in c.bundle)
  {
  }

  /** With no force and no convergence a pass never touches keys, phase or staged material. */
  lemma UserPathIsInert(st: Store, inp: RotationInputs, m: Material, i: nat)
    requires Present(st) && inp.force == NoForce && !inp.rolloutConverged
    requires i <= |Patches(st, inp, m)|
    ensures Present(After(st, inp, m, i))
    ensures
      var s, s' := ReadState(st), ReadState(After(st, inp, m, i));
      && s'.phase == s.phase && s'.key == s.key && s'.keyGeneration == s.keyGeneration
      && s'.pendingKey == s.pendingKey && s'.pendingCert == s.pendingCert
      && s'.leafsKeyGeneration == s.leafsKeyGeneration
  {
    AfterSteps(st, inp, m);
  }
}
