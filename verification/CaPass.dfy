/** One running pass over one CA: what it read, what it decided, and how many of its patches landed. */
module CaPass {
  import opened Options
  import opened CaRotation
  import opened CaViews

  datatype CaPass = CaPass(base: Store, inp: RotationInputs, m: Material, sent: nat)
  {
    function Ws(): (ws: seq<Patch>)
    {
      Patches(base, inp, m)
    }

    function Plan(): (plan: PassPlan)
    {
      PassPlanOf(base, inp)
    }

    /** Patches of the pass are still to come. */
    predicate Unfinished()
    {
      sent < |Ws()|
    }
  }

  function BundleKeys(ca: Store): (ks: set<Key>)
  {
    if ca.certSecret.Some? then KeysOf(ca.certSecret.value.bundle) else {}
  }

  function SignerOf(bundle: seq<Cert>): (ks: set<Key>)
  {
    if bundle != [] && bundle[0].Cert? then {bundle[0].key} else {}
  }

  function StoredSigner(ca: Store): (ks: set<Key>)
  {
    if ca.certSecret.Some? then SignerOf(ca.certSecret.value.bundle) else {}
  }

  /** The Secrets are where the accepted patches of the pass left them. */
  ghost predicate PassCa(ca: Store, p: CaPass, used: set<Key>, seen: set<Key>)
    requires CaInv(ca)
  {
    && CaInv(p.base) && Issued(p.base, p.inp, p.m) && OldSignerLive(p.base, p.inp)
    && PassPatches(p.base, p.inp, p.m).Ok?
    && p.sent <= |p.Ws()|
    && ca == After(p.base, p.inp, p.m, p.sent)
    && p.m.key in used
    && (p.Unfinished() && p.Plan() in {Create, Rotate(StartKeyReplace)} ==> p.m.key !in seen)
    && (p.Unfinished() && p.Plan() == Rotate(StartKeyReplace) ==> ViewOf(ca).Steady?)
    && (p.Unfinished() && p.Plan() == Rotate(PromoteNewKey) ==> ViewOf(ca).Widened? || ViewOf(ca).Crossed?)
    && (!p.Unfinished() && p.Plan() == Rotate(PromoteNewKey) ==> ViewOf(ca).Promoted?)
    && (!p.Unfinished() && p.Plan() == Rotate(StartKeyReplace) ==> ViewOf(ca).Widened? && ViewOf(ca).n == p.m.key)
  }

  lemma StoredKeys(ca: Store)
    requires CaInv(ca)
    ensures BundleKeys(ca) == ViewOf(ca).Trusted()
    ensures StoredSigner(ca) <= ViewOf(ca).Trusted()
  {
    if ca.certSecret.Some? {
      ViewTrust(ca);
    }
  }

  lemma BeginCa(ca: Store, p: CaPass, used: set<Key>, seen: set<Key>)
    requires CaInv(ca) && p.base == ca && p.sent == 0
    requires Issued(ca, p.inp, p.m) && OldSignerLive(ca, p.inp) && PassPatches(ca, p.inp, p.m).Ok?
    requires p.m.key in used && p.m.key !in seen
    ensures PassCa(ca, p, used, seen)
  {
    AfterSteps(ca, p.inp, p.m);
  }

  /** One more accepted patch: one edge of the view automaton, and the pass invariant carries over. */
  lemma PatchCa(ca: Store, p: CaPass, used: set<Key>, seen: set<Key>)
    requires CaInv(ca) && PassCa(ca, p, used, seen) && p.Unfinished()
    ensures
      var ca' := ApplyPatch(ca, p.Ws()[p.sent]);
      && CaInv(ca')
      && Edge(p.Plan(), p.m, p.sent, ViewOf(ca), ViewOf(ca'))
      && BundleKeys(ca') == ViewOf(ca').Trusted()
      && StoredSigner(ca') <= ViewOf(ca').Trusted()
      && |p.Ws()| <= 2
      && (p.Plan() in {Create, Rotate(StartKeyReplace), Rotate(PromoteNewKey)} ==> |p.Ws()| == 2)
      && ca' == After(p.base, p.inp, p.m, p.sent + 1)
  {
    AfterSteps(p.base, p.inp, p.m);
    PatchMoves(p.base, p.inp, p.m, p.sent);
    StoredKeys(ApplyPatch(ca, p.Ws()[p.sent]));
  }

  lemma PatchKeepsPass(ca: Store, p: CaPass, used: set<Key>, seen: set<Key>)
    requires CaInv(ca) && PassCa(ca, p, used, seen) && p.Unfinished()
    requires ViewOf(ca).Trusted() <= seen
    ensures
      var ca' := ApplyPatch(ca, p.Ws()[p.sent]);
      CaInv(ca') && PassCa(ca', p.(sent := p.sent + 1), used, seen + BundleKeys(ca'))
  {
    PatchCa(ca, p, used, seen);
  }
}
