/**
 Trust continuity of the clients CA and its prune gate.

 The operator's passes (CA Secrets, the batch over all TLS users, the leaf
 marker, the pool labels) are interleaved patch by patch with brokers that load
 the clients bundle at any time, with users that come and go at any time, and,
 between passes, with the user controller's own passes.  A pass may crash
 between any two patches, except at the points that `Harmful` names.

 Theorems: every certificate in a live user's Secret is signed by a key that
 every running broker trusts; and the old trust anchor is dropped only when no
 live user's certificate needs it.
 */
module ClientsTrust {
  import opened Options
  import opened CaRotation
  import opened CaViews
  import opened CaPass
  import opened Fleet
  import opened UserSecrets
  import Rollout
  import Convergence

  datatype Stage =
    | Secrets
    | Users(todo: seq<string>, reissue: bool)
    | Labels
    | Adopt(hashes: seq<Content>, j: nat)

  datatype Pass = NoPass | Running(ca: CaPass, stage: Stage)

  /** `users` maps each live TLS user to the signer of the certificate in its Secret, if any. */
  datatype Sys = Sys(
    ca: Store,
    users: map<string, Option<Key>>,
    fleet: Fleet<()>,
    pass: Pass,
    used: set<Key>,
    seen: set<Key>)

  datatype Event =
    | Begin(inp: RotationInputs, m: Material,
            pools: seq<Convergence.NodePool<Content>>, sets: seq<Convergence.StatefulSet<Content>>)
    | PatchSecret
    | ListUsers(names: seq<string>)
    | SkipUsers
    | EnsureUser(expiring: bool)
    | FinishUsers
    | PlanLabels(rest: nat, ready: seq<bool>)
    | AdoptPool
    | Finish
    | Crash
    | UserPass(user: string, inp: RotationInputs, m: Material, accepted: nat, expiring: bool)
    | AddUser(user: string)
    | RemoveUser(user: string)
    | Env(e: FleetEvent)

  predicate Plans(p: Pass, plan: Plan)
  {
    p.Running? && p.ca.Plan() == Rotate(plan)
  }

  /** Whether the pass reports that every leaf must be reissued. */
  predicate ReissueRequired(ca: Store, p: CaPass)
    requires Present(ca)
  {
    || p.Plan() == Rotate(PromoteNewKey)
    || (p.Plan().Rotate? && ca.certSecret.value.phase == KeyReplacePromote
        && ca.certSecret.value.leafsKeyGeneration != Some(ca.keySecret.value.keyGeneration))
  }

  /** The user batch runs on a reissue, on a prune, and whenever this CA has ever rotated. */
  predicate SyncUsers(ca: Store, p: CaPass)
    requires Present(ca)
  {
    || ReissueRequired(ca, p)
    || p.Plan() == Rotate(PruneOldTrust)
    || ca.certSecret.value.certGeneration > 0
    || ca.keySecret.value.keyGeneration > 0
  }

  /** Both agree with what a finished pass reports to its caller. */
  lemma ReportedTransition(st: Store, inp: RotationInputs, m: Material)
    requires inp.which == Clients && PassOutcome(st, inp, m).Ok?
    ensures
      var o, after, p := PassOutcome(st, inp, m).value, ApplyAll(st, Patches(st, inp, m)), CaPass(st, inp, m, |Patches(st, inp, m)|);
      && Present(after)
      && (o.transition == Reissue <==> ReissueRequired(after, p))
      && (SyncUsers(after, p) <==> o.transition != NoTransition || o.certGeneration > 0 || o.keyGeneration > 0)
  {
    AfterSteps(st, inp, m);
    var ws := Patches(st, inp, m);
    assert ws[..|ws|] == ws;
  }

  function Ensured(ca: Store, current: Option<Key>, expiring: bool): (k: Key)
    requires Present(ca) && ca.certSecret.value.bundle != [] && ca.certSecret.value.bundle[0].Cert?
  {
    EnsuredSigner(current, expiring, ca.certSecret.value.bundle[0].key, ca.keySecret.value.key)
  }

  predicate Usable(ca: Store)
  {
    Present(ca) && ca.certSecret.value.bundle != [] && ca.certSecret.value.bundle[0].Cert?
  }

  /** The clients bundle enters the hash only while a key replacement is in progress. */
  function HashedBundle(ca: Store): (b: seq<Cert>)
    requires Present(ca)
  {
    if ca.certSecret.value.phase == Idle then [] else ca.certSecret.value.bundle
  }

  /** What the clients CA contributes to the hash. */
  function Hashed(ca: Store): (b: seq<Cert>)
  {
    if Present(ca) then HashedBundle(ca) else []
  }

  function Leafs(f: Fleet<()>): (m: map<PodId, ()>)
  {
    map p | p in f.pods :: ()
  }

  ghost predicate Step(s: Sys, e: Event, s': Sys)
  {
    match e
    case Begin(inp, m, pools, sets) =>
      && s.pass.NoPass?
      && inp.which == Clients
      && Issued(s.ca, inp, m) && OldSignerLive(s.ca, inp) && m.key !in s.used
      && PassPatches(s.ca, inp, m).Ok?
      && Observes(s.fleet, pools, sets) && (inp.rolloutConverged <==> Convergence.Converged(pools, sets))
      && s' == s.(pass := Running(CaPass(s.ca, inp, m, 0), Secrets), used := s.used + {m.key})
    case PatchSecret =>
      && s.pass.Running? && s.pass.stage.Secrets? && s.pass.ca.Unfinished()
      && var p := s.pass.ca;
      && var ca' := ApplyPatch(s.ca, p.Ws()[p.sent]);
      && s' == s.(ca := ca', pass := s.pass.(ca := p.(sent := p.sent + 1)), seen := s.seen + BundleKeys(ca'))
    case ListUsers(names) =>
      && s.pass.Running? && s.pass.stage.Secrets? && !s.pass.ca.Unfinished() && Usable(s.ca)
      && SyncUsers(s.ca, s.pass.ca)
      && (forall u :: u in s.users ==> u in names)
      && s' == s.(pass := s.pass.(stage := Users(names, ReissueRequired(s.ca, s.pass.ca))))
    case SkipUsers =>
      && s.pass.Running? && s.pass.stage.Secrets? && !s.pass.ca.Unfinished() && Usable(s.ca)
      && !SyncUsers(s.ca, s.pass.ca)
      && s' == s.(pass := s.pass.(stage := Labels))
    case EnsureUser(expiring) =>
      && s.pass.Running? && s.pass.stage.Users? && s.pass.stage.todo != [] && Usable(s.ca)
      && var u := s.pass.stage.todo[0];
      && s' == s.(users := if u in s.users then s.users[u := Some(Ensured(s.ca, s.users[u], expiring))] else s.users,
                  pass := s.pass.(stage := s.pass.stage.(todo := s.pass.stage.todo[1..])))
    case FinishUsers =>
      && s.pass.Running? && s.pass.stage.Users? && s.pass.stage.todo == [] && Present(s.ca)
      && var c := s.ca.certSecret.value;
      && s' == s.(ca := if s.pass.stage.reissue
                        then s.ca.(certSecret := Some(c.(leafsKeyGeneration := Some(s.ca.keySecret.value.keyGeneration))))
                        else s.ca,
                  pass := s.pass.(stage := Labels))
    case PlanLabels(rest, ready) =>
      && s.pass.Running? && s.pass.stage.Labels? && Present(s.ca) && |ready| == |s.fleet.pools|
      && s' == s.(pass := s.pass.(stage :=
            Adopt(Rollout.Planned(RolloutView(s.fleet, ready), Content(HashedBundle(s.ca), rest)), 0)))
    case AdoptPool =>
      && s.pass.Running? && s.pass.stage.Adopt?
      && var j := s.pass.stage.j;
      && j < |s.pass.stage.hashes| && j < |s.fleet.pools|
      && s' == s.(fleet := Relabel(s.fleet, j, s.pass.stage.hashes[j]),
                  pass := s.pass.(stage := s.pass.stage.(j := j + 1)))
    case Finish =>
      && s.pass.Running? && s.pass.stage.Adopt? && s.pass.stage.j == |s.pass.stage.hashes|
      && s' == s.(pass := NoPass)
    case Crash => s.pass.Running? && s' == s.(pass := NoPass)
    case UserPass(u, inp, m, accepted, expiring) =>
      && s.pass.NoPass? && u in s.users
      && inp.which == Clients && inp.force == NoForce && !inp.rolloutConverged
      && Issued(s.ca, inp, m) && m.key !in s.used
      && accepted <= |Patches(s.ca, inp, m)|
      && var ca' := After(s.ca, inp, m, accepted);
      && var done := accepted == |Patches(s.ca, inp, m)| && Usable(ca');
      && s' == s.(ca := ca', used := s.used + {m.key}, seen := s.seen + BundleKeys(ca'),
                  users := if done then s.users[u := Some(Ensured(ca', s.users[u], expiring))] else s.users)
    case AddUser(u) => u !in s.users && s' == s.(users := s.users[u := None])
    case RemoveUser(u) => s' == s.(users := s.users - {u})
    case Env(fe) =>
      && FleetStep(s.fleet, fe, s'.fleet, BundleKeys(s.ca), Leafs(s.fleet))
      && s' == s.(fleet := s'.fleet)
  }

  /** The new clients trust is stored, but no pool label announces it yet. */
  ghost predicate Committed(s: Sys)
  {
    && Plans(s.pass, StartKeyReplace)
    && match s.pass.stage
       case Secrets => !s.pass.ca.Unfinished()
       case Users(_, _) => true
       case Labels => true
       case Adopt(_, j) => j == 0
  }

  /**
   A crash here breaks trust: the labels agree, so no roll follows by itself,
   and a broker that runs the label does not trust the staged key.
   */
  ghost predicate Harmful(s: Sys)
  {
    Committed(s) && TrustLags(s.fleet, s.pass.ca.m.key)
  }

  /** The hypothesis on runs: no pass ends at a harmful point. */
  ghost predicate Careful(s: Sys, e: Event)
  {
    e.Crash? ==> !Harmful(s)
  }

  ghost predicate Init(s: Sys)
  {
    && s.ca == Store(None, None) && s.pass == NoPass && s.seen == {}
    && (forall u :: u in s.users ==> s.users[u] == None)
    && WellFormed(s.fleet) && AllDown(s.fleet)
    && forall i :: 0 <= i < |s.fleet.pools| ==> s.fleet.pools[i] == Pool(None, None, {})
  }

  ghost predicate Run(ss: seq<Sys>, es: seq<Event>)
  {
    && |ss| == |es| + 1
    && Init(ss[0])
    && forall i :: 0 <= i < |es| ==> Step(ss[i], es[i], ss[i + 1])
  }

  /** Every live user's certificate is signed by a key every running broker trusts. */
  ghost predicate Continuous(s: Sys)
  {
    forall u, q :: u in s.users && s.users[u].Some? && q in s.fleet.pods && s.fleet.pods[q].Up? ==>
      s.users[u].value in s.fleet.pods[q].trust
  }

  // --------------------------------------------------------------- invariant

  ghost predicate UsersIn(users: map<string, Option<Key>>, ks: set<Key>)
  {
    forall u :: u in users && users[u].Some? ==> users[u].value in ks
  }

  ghost predicate PhaseInv(s: Sys)
    requires CaInv(s.ca)
  {
    match ViewOf(s.ca)
    case Fresh =>
      UsersIn(s.users, {}) && AllDown(s.fleet) && s.seen == {} && Contents(s.fleet, c => false)
    case Steady(a) => UsersIn(s.users, {a}) && TrustAll(s.fleet, {a})
    case Widened(o, n) => UsersIn(s.users, {o}) && TrustAll(s.fleet, {o})
    case Crossed(o, n) => UsersIn(s.users, {o, n}) && TrustAll(s.fleet, {o, n})
    case Promoted(n, o) => UsersIn(s.users, {n, o}) && TrustAll(s.fleet, {n, o})
  }

  /** The leaf marker never runs ahead, and equals the key generation only after a full batch. */
  ghost predicate MarkerInv(s: Sys)
    requires CaInv(s.ca)
  {
    s.ca.certSecret.Some? ==>
      && var leafs, keyGen := s.ca.certSecret.value.leafsKeyGeneration, s.ca.keySecret.value.keyGeneration;
      && (leafs.Some? ==> leafs.value <= keyGen)
      && (ViewOf(s.ca).Crossed? ==> leafs != Some(keyGen))
      && (ViewOf(s.ca).Promoted? && leafs == Some(keyGen) ==> UsersIn(s.users, {ViewOf(s.ca).n}))
  }

  ghost predicate HistoryInv(s: Sys)
    requires CaInv(s.ca)
  {
    && var v := ViewOf(s.ca);
    && v.Trusted() <= s.seen <= s.used
    && WellFormed(s.fleet)
    && Contents(s.fleet, (c: Content) => KeysOf(c.bundle) <= s.seen)
    && Carried(s.fleet, v.Trusted())
    && TrustFrom(s.fleet, s.seen)
  }

  /** Outside the committed window no broker that may count as rolled lacks the staged key. */
  ghost predicate GateInv(s: Sys)
    requires CaInv(s.ca)
  {
    var v := ViewOf(s.ca);
    v.Widened? && !Committed(s) ==> !TrustLags(s.fleet, v.n)
  }

  /** The CA stage of the pass; the leaf marker may have moved after it. */
  ghost predicate PassSecrets(s: Sys)
    requires CaInv(s.ca)
  {
    s.pass.Running? ==>
      && s.pass.ca.inp.which == Clients
      && (s.pass.stage.Secrets? ==> PassCa(s.ca, s.pass.ca, s.used, s.seen))
      && (!s.pass.stage.Secrets? ==> !s.pass.ca.Unfinished() && Present(s.ca))
      && (Plans(s.pass, StartKeyReplace) && !s.pass.ca.Unfinished() ==>
            ViewOf(s.ca).Widened? && ViewOf(s.ca).n == s.pass.ca.m.key)
  }

  /** What a pruning pass has read, and how far a reissuing batch has come. */
  ghost predicate PassUsers(s: Sys)
    requires CaInv(s.ca)
  {
    && var v := ViewOf(s.ca);
    && (Plans(s.pass, PruneOldTrust) && s.pass.stage.Secrets? && v.Promoted? ==>
          s.ca.certSecret.value.leafsKeyGeneration == Some(s.ca.keySecret.value.keyGeneration))
    && (s.pass.Running? && s.pass.stage.Users? && s.pass.stage.reissue ==>
          && v.Promoted?
          && forall u :: u in s.users && s.users[u].Some? ==> s.users[u].value == v.n || u in s.pass.stage.todo)
  }

  ghost predicate PassFleet(s: Sys)
    requires CaInv(s.ca)
  {
    && var v := ViewOf(s.ca);
    && (Plans(s.pass, PromoteNewKey) && s.pass.ca.Unfinished() && (v.Widened? || v.Crossed?) ==>
          TrustAll(s.fleet, {v.o, v.n}))
    && (s.pass.Running? && s.pass.stage.Adopt? ==>
          && s.ca.certSecret.Some?
          && var hs := s.pass.stage.hashes;
          && |hs| == |s.fleet.pools| && |hs| > 0 && s.pass.stage.j <= |hs|
          && hs[0].bundle == HashedBundle(s.ca)
          && (forall i :: 0 <= i < |hs| ==> KeysOf(hs[i].bundle) <= s.seen)
          && (s.pass.stage.j > 0 ==> s.fleet.pools[0].stamp == Some(hs[0])))
  }

  /** The part of the invariant that speaks of the Secrets and the users only; every step keeps it. */
  ghost predicate MarkInv(s: Sys)
  {
    && CaInv(s.ca) && ViewOf(s.ca).Trusted() <= s.seen <= s.used
    && MarkerInv(s) && PassSecrets(s) && PassUsers(s)
  }

  ghost predicate Inv(s: Sys)
  {
    MarkInv(s) && HistoryInv(s) && PhaseInv(s) && PassFleet(s) && GateInv(s)
  }

  lemma InvImpliesContinuous(s: Sys)
    requires Inv(s)
    ensures Continuous(s)
  {
  }
}
