/**
 Lease-based leader election by several replicas, each with its own identity
 and a common clock.

 Every replica reads the Lease, decides, and writes it back conditionally on
 the version it read.  Requests travel: a write may be applied long after it
 was sent, its reply may never arrive, and the sender may give up and go on.
 Replicas may die at any time.

 Theorem (`MutualExclusion`): in every reachable state, of all replicas that
 run controllers at most one has a last stored renewal that is not older than
 its stored duration.
 */
module LeaderElection {
  import opened Options
  import opened Lease
  import Paths

  datatype Stored = Stored(lease: Lease, version: nat)

  datatype RenewPc = RIdle | RRead(snap: Stored) | RWait(id: nat) | RLost

  datatype Pc =
    | Standby
    | NoLease
    | Read(snap: Stored)
    | Cleared(snap: Stored, checkedAt: nat)
    | Waiting(id: nat)
    | Leading(controllers: bool, renew: RenewPc)
    | Stopping(renew: RenewPc)      // no controllers run; renewals go on until the release
    | ReleaseRead(snap: Stored)
    | Dead

  datatype Kind = Create | Claim(checkedAt: nat) | Renew | Release

  /** A write in flight: the version it replaces, what it read there, what it writes, and when it was sent. */
  datatype Request = Request(owner: string, kind: Kind, base: Option<Stored>, lease: Lease, sentAt: nat)

  datatype Sys = Sys(
    now: nat,
    stored: Option<Stored>,
    nextVersion: nat,
    requests: map<nat, Request>,
    replies: map<nat, bool>,
    nextId: nat,
    procs: map<string, Pc>,
    durations: map<string, int>,
    last: map<string, Lease>,      // history: the last Lease stored under each replica's name
    released: set<string>,         // history: replicas whose release was stored
    renewedAt: map<string, nat>)   // history: when the write behind `last` was sent

  datatype Event =
    | Tick(to: nat)
    | Get(p: string)
    | Decide(p: string)
    | Send(p: string)
    | Deliver(id: nat)
    | Receive(p: string)
    | GiveUp(p: string)
    | StartControllers(p: string)
    | RenewGet(p: string)
    | RenewSend(p: string)
    | RenewDone(p: string, lost: bool)
    | StopControllers(p: string)
    | ReleaseGet(p: string)
    | ReleaseSend(p: string)
    | Die(p: string)

  /** The renewal loop of the replica is running. */
  predicate Renews(pc: Pc)
  {
    pc.Leading? || pc.Stopping?
  }

  function Go(s: Sys, p: string, pc: Pc): (r: Sys)
  {
    s.(procs := s.procs[p := pc])
  }

  function SendRequest(s: Sys, p: string, pc: Pc, r: Request): (s': Sys)
  {
    s.(requests := s.requests[s.nextId := r], nextId := s.nextId + 1, procs := s.procs[p := pc])
  }

  /** The API server applies a write only to the exact version it was based on. */
  function Apply(s: Sys, id: nat): (s': Sys)
    requires id in s.requests
  {
    var r := s.requests[id];
    var done := s.(requests := s.requests - {id});
    if s.stored.None? != r.base.None? || (s.stored.Some? && s.stored.value.version != r.base.value.version)
    then done.(replies := s.replies[id := false])
    else
      done.(replies := s.replies[id := true],
            stored := Some(Stored(r.lease, s.nextVersion)),
            nextVersion := s.nextVersion + 1,
            last := if r.kind.Release? then s.last else s.last[r.owner := r.lease],
            released := if r.kind.Release? then s.released + {r.owner} else s.released,
            renewedAt := if r.kind.Release? then s.renewedAt else s.renewedAt[r.owner := r.sentAt])
  }

  ghost predicate Step(s: Sys, e: Event, s': Sys)
  {
    match e
    case Tick(t) => s.now <= t && s' == s.(now := t)
    case Get(p) =>
      && p in s.procs && s.procs[p].Standby?
      && s' == Go(s, p, if s.stored.None? then NoLease else Read(s.stored.value))
    case Decide(p) =>
      && p in s.procs && p in s.durations && s.procs[p].Read?
      && var snap := s.procs[p].snap;
      && s' == Go(s, p, if HeldBy(snap.lease, p) then Leading(false, RIdle)
                        else if IsClaimable(snap.lease, s.durations[p], s.now) then Cleared(snap, s.now)
                        else Standby)
    case Send(p) =>
      && p in s.procs && p in s.durations
      && ((s.procs[p].NoLease? &&
            s' == SendRequest(s, p, Waiting(s.nextId), Request(p, Create, None, Created(p, s.durations[p], s.now), s.now)))
          || (s.procs[p].Cleared? &&
            var snap := s.procs[p].snap;
            s' == SendRequest(s, p, Waiting(s.nextId),
                    Request(p, Claim(s.procs[p].checkedAt), Some(snap), Claimed(snap.lease, p, s.durations[p], s.now), s.now))))
    case Deliver(id) => id in s.requests && s' == Apply(s, id)
    case Receive(p) =>
      && p in s.procs && s.procs[p].Waiting? && s.procs[p].id in s.replies
      && s' == Go(s, p, if s.replies[s.procs[p].id] then Leading(false, RIdle) else Standby)
    case GiveUp(p) => p in s.procs && s.procs[p].Waiting? && s' == Go(s, p, Standby)
    case StartControllers(p) =>
      && p in s.procs && s.procs[p].Leading?
      && s' == Go(s, p, s.procs[p].(controllers := true))
    case RenewGet(p) =>
      && p in s.procs && Renews(s.procs[p]) && s.procs[p].renew.RIdle?
      && s' == Go(s, p, s.procs[p].(renew :=
            if s.stored.Some? && HeldBy(s.stored.value.lease, p) then RRead(s.stored.value) else RLost))
    case RenewSend(p) =>
      && p in s.procs && p in s.durations && Renews(s.procs[p]) && s.procs[p].renew.RRead?
      && var snap := s.procs[p].renew.snap;
      && s' == SendRequest(s, p, s.procs[p].(renew := RWait(s.nextId)),
                  Request(p, Renew, Some(snap), Renewed(snap.lease, s.durations[p], s.now), s.now))
    case RenewDone(p, lost) =>
      && p in s.procs && Renews(s.procs[p]) && s.procs[p].renew.RWait?
      && s' == Go(s, p, s.procs[p].(renew := if lost then RLost else RIdle))
    case StopControllers(p) => p in s.procs && s.procs[p].Leading? && s' == Go(s, p, Stopping(s.procs[p].renew))
    case ReleaseGet(p) =>
      && p in s.procs && s.procs[p].Stopping?
      && s' == Go(s, p, if s.stored.Some? && HeldBy(s.stored.value.lease, p) then ReleaseRead(s.stored.value) else Dead)
    case ReleaseSend(p) =>
      && p in s.procs && s.procs[p].ReleaseRead?
      && var snap := s.procs[p].snap;
      && var written := Released(snap.lease, p, s.now);
      && written.Some?
      && s' == SendRequest(s, p, Dead, Request(p, Release, Some(snap), written.value, s.now))
    case Die(p) => p in s.procs && s' == Go(s, p, Dead)
  }

  /** The number of transitions a stored Lease records. */
  function TransitionCount(st: Option<Stored>): (n: int)
  {
    if st.Some? && st.value.lease.transitions.Some? then st.value.lease.transitions.value else 0
  }

  /** Any Lease may exist already, as long as no replica of this run is named in it. */
  ghost predicate Init(s: Sys)
  {
    && s.requests == map[] && s.replies == map[] && s.last == map[] && s.released == {}
    && s.renewedAt == map[]
    && s.procs.Keys == s.durations.Keys
    && (forall p :: p in s.procs ==> p != "" && s.procs[p] == Standby)
    && (s.stored.Some? ==>
          && s.stored.value.version < s.nextVersion
          && TransitionCount(s.stored) <= I32_MAX
          && forall p :: p in s.procs ==> !HeldBy(s.stored.value.lease, p))
  }

  ghost predicate Run(ss: seq<Sys>, es: seq<Event>)
  {
    && |ss| == |es| + 1
    && Init(ss[0])
    && forall i :: 0 <= i < |es| ==> Step(ss[i], es[i], ss[i + 1])
  }

  predicate RunsControllers(s: Sys, p: string)
  {
    p in s.procs && s.procs[p].Leading? && s.procs[p].controllers
  }

  /** The last renewal stored for `p` is not older than its stored duration. */
  predicate Current(s: Sys, p: string)
  {
    p in s.last && !IsExpired(s.last[p], 0, s.now)
  }

  // --------------------------------------------------------------- invariant

  /** What was read earlier is still true of the store if the version is still the same. */
  ghost predicate Remembers(s: Sys, snap: Stored)
  {
    && snap.version < s.nextVersion
    && s.stored.Some?
    && (s.stored.value.version == snap.version ==> s.stored.value == snap)
  }

  ghost predicate Named(s: Sys, l: Lease, p: string)
  {
    HeldBy(l, p) && l.duration.Some? && l.renewTime.Some?
  }

  ghost predicate RequestInv(s: Sys, r: Request)
  {
    && r.owner in s.procs && r.owner in s.durations
    && (r.base.Some? ==> Remembers(s, r.base.value))
    && match r.kind
       case Create => r.base.None? && Named(s, r.lease, r.owner) && r.lease.transitions == Some(1)
       case Claim(t) =>
         && r.base.Some? && Named(s, r.lease, r.owner)
         && t <= s.now && IsClaimable(r.base.value.lease, s.durations[r.owner], t)
         && !HeldBy(r.base.value.lease, r.owner)
         && r.lease.transitions == Some(SaturatingSucc(TransitionCount(r.base)))
       case Renew =>
         && r.base.Some? && HeldBy(r.base.value.lease, r.owner) && Named(s, r.lease, r.owner)
         && r.lease.transitions == r.base.value.lease.transitions
       case Release =>
         && r.base.Some? && HeldBy(r.base.value.lease, r.owner) && r.lease.holder.None?
         && r.lease.transitions == r.base.value.lease.transitions
         && s.procs[r.owner].Dead?
  }

  ghost predicate PcInv(s: Sys, p: string)
    requires p in s.procs
  {
    match s.procs[p]
    case Standby => true
    case NoLease => true
    case Read(snap) => Remembers(s, snap) && (HeldBy(snap.lease, p) ==> p in s.last)
    case Cleared(snap, t) =>
      && Remembers(s, snap) && p in s.durations
      && t <= s.now && IsClaimable(snap.lease, s.durations[p], t) && !HeldBy(snap.lease, p)
    case Waiting(id) =>
      && id < s.nextId
      && (id in s.requests ==> s.requests[id].owner == p && !s.requests[id].kind.Release?)
      && (id in s.replies && s.replies[id] ==> p in s.last)
    case Leading(_, renew) =>
      && p in s.last
      && (renew.RRead? ==> Remembers(s, renew.snap) && HeldBy(renew.snap.lease, p))
    case Stopping(renew) => renew.RRead? ==> Remembers(s, renew.snap) && HeldBy(renew.snap.lease, p)
    case ReleaseRead(snap) => Remembers(s, snap) && HeldBy(snap.lease, p)
    case Dead => true
  }

  /** A replica's last stored Lease is still the stored one, unless it has expired. */
  ghost predicate LastInv(s: Sys, p: string)
    requires p in s.last
  {
    && Named(s, s.last[p], p)
    && (p !in s.released ==>
          || (s.stored.Some? && s.stored.value.lease == s.last[p])
          || IsExpired(s.last[p], 0, s.now))
  }

  ghost predicate StoreInv(s: Sys)
  {
    && s.procs.Keys == s.durations.Keys
    && (s.stored.Some? ==>
          && s.stored.value.version < s.nextVersion
          && forall p :: p in s.procs && HeldBy(s.stored.value.lease, p) ==>
               p in s.last && s.stored.value.lease == s.last[p])
  }

  ghost predicate RequestsInv(s: Sys)
  {
    && (forall id :: id in s.requests ==> id < s.nextId && RequestInv(s, s.requests[id]))
    && (forall id :: id in s.replies ==> id < s.nextId)
  }

  ghost predicate ProcsInv(s: Sys)
  {
    && "" !in s.procs
    && (forall p :: p in s.procs ==> PcInv(s, p))
  }

  ghost predicate HistoryInv(s: Sys)
  {
    && (forall p :: p in s.last ==> p in s.procs && LastInv(s, p))
    && (forall p :: p in s.released ==> p in s.procs && s.procs[p].Dead?)
  }

  ghost predicate Inv(s: Sys)
  {
    StoreInv(s) && RequestsInv(s) && ProcsInv(s) && HistoryInv(s)
  }

  lemma TickKeeps(s: Sys, e: Event, s': Sys)
    requires Inv(s) && Step(s, e, s') && e.Tick?
    ensures Inv(s')
  {
    hide HeldBy, IsVacant;
    forall p | p in s.last ensures LastInv(s', p) {
      if IsExpired(s.last[p], 0, s.now) {
        ExpiryIsMonotone(s.last[p], 0, s.now, s'.now);
      }
    }
  }

  /** A replica moves on by itself; a dead one does not come back. */
  lemma GoKeeps(s: Sys, p: string, pc: Pc)
    requires Inv(s) && p in s.procs && (s.procs[p].Dead? ==> pc.Dead?)
    requires PcInv(Go(s, p, pc), p)
    ensures Inv(Go(s, p, pc))
  {
    var s' := Go(s, p, pc);
    forall q | q in s'.procs ensures PcInv(s', q) {
      assert q != p ==> PcInv(s, q);
    }
    forall id | id in s'.requests ensures RequestInv(s', s'.requests[id]) {
      assert RequestInv(s, s.requests[id]);
    }
    forall q | q in s'.last ensures LastInv(s', q) {
      assert LastInv(s, q);
    }
  }

  lemma SendKeeps(s: Sys, p: string, pc: Pc, r: Request)
    requires Inv(s) && p in s.procs && (s.procs[p].Dead? ==> pc.Dead?)
    requires PcInv(SendRequest(s, p, pc, r), p) && RequestInv(SendRequest(s, p, pc, r), r)
    ensures Inv(SendRequest(s, p, pc, r))
  {
    var s' := SendRequest(s, p, pc, r);
    forall q | q in s'.procs ensures PcInv(s', q) {
      assert q != p ==> PcInv(s, q);
    }
    forall id | id in s'.requests ensures id < s'.nextId && RequestInv(s', s'.requests[id]) {
      assert id != s.nextId ==> id in s.requests && RequestInv(s, s.requests[id]);
    }
    forall q | q in s'.last ensures LastInv(s', q) {
      assert LastInv(s, q);
    }
  }

  /** The request a standby sends is what its check allows. */
  lemma CreateIsAllowed(s: Sys, p: string, r: Request, s': Sys)
    requires StoreInv(s) && p in s.procs && p in s.durations && s.procs[p].NoLease?
    requires r == Request(p, Create, None, Created(p, s.durations[p], s.now), s.now)
    requires s' == SendRequest(s, p, Waiting(s.nextId), r)
    ensures RequestInv(s', r)
  {
  }

  lemma ClaimIsAllowed(s: Sys, p: string, r: Request, s': Sys)
    requires StoreInv(s) && p in s.procs && p in s.durations && s.procs[p].Cleared? && PcInv(s, p)
    requires r == Request(p, Claim(s.procs[p].checkedAt), Some(s.procs[p].snap),
                          Claimed(s.procs[p].snap.lease, p, s.durations[p], s.now), s.now)
    requires s' == SendRequest(s, p, Waiting(s.nextId), r)
    ensures RequestInv(s', r)
  {
    hide IsClaimable;
  }

  lemma ClaimSendKeeps(s: Sys, e: Event, s': Sys)
    requires Inv(s) && Step(s, e, s') && e.Send?
    ensures Inv(s')
  {
    hide IsClaimable, LastInv, RequestInv, IsExpired, HistoryInv;
    var p := e.p;
    assert PcInv(s, p);
    var r := s'.requests[s.nextId];
    assert s' == SendRequest(s, p, Waiting(s.nextId), r);
    if s.procs[p].NoLease? {
      CreateIsAllowed(s, p, r, s');
    } else {
      ClaimIsAllowed(s, p, r, s');
    }
    SendKeeps(s, p, Waiting(s.nextId), r);
  }

  lemma RenewSendKeeps(s: Sys, e: Event, s': Sys)
    requires Inv(s) && Step(s, e, s') && e.RenewSend?
    ensures Inv(s')
  {
    hide IsClaimable, LastInv;
    var p := e.p;
    assert PcInv(s, p);
    var r := s'.requests[s.nextId];
    assert s' == SendRequest(s, p, s'.procs[p], r);
    assert RequestInv(s', r);
    SendKeeps(s, p, s'.procs[p], r);
  }

  lemma ReleaseSendKeeps(s: Sys, e: Event, s': Sys)
    requires Inv(s) && Step(s, e, s') && e.ReleaseSend?
    ensures Inv(s')
  {
    hide IsClaimable, LastInv;
    var p := e.p;
    assert PcInv(s, p);
    var r := s'.requests[s.nextId];
    assert s' == SendRequest(s, p, Dead, r);
    assert RequestInv(s', r);
    SendKeeps(s, p, Dead, r);
  }

  lemma MovesKeep(s: Sys, e: Event, s': Sys)
    requires Inv(s) && Step(s, e, s') && !e.Tick? && !e.Deliver? && !e.Send? && !e.RenewSend? && !e.ReleaseSend?
    ensures Inv(s')
  {
    hide IsClaimable, LastInv, RequestInv;
    var p := e.p;
    assert PcInv(s, p);
    assert s' == Go(s, p, s'.procs[p]);
    GoKeeps(s, p, s'.procs[p]);
  }

  /** A rejected write changes nothing but the reply. */
  lemma RejectKeeps(s: Sys, id: nat)
    requires Inv(s) && id in s.requests && !Apply(s, id).replies[id]
    ensures Inv(Apply(s, id))
  {
    var s' := Apply(s, id);
    forall q | q in s'.procs ensures PcInv(s', q) {
      assert PcInv(s, q);
    }
    forall x | x in s'.requests ensures RequestInv(s', s'.requests[x]) {
      assert RequestInv(s, s.requests[x]);
    }
    forall q | q in s'.last ensures LastInv(s', q) {
      assert LastInv(s, q);
    }
  }

  /** An applied write replaced exactly what its sender read. */
  lemma AppliedBase(s: Sys, id: nat)
    requires Inv(s) && id in s.requests && Apply(s, id).replies[id]
    ensures s.stored == s.requests[id].base
  {
    assert RequestInv(s, s.requests[id]);
  }

  lemma AppliedRequests(s: Sys, id: nat)
    requires Inv(s) && id in s.requests && Apply(s, id).replies[id]
    ensures RequestsInv(Apply(s, id))
  {
    hide LastInv, PcInv, IsClaimable, HistoryInv, ProcsInv;
    var s' := Apply(s, id);
    assert RequestInv(s, s.requests[id]);
    forall x | x in s'.requests ensures RequestInv(s', s'.requests[x]) {
      assert RequestInv(s, s.requests[x]);
    }
  }

  lemma AppliedPcs(s: Sys, id: nat)
    requires Inv(s) && id in s.requests && Apply(s, id).replies[id]
    ensures ProcsInv(Apply(s, id))
  {
    hide LastInv, IsClaimable, HistoryInv;
    var s' := Apply(s, id);
    assert RequestInv(s, s.requests[id]);
    forall q | q in s'.procs ensures PcInv(s', q) {
      assert PcInv(s, q);
    }
  }

  /** The heart of the argument: storing a claim can only displace a Lease that has expired. */
  lemma AppliedLast(s: Sys, id: nat)
    requires Inv(s) && id in s.requests && Apply(s, id).replies[id]
    ensures HistoryInv(Apply(s, id)) && StoreInv(Apply(s, id))
  {
    var r, s' := s.requests[id], Apply(s, id);
    AppliedBase(s, id);
    assert RequestInv(s, r);
    forall p | p in s'.last ensures p in s'.procs && LastInv(s', p) {
      if p != r.owner || r.kind.Release? {
        assert LastInv(s, p);
        if p != r.owner && r.kind.Claim? && s.stored.value.lease == s.last[p] {
          ExpiryIsMonotone(s.last[p], s.durations[r.owner], r.kind.checkedAt, s.now);
        }
      }
    }
  }

  lemma ApplyKeeps(s: Sys, id: nat)
    requires Inv(s) && id in s.requests && Apply(s, id).replies[id]
    ensures Inv(Apply(s, id))
  {
    AppliedPcs(s, id);
    AppliedRequests(s, id);
    AppliedLast(s, id);
  }

  lemma StepKeepsInv(s: Sys, e: Event, s': Sys)
    requires Inv(s) && Step(s, e, s')
    ensures Inv(s')
  {
    if e.Tick? {
      TickKeeps(s, e, s');
    } else if e.Deliver? {
      if s'.replies[e.id] {
        ApplyKeeps(s, e.id);
      } else {
        RejectKeeps(s, e.id);
      }
    } else if e.Send? {
      ClaimSendKeeps(s, e, s');
    } else if e.RenewSend? {
      RenewSendKeeps(s, e, s');
    } else if e.ReleaseSend? {
      ReleaseSendKeeps(s, e, s');
    } else {
      MovesKeep(s, e, s');
    }
  }

  lemma {:induction false} RunInv(ss: seq<Sys>, es: seq<Event>, i: nat)
    requires Run(ss, es) && i < |ss|
    ensures Inv(ss[i])
  {
    if i > 0 {
      RunInv(ss, es, i - 1);
      StepKeepsInv(ss[i - 1], es[i - 1], ss[i]);
    }
  }

  /** At most one replica with a current lease runs controllers, and it is the stored holder. */
  lemma MutualExclusion(ss: seq<Sys>, es: seq<Event>, i: nat, p: string, q: string)
    requires Run(ss, es) && i < |ss|
    requires RunsControllers(ss[i], p) && Current(ss[i], p)
    ensures ss[i].stored.Some? && HeldBy(ss[i].stored.value.lease, p)
    ensures RunsControllers(ss[i], q) && Current(ss[i], q) ==> p == q
  {
    RunInv(ss, es, i);
    assert PcInv(ss[i], p) && LastInv(ss[i], p);
    if RunsControllers(ss[i], q) && Current(ss[i], q) {
      assert PcInv(ss[i], q) && LastInv(ss[i], q);
    }
  }

  /**
   Takeover safety: whenever a claim over another holder is stored, it replaced
   exactly the version its sender read, and at the moment of the sender's check
   more than the stored duration had really passed since the stored renewal.
   */
  lemma TakeoverSafety(ss: seq<Sys>, es: seq<Event>, i: nat)
    requires Run(ss, es) && i < |es| && es[i].Deliver?
    requires es[i].id in ss[i].requests && ss[i].requests[es[i].id].kind.Claim?
    requires ss[i + 1].replies[es[i].id]
    ensures
      var r := ss[i].requests[es[i].id];
      && r.base.Some? && ss[i].stored == r.base
      && var l := r.base.value.lease;
      && r.kind.checkedAt <= ss[i].now
      && r.owner in ss[i].durations
      && (IsVacant(l) || l.renewTime.None?
          || r.kind.checkedAt - l.renewTime.value > EffectiveDuration(l, ss[i].durations[r.owner]) * MICROS)
  {
    RunInv(ss, es, i);
    AppliedBase(ss[i], es[i].id);
    var r := ss[i].requests[es[i].id];
    var l := r.base.value.lease;
    if !IsVacant(l) && l.renewTime.Some? {
      ExpiryIsNeverEarly(l, ss[i].durations[r.owner], r.kind.checkedAt);
    }
  }

  /** A replica's stored Lease gives way only to its own release, or after it expired. */
  lemma DisplacedOnlyWhenExpired(ss: seq<Sys>, es: seq<Event>, i: nat, p: string)
    requires Run(ss, es) && i < |es| && p in ss[i].procs
    requires ss[i].stored.Some? && HeldBy(ss[i].stored.value.lease, p)
    requires ss[i + 1].stored.Some? && !HeldBy(ss[i + 1].stored.value.lease, p)
    ensures es[i].Deliver? && es[i].id in ss[i].requests
    ensures
      var r := ss[i].requests[es[i].id];
      || (r.kind.Release? && r.owner == p && ss[i].procs[p].Dead?)
      || (r.kind.Claim? && r.owner != p && IsExpired(ss[i].stored.value.lease, 0, ss[i].now))
  {
    RunInv(ss, es, i);
    assert Step(ss[i], es[i], ss[i + 1]);
    var r := ss[i].requests[es[i].id];
    assert RequestInv(ss[i], r);
    AppliedBase(ss[i], es[i].id);
    if r.kind.Claim? {
      ExpiryIsMonotone(ss[i].stored.value.lease, ss[i].durations[r.owner], r.kind.checkedAt, ss[i].now);
    }
  }

  // -------------------------------------------------------------------- renewals

  /** A write that names its sender carries the time it was sent and the sender's duration. */
  ghost predicate Stamped(s: Sys, r: Request)
  {
    && r.owner in s.durations && r.sentAt <= s.now
    && (!r.kind.Release? ==> r.lease.renewTime == Some(r.sentAt) && r.lease.duration == Some(s.durations[r.owner]))
  }

  /** And so does what it stored. */
  ghost predicate StampInv(s: Sys)
  {
    && s.procs.Keys == s.durations.Keys
    && (forall id :: id in s.requests ==> Stamped(s, s.requests[id]))
    && (forall p :: p in s.last ==>
          && p in s.renewedAt && s.renewedAt[p] <= s.now && p in s.durations
          && s.last[p].renewTime == Some(s.renewedAt[p]) && s.last[p].duration == Some(s.durations[p]))
  }

  lemma DeliverStamps(s: Sys, id: nat)
    requires StampInv(s) && id in s.requests
    ensures StampInv(Apply(s, id))
  {
    var s' := Apply(s, id);
    assert Stamped(s, s.requests[id]);
    forall x | x in s'.requests ensures Stamped(s', s'.requests[x]) {
      assert Stamped(s, s.requests[x]);
    }
  }

  lemma SendStamps(s: Sys, p: string, pc: Pc, r: Request)
    requires StampInv(s) && Stamped(s, r) && p in s.procs
    ensures StampInv(SendRequest(s, p, pc, r))
  {
    var s' := SendRequest(s, p, pc, r);
    forall x | x in s'.requests ensures Stamped(s', s'.requests[x]) {
      assert x != s.nextId ==> x in s.requests && Stamped(s, s.requests[x]);
    }
  }

  /** What a replica sends is stamped. */
  lemma SentIsStamped(s: Sys, e: Event, s': Sys)
    requires StampInv(s) && Step(s, e, s') && (e.Send? || e.RenewSend? || e.ReleaseSend?)
    ensures s.nextId in s'.requests && Stamped(s, s'.requests[s.nextId])
    ensures e.p in s.procs && e.p in s'.procs && s' == SendRequest(s, e.p, s'.procs[e.p], s'.requests[s.nextId])
  {
    hide IsClaimable, IsExpired, HeldBy;
  }

  lemma GoStamps(s: Sys, p: string, pc: Pc)
    requires StampInv(s) && p in s.procs
    ensures StampInv(Go(s, p, pc))
  {
    var s' := Go(s, p, pc);
    forall x | x in s'.requests ensures Stamped(s', s'.requests[x]) {
      assert Stamped(s, s.requests[x]);
    }
  }

  lemma OtherStamps(s: Sys, e: Event, s': Sys)
    requires StampInv(s) && Step(s, e, s') && !e.Deliver? && !e.Send? && !e.RenewSend? && !e.ReleaseSend?
    ensures StampInv(s')
  {
    hide IsClaimable, IsExpired, HeldBy, StampInv, Stamped;
    if e.Tick? {
      TickStamps(s, s');
    } else {
      assert s' == Go(s, e.p, s'.procs[e.p]);
      GoStamps(s, e.p, s'.procs[e.p]);
    }
  }

  lemma TickStamps(s: Sys, s': Sys)
    requires StampInv(s) && s.now <= s'.now && s' == s.(now := s'.now)
    ensures StampInv(s')
  {
    forall x | x in s'.requests ensures Stamped(s', s'.requests[x]) {
      assert Stamped(s, s.requests[x]);
    }
  }

  lemma StampStep(s: Sys, e: Event, s': Sys)
    requires StampInv(s) && Step(s, e, s')
    ensures StampInv(s')
  {
    if e.Deliver? {
      DeliverStamps(s, e.id);
    } else if e.Send? || e.RenewSend? || e.ReleaseSend? {
      SentIsStamped(s, e, s');
      SendStamps(s, e.p, s'.procs[e.p], s'.requests[s.nextId]);
    } else {
      OtherStamps(s, e, s');
    }
  }

  lemma {:induction false} RunStamps(ss: seq<Sys>, es: seq<Event>, i: nat)
    requires Run(ss, es) && i < |ss|
    ensures StampInv(ss[i])
  {
    hide Inv, Step;
    if i > 0 {
      RunStamps(ss, es, i - 1);
      StampStep(ss[i - 1], es[i - 1], ss[i]);
    }
  }

  /** The last write stored for `p` was sent no longer ago than its duration. */
  predicate RecentlyStored(s: Sys, p: string)
  {
    p in s.renewedAt && p in s.durations && s.now - s.renewedAt[p] <= s.durations[p] * MICROS
  }

  /** A renewal renews: once stored, the Lease bears the time the renewal was sent. */
  lemma RenewalIsStamped(ss: seq<Sys>, es: seq<Event>, i: nat)
    requires Run(ss, es) && i < |es| && es[i].Deliver? && es[i].id in ss[i].requests
    requires !ss[i].requests[es[i].id].kind.Release? && ss[i + 1].replies[es[i].id]
    ensures
      var r := ss[i].requests[es[i].id];
      && r.owner in ss[i + 1].last
      && ss[i + 1].stored.Some? && ss[i + 1].stored.value.lease == ss[i + 1].last[r.owner]
      && ss[i + 1].last[r.owner].renewTime == Some(r.sentAt)
  {
    RunStamps(ss, es, i);
    assert Step(ss[i], es[i], ss[i + 1]) && Stamped(ss[i], ss[i].requests[es[i].id]);
  }

  /** A replica with a recently stored write is current. */
  lemma RecentIsCurrent(ss: seq<Sys>, es: seq<Event>, i: nat, p: string)
    requires Run(ss, es) && i < |ss| && p in ss[i].last && RecentlyStored(ss[i], p)
    ensures Current(ss[i], p)
  {
    RunStamps(ss, es, i);
    if IsExpired(ss[i].last[p], 0, ss[i].now) {
      ExpiryIsNeverEarly(ss[i].last[p], 0, ss[i].now);
    }
  }

  /** So a leader that keeps renewing keeps its Lease: only its own release replaces it. */
  lemma RenewingLeaderIsSafe(ss: seq<Sys>, es: seq<Event>, i: nat, p: string)
    requires Run(ss, es) && i < |es| && p in ss[i].procs && RecentlyStored(ss[i], p)
    requires ss[i].stored.Some? && HeldBy(ss[i].stored.value.lease, p) && !ss[i].procs[p].Dead?
    ensures ss[i + 1].stored.Some? && HeldBy(ss[i + 1].stored.value.lease, p)
  {
    RunInv(ss, es, i);
    StepCounts(ss[i], es[i], ss[i + 1]);
    RecentIsCurrent(ss, es, i, p);
    if !HeldBy(ss[i + 1].stored.value.lease, p) {
      DisplacedOnlyWhenExpired(ss, es, i, p);
    }
  }

  /** And two replicas that run controllers on recently stored writes are one. */
  lemma RenewingLeadersAreOne(ss: seq<Sys>, es: seq<Event>, i: nat, p: string, q: string)
    requires Run(ss, es) && i < |ss|
    requires RunsControllers(ss[i], p) && RecentlyStored(ss[i], p)
    requires RunsControllers(ss[i], q) && RecentlyStored(ss[i], q)
    ensures p == q
  {
    RunInv(ss, es, i);
    assert PcInv(ss[i], p) && PcInv(ss[i], q);
    RecentIsCurrent(ss, es, i, p);
    RecentIsCurrent(ss, es, i, q);
    MutualExclusion(ss, es, i, p, q);
  }

  // ------------------------------------------------------------- transition count

  function Holder(st: Option<Stored>): (h: Option<string>)
  {
    if st.None? then None else st.value.lease.holder
  }

  /** The number of stored writes, up to state `i`, that put a new holder in place. */
  function HolderChanges(ss: seq<Sys>, i: nat): (n: nat)
    requires i < |ss|
  {
    if i == 0 then 0
    else
      HolderChanges(ss, i - 1)
      + if Holder(ss[i].stored).Some? && Holder(ss[i].stored) != Holder(ss[i - 1].stored) then 1 else 0
  }

  function Saturated(n: int): (r: int)
  {
    if n > I32_MAX then I32_MAX else n
  }

  lemma StepCounts(s: Sys, e: Event, s': Sys)
    requires Inv(s) && Step(s, e, s')
    ensures s.stored.Some? ==> s'.stored.Some?
    ensures TransitionCount(s'.stored) ==
      if Holder(s'.stored).Some? && Holder(s'.stored) != Holder(s.stored)
      then SaturatingSucc(TransitionCount(s.stored)) else TransitionCount(s.stored)
  {
    hide LastInv, PcInv, IsClaimable;
    if e.Deliver? {
      var r := s.requests[e.id];
      assert RequestInv(s, r);
      if s'.replies[e.id] {
        AppliedBase(s, e.id);
      }
    } else {
      assert s'.stored == s.stored;
    }
  }

  /** In every run the stored transition count is the number of holder changes since the start, saturating. */
  lemma {:induction false} TransitionsCountHolderChanges(ss: seq<Sys>, es: seq<Event>, i: nat)
    requires Run(ss, es) && i < |ss|
    ensures TransitionCount(ss[i].stored) == Saturated(TransitionCount(ss[0].stored) + HolderChanges(ss, i))
  {
    hide Inv, Step;
    if i > 0 {
      TransitionsCountHolderChanges(ss, es, i - 1);
      RunInv(ss, es, i - 1);
      StepCounts(ss[i - 1], es[i - 1], ss[i]);
    }
  }

  /** Hand-over: a lease given back was given back by a replica that runs nothing any more. */
  lemma ReleaseAfterStop(ss: seq<Sys>, es: seq<Event>, i: nat, p: string)
    requires Run(ss, es) && i < |ss| && p in ss[i].released
    ensures !RunsControllers(ss[i], p)
  {
    RunInv(ss, es, i);
  }

  // ------------------------------------------------------- without timely renewals

  /** A write that still finds what its sender read is applied, and the sender leads. */
  lemma Win(s: Sys, p: string, r: Request) returns (ss: seq<Sys>, es: seq<Event>)
    requires p in s.procs && s.nextId !in s.requests && r.owner == p && !r.kind.Release? && r.base == s.stored
    ensures
      var sent := SendRequest(s, p, Waiting(s.nextId), r);
      && Paths.Path(ss, es, Step) && |es| == 3 && ss[0] == sent
      && ss[3].procs == s.procs[p := Leading(true, RIdle)] && ss[3].last == s.last[p := r.lease]
      && ss[3].stored == Some(Stored(r.lease, s.nextVersion)) && ss[3].requests == s.requests
      && ss[3].now == s.now && ss[3].durations == s.durations && ss[3].nextId == s.nextId + 1
  {
    var id := s.nextId;
    var s0 := SendRequest(s, p, Waiting(id), r);
    var s1 := Apply(s0, id);
    assert s1.requests == s.requests;
    var s2 := Go(s1, p, Leading(false, RIdle));
    var s3 := Go(s2, p, Leading(true, RIdle));
    ss, es := [s0, s1, s2, s3], [Deliver(id), Receive(p), StartControllers(p)];
    assert Step(s0, es[0], s1) && Step(s1, es[1], s2) && Step(s2, es[2], s3);
  }

  /** The first replica creates the Lease and leads. */
  lemma FirstLeader(s: Sys, p: string) returns (ss: seq<Sys>, es: seq<Event>)
    requires p in s.procs && p in s.durations && s.procs[p].Standby? && s.stored.None? && s.nextId !in s.requests
    ensures Paths.Path(ss, es, Step) && |es| == 5 && ss[0] == s
    ensures
      var created := Created(p, s.durations[p], s.now);
      && ss[5].procs == s.procs[p := Leading(true, RIdle)] && ss[5].durations == s.durations
      && ss[5].stored == Some(Stored(created, s.nextVersion)) && ss[5].last == s.last[p := created]
      && ss[5].requests == s.requests && ss[5].now == s.now && ss[5].nextId == s.nextId + 1
  {
    var s1 := Go(s, p, NoLease);
    var r := Request(p, Create, None, Created(p, s.durations[p], s.now), s.now);
    var tt, fs := Win(s1, p, r);
    ss, es := [s, s1, tt[0]], [Get(p), Send(p)];
    assert Step(s, es[0], s1) && Step(s1, es[1], tt[0]);
    assert Paths.Path(ss, es, Step);
    Paths.Joined(ss, es, tt, fs, Step);
    ss, es := ss + tt[1..], es + fs;
  }

  /** A standby that finds the Lease vacant or expired takes it at once, whatever the old leader does. */
  lemma Takeover(s: Sys, q: string) returns (ss: seq<Sys>, es: seq<Event>)
    requires q in s.procs && q in s.durations && s.procs[q].Standby? && s.nextId !in s.requests
    requires s.stored.Some? && !HeldBy(s.stored.value.lease, q)
    requires IsVacant(s.stored.value.lease) || IsExpired(s.stored.value.lease, s.durations[q], s.now)
    ensures Paths.Path(ss, es, Step) && |es| == 6 && ss[0] == s
    ensures ss[6].procs == s.procs[q := Leading(true, RIdle)] && ss[6].now == s.now
    ensures ss[6].last == s.last[q := Claimed(s.stored.value.lease, q, s.durations[q], s.now)]
  {
    hide IsExpired;
    var snap := s.stored.value;
    var s1 := Go(s, q, Read(snap));
    var s2 := Go(s1, q, Cleared(snap, s.now));
    var r := Request(q, Claim(s.now), Some(snap), Claimed(snap.lease, q, s.durations[q], s.now), s.now);
    var tt, fs := Win(s2, q, r);
    ss, es := [s, s1, s2, tt[0]], [Get(q), Decide(q), Send(q)];
    assert Step(s, es[0], s1) && Step(s1, es[1], s2) && Step(s2, es[2], tt[0]);
    assert Paths.Path(ss, es, Step);
    Paths.Joined(ss, es, tt, fs, Step);
    ss, es := ss + tt[1..], es + fs;
  }

  /**
   Exclusion needs leaders that keep renewing.  In every reachable state, a
   leader that runs controllers past the duration of its stored renewal can be
   overtaken at once by any standby, and then both run controllers.
   */
  lemma ExpiredLeaderIsOvertaken(s: Sys, p: string, q: string) returns (ss: seq<Sys>, es: seq<Event>)
    requires Inv(s) && RunsControllers(s, p) && !Current(s, p)
    requires s.stored.Some? && HeldBy(s.stored.value.lease, p) && q in s.procs && q != p && s.procs[q].Standby?
    ensures Paths.Path(ss, es, Step) && |es| == 6 && ss[0] == s && RunsControllers(ss[6], p) && RunsControllers(ss[6], q)
  {
    hide Step, RequestInv, PcInv;
    assert s.stored.value.lease == s.last[p] && LastInv(s, p);
    ss, es := Takeover(s, q);
  }

  /** A released Lease is taken at once by any standby. */
  lemma ReleaseHandsOver(s: Sys, q: string) returns (ss: seq<Sys>, es: seq<Event>)
    requires Inv(s) && s.stored.Some? && s.stored.value.lease.holder.None? && q in s.procs && s.procs[q].Standby?
    ensures Paths.Path(ss, es, Step) && |es| == 6 && ss[0] == s && RunsControllers(ss[6], q)
  {
    hide Step, RequestInv, PcInv, LastInv;
    ss, es := Takeover(s, q);
  }

  /** A run in which this happens, from every start without a Lease. */
  lemma OverlapWithoutRenewal(s: Sys, p: string, q: string) returns (ss: seq<Sys>, es: seq<Event>)
    requires Init(s) && s.stored.None? && p in s.procs && q in s.procs && p != q && s.durations[p] >= 0 && s.durations[q] >= 0
    ensures Run(ss, es) && ss[0] == s && RunsControllers(ss[|es|], p) && RunsControllers(ss[|es|], q)
    ensures !Current(ss[|es|], p) && Current(ss[|es|], q)
  {
    hide Step;
    ss, es := FirstLeader(s, p);
    var d := s.durations[p];
    var late := ss[5].(now := s.now + (d + 1) * MICROS);
    Waits(ss[5], late);
    Paths.Extended(ss, es, Tick(late.now), late, Step);
    ss, es := ss + [late], es + [Tick(late.now)];
    assert IsExpired(Created(p, d, s.now), 0, late.now);
    assert IsExpired(Created(p, d, s.now), s.durations[q], late.now);
    var tt, fs := Takeover(late, q);
    Paths.Joined(ss, es, tt, fs, Step);
    ss, es := ss + tt[1..], es + fs;
  }

  lemma Waits(s: Sys, s': Sys)
    requires s' == s.(now := s'.now) && s.now <= s'.now
    ensures Step(s, Tick(s'.now), s')
  {
  }
}
