/**
 Finalisation of `metadata.version` over whole runs: spec edits, pools that
 roll at their own pace, and reconcile passes that may lose the broker's reply
 or stop before the status is written.
 */
module MetadataVersion {
  import opened Options
  import opened KafkaVersion
  import Convergence
  import Listings

  datatype UpgradeType = Upgrade | SafeDowngrade

  datatype Request = Request(level: int, upgrade: UpgradeType)

  /** How UpdateFeatures ended; a lost reply is an error although the brokers applied the change. */
  datatype Reply = NoConnection | Rejected | LostReply | Acknowledged

  /** What one pass decides: the request it sends and the version it wants in the status. */
  datatype Decision = Decision(sent: Option<Request>, version: Option<string>)

  function Decide(resolved: Option<string>, finalized: Option<string>, rolled: bool, levels: Levels, reply: Reply): (d: Decision)
  {
    if resolved.None? then Decision(None, None)
    else if finalized.None? then Decision(None, if rolled then resolved else None)
    else
      var target, current := levels.of(resolved.value), levels.of(finalized.value);
      if target.None? || current.None? then Decision(None, None)
      else if target == current then Decision(None, resolved)
      else if !rolled then Decision(None, finalized)
      else if reply.NoConnection? then Decision(None, None)
      else
        var request := Request(target.value, if target.value < current.value then SafeDowngrade else Upgrade);
        Decision(Some(request), if reply.Acknowledged? then resolved else None)
  }

  function Resolved(kafkaVersion: string, pin: Option<string>, finalized: Option<string>, levels: Levels): (r: Option<string>)
  {
    var outcome := Evaluate(kafkaVersion, pin, finalized, levels);
    if outcome.Valid? then Some(outcome.resolved) else None
  }

  /** The brokers' level after the request. */
  function Applied(feature: int, sent: Option<Request>, reply: Reply): (f: int)
  {
    if sent.Some? && (reply.Acknowledged? || reply.LostReply?) then sent.value.level else feature
  }

  function Written(d: Decision, finalized: Option<string>, crash: bool): (s: Option<string>)
  {
    if crash || d.version.None? then finalized else d.version
  }

  /** The stored status and the brokers' finalized level, which one pass changes in this order. */
  class Finalizer {
    var status: Option<string>
    var feature: int

    constructor (feature: int)
      ensures this.status == None && this.feature == feature
    {
      this.status, this.feature := None, feature;
    }

    method Reconcile(kafkaVersion: string, pin: Option<string>, rolled: bool, levels: Levels, reply: Reply, crash: bool)
      returns (sent: Option<Request>)
      modifies this
      ensures var d := Decide(Resolved(kafkaVersion, pin, old(status), levels), old(status), rolled, levels, reply);
        && sent == d.sent
        && feature == Applied(old(feature), d.sent, reply)
        && status == Written(d, old(status), crash)
    {
      var resolved := Resolved(kafkaVersion, pin, status, levels);
      var version: Option<string> := None;
      sent := None;
      if resolved.Some? {
        if status.None? {
          if rolled { version := resolved; }
        } else {
          var target, current := levels.of(resolved.value), levels.of(status.value);
          if target.Some? && current.Some? {
            if target == current {
              version := resolved;
            } else if !rolled {
              version := status;
            } else if !reply.NoConnection? {
              sent := Some(Request(target.value, if target.value < current.value then SafeDowngrade else Upgrade));
              if reply.Acknowledged? || reply.LostReply? {
                feature := target.value;
              }
              if reply.Acknowledged? {
                version := resolved;
              }
            }
          }
        }
      }
      if crash { return; }
      if version.Some? {
        status := version;
      }
    }
  }

  // ---------------------------------------------------------------------- runs

  /** A pool: its template's version, what its set may still start, and what its pods run. */
  datatype Pool = Pool(template: string, startable: set<string>, pods: seq<Option<string>>)

  datatype Cluster = Cluster(kafkaVersion: string, pin: Option<string>, status: Option<string>, feature: int, pools: seq<Pool>)

  datatype Event =
    | Edit(kafkaVersion: string, pin: Option<string>)
    | Sync(pool: nat)                       // the pool's template takes the declared version
    | Start(pool: nat, pod: nat, v: string)
    | Stop(pool: nat, pod: nat)
    | Settle(pool: nat)                     // all pods run the template, and older revisions go
    | Pass(pools: seq<Convergence.NodePool<string>>, sets: seq<Convergence.StatefulSet<string>>, reply: Reply, crash: bool)

  /** The pool runs this binary or may start it. */
  predicate CanRun(p: Pool, v: string)
  {
    v in p.startable || Some(v) in p.pods
  }

  predicate AllOn(pods: seq<Option<string>>, v: string)
  {
    forall k :: 0 <= k < |pods| ==> pods[k] == Some(v)
  }

  /** Every pod runs the declared version, and no other one can be started. */
  ghost predicate AllRolled(c: Cluster)
  {
    && c.pools != []
    && forall i :: 0 <= i < |c.pools| ==>
         && c.pools[i].template == c.kafkaVersion && c.pools[i].startable == {c.kafkaVersion}
         && AllOn(c.pools[i].pods, c.kafkaVersion)
  }

  // ------------------------------------------------------------------- listings

  function CountRunning(pods: seq<Option<string>>): (n: nat)
    ensures n <= |pods|
    ensures n == |pods| ==> forall k :: 0 <= k < |pods| ==> pods[k].Some?
  {
    if pods == [] then 0
    else CountRunning(pods[..|pods| - 1]) + if pods[|pods| - 1].Some? then 1 else 0
  }

  /** The number of pods that run another version. */
  function CountOther(pods: seq<Option<string>>, v: string): (n: nat)
    ensures n == 0 ==> forall k :: 0 <= k < |pods| && pods[k].Some? ==> pods[k] == Some(v)
  {
    if pods == [] then 0
    else CountOther(pods[..|pods| - 1], v) + if pods[|pods| - 1].Some? && pods[|pods| - 1] != Some(v) then 1 else 0
  }

  lemma {:induction false} CountsOfAllOn(pods: seq<Option<string>>, v: string)
    requires AllOn(pods, v)
    ensures CountRunning(pods) == |pods| && CountOther(pods, v) == 0
  {
    if pods != [] {
      CountsOfAllOn(pods[..|pods| - 1], v);
    }
  }

  function RealityOf(p: Pool): (r: Convergence.Reality)
  {
    Convergence.Reality(|p.pods|, CountRunning(p.pods), CountOther(p.pods, p.template), p.startable == {p.template})
  }

  /**
   What the API server lists: each pool with its number of pods, and StatefulSet
   objects that carry the version of their template and are truthful.
   */
  ghost predicate Lists(c: Cluster, pools: seq<Convergence.NodePool<string>>, sets: seq<Convergence.StatefulSet<string>>)
  {
    && |pools| == |c.pools|
    && (forall i :: 0 <= i < |pools| ==> pools[i].replicas == |c.pools[i].pods|)
    && forall i, j :: 0 <= i < |pools| && 0 <= j < |sets| && Convergence.Owned(pools[i], sets[j]) ==>
         && (sets[j].version.Some? ==> c.pools[i].template == sets[j].version.value)
         && Convergence.Truthful(sets[j], RealityOf(c.pools[i]))
  }

  /** The gate is positive only when every pool runs the declared version and nothing else. */
  lemma GateMeansRolled(c: Cluster, pools: seq<Convergence.NodePool<string>>, sets: seq<Convergence.StatefulSet<string>>)
    requires Lists(c, pools, sets) && Convergence.RolledToVersion(pools, sets, c.kafkaVersion)
    ensures AllRolled(c)
  {
    forall i | 0 <= i < |c.pools|
      ensures
        && c.pools[i].template == c.kafkaVersion && c.pools[i].startable == {c.kafkaVersion}
        && AllOn(c.pools[i].pods, c.kafkaVersion)
    {
      assert Convergence.HasRolledSet(pools[i], sets);
      var j :| 0 <= j < |sets| && sets[j].name == Convergence.SetName(pools[i]) && Convergence.FullyRolled(pools[i], sets[j]);
      Convergence.RolledIsOwned(pools[i], sets[j]);
      Convergence.RolledReality(pools[i], sets[j], RealityOf(c.pools[i]));
    }
  }

  /** And a rolled cluster has a listing on which it is. */
  lemma RolledIsListed(c: Cluster)
    returns (pools: seq<Convergence.NodePool<string>>, sets: seq<Convergence.StatefulSet<string>>)
    requires AllRolled(c)
    ensures Lists(c, pools, sets) && Convergence.RolledToVersion(pools, sets, c.kafkaVersion)
  {
    var v := c.kafkaVersion;
    var counts := seq(|c.pools|, i requires 0 <= i < |c.pools| => |c.pools[i].pods|);
    pools, sets := Listings.Pools("h", counts), Listings.Sets("h", v, counts);
    forall i, j | 0 <= i < |pools| && 0 <= j < |sets| && Convergence.Owned(pools[i], sets[j])
      ensures c.pools[i].template == v && sets[j].version == Some(v) && Convergence.Truthful(sets[j], RealityOf(c.pools[i]))
    {
      Listings.OwnedSame("h", v, counts, i, j);
      CountsOfAllOn(c.pools[i].pods, v);
    }
    Listings.ListingConverges("h", v, counts);
  }

  ghost function DecisionOf(c: Cluster, e: Event, levels: Levels): (d: Decision)
    requires e.Pass?
  {
    Decide(Resolved(c.kafkaVersion, c.pin, c.status, levels), c.status,
           Convergence.RolledToVersion(e.pools, e.sets, c.kafkaVersion), levels, e.reply)
  }

  ghost predicate Step(c: Cluster, e: Event, c': Cluster, levels: Levels)
  {
    match e
    case Edit(kafkaVersion, pin) => c' == c.(kafkaVersion := kafkaVersion, pin := pin)
    case Sync(i) =>
      && i < |c.pools|
      && c' == c.(pools := c.pools[i := c.pools[i].(template := c.kafkaVersion, startable := c.pools[i].startable + {c.kafkaVersion})])
    case Start(i, k, v) =>
      && i < |c.pools| && k < |c.pools[i].pods| && v in c.pools[i].startable
      && c' == c.(pools := c.pools[i := c.pools[i].(pods := c.pools[i].pods[k := Some(v)])])
    case Stop(i, k) =>
      && i < |c.pools| && k < |c.pools[i].pods|
      && c' == c.(pools := c.pools[i := c.pools[i].(pods := c.pools[i].pods[k := None])])
    case Settle(i) =>
      && i < |c.pools| && AllOn(c.pools[i].pods, c.pools[i].template)
      && c' == c.(pools := c.pools[i := c.pools[i].(startable := {c.pools[i].template})])
    case Pass(pools, sets, reply, crash) =>
      && Lists(c, pools, sets)
      && var d := DecisionOf(c, e, levels);
      c' == c.(status := Written(d, c.status, crash), feature := Applied(c.feature, d.sent, reply))
  }

  ghost predicate Run(cs: seq<Cluster>, es: seq<Event>, levels: Levels)
  {
    |cs| == |es| + 1 && forall i :: 0 <= i < |es| ==> Step(cs[i], es[i], cs[i + 1], levels)
  }

  /** `supports(v)` is the highest level the binary of version `v` can run. */
  ghost predicate Sound(levels: Levels, supports: string -> int)
  {
    forall binary: string, v: Version ::
      Parse(binary).Some? && !KeyLess(Parse(binary).value, v) && levels.of(Short(v)).Some?
      ==> levels.of(Short(v)).value <= supports(binary)
  }

  /** Newer keys never have lower levels. */
  ghost predicate Monotone(levels: Levels)
  {
    forall a: Version, b: Version ::
      levels.of(Short(a)).Some? && levels.of(Short(b)).Some? && !KeyLess(b, a)
      ==> levels.of(Short(a)).value <= levels.of(Short(b)).value
  }

  // ----------------------------------------------------------------- invariants

  /** A level that every binary in the cluster, and every one still to come, can run. */
  ghost predicate Runnable(level: int, c: Cluster, supports: string -> int)
  {
    && level <= supports(c.kafkaVersion)
    && (forall i :: 0 <= i < |c.pools| ==> level <= supports(c.pools[i].template))
    && (forall i, b :: 0 <= i < |c.pools| && CanRun(c.pools[i], b) ==> level <= supports(b))
  }

  /** The stored version is canonical and has a supported level. */
  ghost predicate Canonical(status: Option<string>, levels: Levels)
  {
    status.Some? ==>
      && (exists v :: Names(status.value, v))
      && levels.of(status.value).Some? && levels.of(status.value).value >= levels.min
  }

  ghost predicate Inv(c: Cluster, levels: Levels, supports: string -> int)
  {
    && Canonical(c.status, levels)
    && Runnable(c.feature, c, supports)
    && (c.status.Some? ==> Runnable(levels.of(c.status.value).value, c, supports))
  }

  ghost predicate Init(c: Cluster, supports: string -> int)
  {
    c.status == None && Runnable(c.feature, c, supports)
  }

  lemma RolledRunnable(level: int, c: Cluster, supports: string -> int)
    requires AllRolled(c) && level <= supports(c.kafkaVersion)
    ensures Runnable(level, c, supports)
  {
    forall i, b | 0 <= i < |c.pools| && CanRun(c.pools[i], b) ensures level <= supports(b) {
      assert b == c.kafkaVersion;
    }
  }

  /** A resolved version is canonical and has a supported level. */
  lemma ResolvedIsCanonical(c: Cluster, levels: Levels)
    ensures Canonical(Resolved(c.kafkaVersion, c.pin, c.status, levels), levels)
  {
    hide Parse, Short, Evaluate;
    if Resolved(c.kafkaVersion, c.pin, c.status, levels).Some? {
      var v := ValidMeans(c.kafkaVersion, c.pin, c.status, levels);
    }
  }

  /** The declared binary supports the level of the resolved version. */
  lemma ResolvedIsSupported(c: Cluster, levels: Levels, supports: string -> int)
    requires Sound(levels, supports)
    ensures var r := Resolved(c.kafkaVersion, c.pin, c.status, levels);
      Canonical(r, levels) && (r.Some? ==> levels.of(r.value).value <= supports(c.kafkaVersion))
  {
    hide Parse, Short, Evaluate;
    if Resolved(c.kafkaVersion, c.pin, c.status, levels).Some? {
      var v := ValidMeans(c.kafkaVersion, c.pin, c.status, levels);
    }
  }

  /** A pass asks for the resolved level only when the gate is open, and records it only then or when it is the recorded one. */
  lemma DecisionLevels(resolved: Option<string>, finalized: Option<string>, rolled: bool, levels: Levels, reply: Reply)
    ensures var d := Decide(resolved, finalized, rolled, levels, reply);
      && (d.sent.Some? ==> rolled && LevelOf(resolved, levels) == Some(d.sent.value.level))
      && (d.version in {None, finalized}
          || (d.version == resolved && (rolled || LevelOf(resolved, levels) == LevelOf(finalized, levels))))
  {
  }

  lemma PassKeeps(c: Cluster, e: Event, c': Cluster, levels: Levels, supports: string -> int)
    requires Inv(c, levels, supports) && Step(c, e, c', levels) && e.Pass?
    requires LevelOf(Resolved(c.kafkaVersion, c.pin, c.status, levels), levels).Some? ==>
      LevelOf(Resolved(c.kafkaVersion, c.pin, c.status, levels), levels).value <= supports(c.kafkaVersion)
    ensures Inv(c', levels, supports)
  {
    hide Resolved, Convergence.RolledToVersion, Lists, Decide;
    ResolvedIsCanonical(c, levels);
    var r := Resolved(c.kafkaVersion, c.pin, c.status, levels);
    var rolled := Convergence.RolledToVersion(e.pools, e.sets, c.kafkaVersion);
    DecisionLevels(r, c.status, rolled, levels, e.reply);
    if rolled && r.Some? {
      GateMeansRolled(c, e.pools, e.sets);
      RolledRunnable(levels.of(r.value).value, c, supports);
    }
    assert c'.kafkaVersion == c.kafkaVersion && c'.pools == c.pools;
  }

  lemma MoveKeeps(level: int, c: Cluster, e: Event, c': Cluster, levels: Levels, supports: string -> int)
    requires Step(c, e, c', levels) && !e.Pass? && Runnable(level, c, supports)
    requires e.Edit? ==> level <= supports(e.kafkaVersion)
    ensures Runnable(level, c', supports)
  {
  }

  /** A version that can run every level finalized or recorded so far. */
  ghost predicate Declarable(c: Cluster, version: string, levels: Levels, supports: string -> int)
  {
    && c.feature <= supports(version)
    && (c.status.Some? && levels.of(c.status.value).Some? ==> levels.of(c.status.value).value <= supports(version))
  }

  lemma StepKeeps(c: Cluster, e: Event, c': Cluster, levels: Levels, supports: string -> int)
    requires Inv(c, levels, supports) && Sound(levels, supports) && Step(c, e, c', levels)
    requires e.Edit? ==> Declarable(c, e.kafkaVersion, levels, supports)
    ensures Inv(c', levels, supports)
  {
    if e.Pass? {
      ResolvedIsSupported(c, levels, supports);
      PassKeeps(c, e, c', levels, supports);
    } else {
      MoveKeeps(c.feature, c, e, c', levels, supports);
      if c.status.Some? {
        MoveKeeps(levels.of(c.status.value).value, c, e, c', levels, supports);
      }
    }
  }

  /** Every edit before step `n` declares a version that can run what is finalized and recorded. */
  ghost predicate AllDeclarable(cs: seq<Cluster>, es: seq<Event>, n: nat, levels: Levels, supports: string -> int)
    requires |cs| == |es| + 1 && n <= |es|
  {
    forall k :: 0 <= k < n && es[k].Edit? ==> Declarable(cs[k], es[k].kafkaVersion, levels, supports)
  }

  /**
   As long as every edit declares a version that can run them, the brokers'
   finalized level and the level recorded in the status are supported by every
   binary any pool runs or may start, through lost replies and stopped passes.
   */
  lemma {:induction false} NeverAboveAnyBinary(cs: seq<Cluster>, es: seq<Event>, levels: Levels, supports: string -> int, k: nat)
    requires Run(cs, es, levels) && Init(cs[0], supports) && Sound(levels, supports)
    requires k < |cs| && AllDeclarable(cs, es, k, levels, supports)
    ensures Inv(cs[k], levels, supports)
  {
    if k > 0 {
      NeverAboveAnyBinary(cs, es, levels, supports, k - 1);
      StepKeeps(cs[k - 1], es[k - 1], cs[k], levels, supports);
    }
  }

  /** Newer binaries never support less. */
  ghost predicate Growing(supports: string -> int)
  {
    forall a: string, b: string ::
      Parse(a).Some? && Parse(b).Some? && !KeyLess(Parse(b).value, Parse(a).value) ==> supports(a) <= supports(b)
  }

  /** Every edit declares a version whose key is not lower than the one before. */
  ghost predicate NonDecreasing(cs: seq<Cluster>, es: seq<Event>)
    requires |cs| == |es| + 1
  {
    forall k :: 0 <= k < |es| && es[k].Edit? ==>
      && Parse(cs[k].kafkaVersion).Some? && Parse(es[k].kafkaVersion).Some?
      && !KeyLess(Parse(es[k].kafkaVersion).value, Parse(cs[k].kafkaVersion).value)
  }

  /** In particular, with non-decreasing versions no level ever exceeds what a binary supports. */
  lemma {:induction false} NonDecreasingIsSafe(cs: seq<Cluster>, es: seq<Event>, levels: Levels, supports: string -> int, k: nat)
    requires Run(cs, es, levels) && Init(cs[0], supports) && Sound(levels, supports)
    requires Growing(supports) && NonDecreasing(cs, es) && k < |cs|
    ensures Inv(cs[k], levels, supports)
  {
    hide Step, Parse, Sound;
    if k > 0 {
      NonDecreasingIsSafe(cs, es, levels, supports, k - 1);
      StepKeeps(cs[k - 1], es[k - 1], cs[k], levels, supports);
    }
  }

  /** And that condition on the edits is exact: the bound holds throughout a run if and only if it does. */
  lemma BoundHoldsIff(cs: seq<Cluster>, es: seq<Event>, levels: Levels, supports: string -> int)
    requires Run(cs, es, levels) && Init(cs[0], supports) && Sound(levels, supports)
    ensures (forall k :: 0 <= k < |cs| ==> Inv(cs[k], levels, supports)) <==> AllDeclarable(cs, es, |es|, levels, supports)
  {
    if AllDeclarable(cs, es, |es|, levels, supports) {
      forall k | 0 <= k < |cs| ensures Inv(cs[k], levels, supports) {
        NeverAboveAnyBinary(cs, es, levels, supports, k);
      }
    }
    if forall k :: 0 <= k < |cs| ==> Inv(cs[k], levels, supports) {
      forall k | 0 <= k < |es| && es[k].Edit? ensures Declarable(cs[k], es[k].kafkaVersion, levels, supports) {
        assert Step(cs[k], es[k], cs[k + 1], levels);
        assert Inv(cs[k + 1], levels, supports);
      }
    }
  }

  // ------------------------------------------------------------- what may change

  function LevelOf(status: Option<string>, levels: Levels): (l: Option<int>)
  {
    if status.None? then None else levels.of(status.value)
  }

  lemma StepCanonical(c: Cluster, e: Event, c': Cluster, levels: Levels)
    requires Canonical(c.status, levels) && Step(c, e, c', levels)
    ensures Canonical(c'.status, levels)
  {
    hide Resolved, Decide, Lists, Canonical, Convergence.RolledToVersion;
    if e.Pass? {
      var r := Resolved(c.kafkaVersion, c.pin, c.status, levels);
      ResolvedIsCanonical(c, levels);
      DecisionLevels(r, c.status, Convergence.RolledToVersion(e.pools, e.sets, c.kafkaVersion), levels, e.reply);
    }
  }

  /** The status of every run holds canonical, supported versions only. */
  lemma {:induction false} StatusIsCanonical(cs: seq<Cluster>, es: seq<Event>, levels: Levels, k: nat)
    requires Run(cs, es, levels) && cs[0].status == None && k < |cs|
    ensures Canonical(cs[k].status, levels)
  {
    hide Step;
    if k > 0 {
      StatusIsCanonical(cs, es, levels, k - 1);
      StepCanonical(cs[k - 1], es[k - 1], cs[k], levels);
    }
  }

  /**
   In every run the recorded level changes only in a pass that saw every pool
   rolled, and then either from unset or after an acknowledged UpdateFeatures;
   the brokers' level changes only by a request sent with every pool rolled.  A
   downgrade is asked for only at or above the online floor.
   */
  lemma OnlyWhenRolled(cs: seq<Cluster>, es: seq<Event>, levels: Levels, k: nat)
    requires Run(cs, es, levels) && cs[0].status == None && Monotone(levels) && k < |es|
    ensures LevelOf(cs[k].status, levels) != LevelOf(cs[k + 1].status, levels) ==>
      es[k].Pass? && AllRolled(cs[k])
      && (cs[k].status.None? || (es[k].reply.Acknowledged? && DecisionOf(cs[k], es[k], levels).sent
                                == Some(Request(LevelOf(cs[k + 1].status, levels).value,
                                                if LevelOf(cs[k + 1].status, levels).value < LevelOf(cs[k].status, levels).value
                                                then SafeDowngrade else Upgrade))))
    ensures cs[k].feature != cs[k + 1].feature ==>
      es[k].Pass? && AllRolled(cs[k]) && DecisionOf(cs[k], es[k], levels).sent.Some?
      && cs[k + 1].feature == DecisionOf(cs[k], es[k], levels).sent.value.level
    ensures es[k].Pass? && DecisionOf(cs[k], es[k], levels).sent.Some? ==>
      var request := DecisionOf(cs[k], es[k], levels).sent.value;
      request.level >= levels.min && (request.upgrade.SafeDowngrade? ==> request.level >= levels.downgradeMin)
  {
    hide Resolved, Convergence.RolledToVersion, Lists;
    var c := cs[k];
    StatusIsCanonical(cs, es, levels, k);
    StatusIsCanonical(cs, es, levels, k + 1);
    assert Step(c, es[k], cs[k + 1], levels);
    ResolvedIsCanonical(c, levels);
    if es[k].Pass? && Convergence.RolledToVersion(es[k].pools, es[k].sets, c.kafkaVersion) {
      GateMeansRolled(c, es[k].pools, es[k].sets);
    }
    if es[k].Pass? && DecisionOf(c, es[k], levels).sent.Some? {
      var v, w := DowngradeFloor(c, levels);
      assert levels.of(Short(v)).value < levels.of(Short(w)).value ==> KeyLess(v, w);
    }
  }

  /** The versions behind a resolved and a stored text; a resolved one with a lower key is at or above the floor. */
  lemma DowngradeFloor(c: Cluster, levels: Levels) returns (v: Version, w: Version)
    requires Canonical(c.status, levels) && c.status.Some?
    requires Resolved(c.kafkaVersion, c.pin, c.status, levels).Some?
    ensures var r := Resolved(c.kafkaVersion, c.pin, c.status, levels).value;
      && r == Short(v) && c.status.value == Short(w) && levels.of(r).Some?
      && (KeyLess(v, w) ==> levels.of(r).value >= levels.downgradeMin)
  {
    hide Parse, Short, Evaluate;
    v := ValidMeans(c.kafkaVersion, c.pin, c.status, levels);
    w :| Names(c.status.value, w);
    ParseShort(w);
  }

  /** Lowering the declared version below a recorded level breaks the bound, from every cluster with a pool. */
  lemma DecreaseBreaks(c: Cluster, levels: Levels, supports: string -> int, older: string) returns (cs: seq<Cluster>, es: seq<Event>)
    requires Inv(c, levels, supports) && c.pools != []
    requires supports(older) < c.feature || (c.status.Some? && supports(older) < levels.of(c.status.value).value)
    ensures Run(cs, es, levels) && cs[0] == c && |es| == 2
    ensures cs[2].feature == c.feature && cs[2].status == c.status
    ensures cs[2].pools != [] && CanRun(cs[2].pools[0], older) && !Inv(cs[2], levels, supports)
  {
    var edited := c.(kafkaVersion := older);
    var first := edited.pools[0];
    var synced := edited.(pools := edited.pools[0 := first.(template := older, startable := first.startable + {older})]);
    cs, es := [c, edited, synced], [Edit(older, c.pin), Sync(0)];
    assert Step(c, es[0], edited, levels) && Step(edited, es[1], synced, levels);
  }

  // ------------------------------------------------------------------- progress

  /**
   One undisturbed pass finalises: with the gate open, a valid resolved version
   and an acknowledging broker, the status records that version; from another
   recorded level the request for the resolved one is sent, as an upgrade or a
   safe downgrade, and the brokers are on it afterwards.
   */
  lemma FinalisesInOnePass(c: Cluster, e: Event, c': Cluster, levels: Levels)
    requires Step(c, e, c', levels) && e.Pass? && e.reply.Acknowledged? && !e.crash
    requires Convergence.RolledToVersion(e.pools, e.sets, c.kafkaVersion)
    requires Evaluate(c.kafkaVersion, c.pin, c.status, levels).Valid?
    requires c.status.Some? ==> levels.of(c.status.value).Some?
    ensures
      var r := Evaluate(c.kafkaVersion, c.pin, c.status, levels).resolved;
      && c'.status == Some(r) && levels.of(r).Some?
      && (c.status.Some? && levels.of(c.status.value) != levels.of(r) ==>
            && c'.feature == levels.of(r).value
            && DecisionOf(c, e, levels).sent == Some(Request(levels.of(r).value,
                 if levels.of(r).value < levels.of(c.status.value).value then SafeDowngrade else Upgrade)))
      && (c.status.None? || levels.of(c.status.value) == levels.of(r) ==>
            c'.feature == c.feature && DecisionOf(c, e, levels).sent.None?)
  {
    hide Evaluate, Lists, Convergence.RolledToVersion, Parse, Short;
    var v := ValidMeans(c.kafkaVersion, c.pin, c.status, levels);
  }

  /** So a rolled cluster with a valid version and an acknowledging broker is on it after one pass. */
  lemma RolledReachesResolved(c: Cluster, levels: Levels) returns (e: Event, c': Cluster)
    requires AllRolled(c) && Canonical(c.status, levels) && Evaluate(c.kafkaVersion, c.pin, c.status, levels).Valid?
    ensures Step(c, e, c', levels) && e.Pass?
    ensures c'.status == Some(Evaluate(c.kafkaVersion, c.pin, c.status, levels).resolved)
    ensures c.status.Some? && levels.of(c.status.value) != levels.of(c'.status.value) ==>
      Some(c'.feature) == levels.of(c'.status.value)
  {
    hide Evaluate, Lists, Convergence.RolledToVersion, AllRolled;
    var pools, sets := RolledIsListed(c);
    e := Pass(pools, sets, Acknowledged, false);
    var d := DecisionOf(c, e, levels);
    c' := c.(status := Written(d, c.status, false), feature := Applied(c.feature, d.sent, Acknowledged));
    FinalisesInOnePass(c, e, c', levels);
  }

  /** While a pool is not rolled, a recorded version stays, and so does the brokers' level. */
  lemma WaitsForTheRoll(c: Cluster, e: Event, c': Cluster, levels: Levels)
    requires Step(c, e, c', levels) && e.Pass? && !Convergence.RolledToVersion(e.pools, e.sets, c.kafkaVersion)
    ensures c'.feature == c.feature && LevelOf(c'.status, levels) == LevelOf(c.status, levels)
  {
    hide Evaluate, Lists, Convergence.RolledToVersion;
  }
}
