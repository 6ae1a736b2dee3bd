/** Listings of pools and sets on which the convergence check is positive. */
module Listings {
  import opened Options
  import opened Convergence
  import Decimal

  /** The object of pool `i`. */
  function PoolObject<H>(h: Label<H>, i: nat, replicas: nat): (p: NodePool<H>)
  {
    NodePool(Decimal.Print(i), h, Some("k"), replicas)
  }

  function SetNameOf(i: nat): (n: string)
  {
    "k-" + Decimal.Print(i)
  }

  /** A set that reports all its replicas updated and Ready. */
  function SetObject<H>(h: H, version: string, i: nat, replicas: nat): (s: StatefulSet<H>)
  {
    StatefulSet(
      SetNameOf(i), Some("k"), Some(APP_LABEL), Some(Decimal.Print(i)),
      Some(version), Some(1), Some(StsSpec(Some(replicas), Hash(h))),
      Some(StsStatus(Some(1), Some("r"), Some("r"), Some(replicas), Some(replicas))))
  }

  lemma SetNamesDiffer(i: nat, j: nat)
    requires SetNameOf(i) == SetNameOf(j)
    ensures i == j
  {
    assert SetNameOf(i)[2..] == Decimal.Print(i);
    assert SetNameOf(j)[2..] == Decimal.Print(j);
    Decimal.PrintValue(i);
    Decimal.PrintValue(j);
  }

  lemma NamedAfter<H>(h: Label<H>, i: nat, replicas: nat)
    ensures SetName(PoolObject(h, i, replicas)) == SetNameOf(i)
  {
    assert "k" + "-" == "k-";
  }

  function Pools<H>(h: H, counts: seq<nat>): (r: seq<NodePool<H>>)
  {
    seq(|counts|, i requires 0 <= i < |counts| => PoolObject(Hash(h), i, counts[i]))
  }

  function Sets<H>(h: H, version: string, counts: seq<nat>): (r: seq<StatefulSet<H>>)
  {
    seq(|counts|, i requires 0 <= i < |counts| => SetObject(h, version, i, counts[i]))
  }

  /** Each set belongs to its own pool only. */
  lemma OwnedSame<H>(h: H, version: string, counts: seq<nat>, i: nat, j: nat)
    requires i < |counts| && j < |counts| && Owned(Pools(h, counts)[i], Sets(h, version, counts)[j])
    ensures i == j
  {
    NamedAfter(Hash(h), i, counts[i]);
    SetNamesDiffer(i, j);
  }

  lemma ListingConverges<H>(h: H, version: string, counts: seq<nat>)
    ensures Converged(Pools(h, counts), Sets(h, version, counts))
    ensures counts != [] ==> RolledToVersion(Pools(h, counts), Sets(h, version, counts), version)
  {
    hide Decimal.Print, SetName;
    var pools, sets := Pools(h, counts), Sets(h, version, counts);
    forall i, j | 0 <= i < j < |sets| ensures sets[i].name != sets[j].name {
      if sets[i].name == sets[j].name {
        SetNamesDiffer(i, j);
      }
    }
    forall i | 0 <= i < |pools| ensures HasRolledSet(pools[i], sets) {
      NamedAfter(Hash(h), i, counts[i]);
      assert sets[i].name == SetName(pools[i]) && FullyRolled(pools[i], sets[i]);
    }
  }
}
