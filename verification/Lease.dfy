/** The leader-election Lease: claims, renewals, releases and the expiry check. */
module Lease {
  import opened Options

  const MICROS := 1_000_000
  const I32_MAX := 0x7FFF_FFFF

  /** Times are microseconds of the common clock, durations whole seconds. */
  datatype Lease = Lease(
    holder: Option<string>,
    duration: Option<int>,
    acquireTime: Option<nat>,
    renewTime: Option<nat>,
    transitions: Option<int>)

  predicate HeldBy(l: Lease, identity: string)
  {
    l.holder == Some(identity)
  }

  predicate IsVacant(l: Lease)
  {
    l.holder.None? || l.holder.value == ""
  }

  /** Compares whole seconds, as the API timestamps are truncated. */
  predicate IsExpired(l: Lease, fallback: int, now: nat)
  {
    l.renewTime.None? ||
    now / MICROS - l.renewTime.value / MICROS > (if l.duration.Some? then l.duration.value else fallback)
  }

  predicate IsClaimable(l: Lease, fallback: int, now: nat)
  {
    IsVacant(l) || IsExpired(l, fallback, now)
  }

  function SaturatingSucc(x: int): (r: int)
  {
    if x >= I32_MAX then I32_MAX else x + 1
  }

  function Claimed(l: Lease, identity: string, duration: int, now: nat): (r: Lease)
  {
    var changed := l.holder != Some(identity);
    Lease(Some(identity), Some(duration), Some(now), Some(now),
          if changed then Some(SaturatingSucc(if l.transitions.Some? then l.transitions.value else 0)) else l.transitions)
  }

  function Created(identity: string, duration: int, now: nat): (r: Lease)
  {
    Lease(Some(identity), Some(duration), Some(now), Some(now), Some(1))
  }

  function Renewed(l: Lease, duration: int, now: nat): (r: Lease)
  {
    l.(duration := Some(duration), renewTime := Some(now))
  }

  /** The Lease to write back on release; the transition count stays for the next holder to advance. */
  function Released(l: Lease, identity: string, now: nat): (r: Option<Lease>)
    ensures r.Some? <==> HeldBy(l, identity)
    ensures r.Some? ==> IsVacant(r.value) && r.value.transitions == l.transitions
  {
    if !HeldBy(l, identity) then None
    else Some(l.(holder := None, duration := Some(1), acquireTime := Some(now), renewTime := Some(now)))
  }

  /** A claim starts a tenure, a renewal continues it. */
  lemma Tenure(l: Lease, identity: string, duration: int, now: nat)
    ensures Claimed(l, identity, duration, now).acquireTime == Created(identity, duration, now).acquireTime == Some(now)
    ensures Renewed(l, duration, now).acquireTime == l.acquireTime && Renewed(l, duration, now).holder == l.holder
  {
  }

  function EffectiveDuration(l: Lease, fallback: int): (d: int)
  {
    if l.duration.Some? then l.duration.value else fallback
  }

  /** A lease never expires early: a positive check means more than the duration really elapsed. */
  lemma ExpiryIsNeverEarly(l: Lease, fallback: int, now: nat)
    requires l.renewTime.Some? && IsExpired(l, fallback, now)
    ensures now - l.renewTime.value > EffectiveDuration(l, fallback) * MICROS
  {
    var r, d := l.renewTime.value, EffectiveDuration(l, fallback);
    assert now == MICROS * (now / MICROS) + now % MICROS;
    assert r == MICROS * (r / MICROS) + r % MICROS;
    assert MICROS * (now / MICROS) >= MICROS * (r / MICROS) + MICROS * (d + 1);
  }

  /** And it is late by less than one second. */
  lemma ExpiryIsLateByUnderOneSecond(l: Lease, fallback: int, now: nat)
    requires l.renewTime.Some? && now - l.renewTime.value >= (EffectiveDuration(l, fallback) + 1) * MICROS
    ensures IsExpired(l, fallback, now)
  {
    var r, d := l.renewTime.value, EffectiveDuration(l, fallback);
    assert now == MICROS * (now / MICROS) + now % MICROS;
    assert r == MICROS * (r / MICROS) + r % MICROS;
  }

  /** Even a reader that looked past the empty holder would find a released Lease expired two seconds later. */
  lemma ReleasedExpiresSoon(l: Lease, identity: string, now: nat, fallback: int)
    requires HeldBy(l, identity)
    ensures IsExpired(Released(l, identity, now).value, fallback, now + 2 * MICROS)
  {
    ExpiryIsLateByUnderOneSecond(Released(l, identity, now).value, fallback, now + 2 * MICROS);
  }

  /**
   A standby that looks at least every `step` sees the expiry less than one
   second and one step after the duration has passed.
   */
  lemma {:induction false} ExpiryIsSeenWithinOneStep(l: Lease, fallback: int, polls: seq<nat>, step: nat) returns (i: nat)
    requires l.renewTime.Some? && polls != []
    requires forall j :: 0 <= j < |polls| - 1 ==> polls[j + 1] <= polls[j] + step
    requires polls[0] < l.renewTime.value + (EffectiveDuration(l, fallback) + 1) * MICROS <= polls[|polls| - 1]
    ensures i < |polls| && IsExpired(l, fallback, polls[i])
    ensures polls[i] < l.renewTime.value + (EffectiveDuration(l, fallback) + 1) * MICROS + step
  {
    var last := |polls| - 1;
    if polls[last - 1] < l.renewTime.value + (EffectiveDuration(l, fallback) + 1) * MICROS {
      i := last;
      ExpiryIsLateByUnderOneSecond(l, fallback, polls[i]);
    } else {
      i := ExpiryIsSeenWithinOneStep(l, fallback, polls[..last], step);
    }
  }

  lemma ExpiryIsMonotone(l: Lease, fallback: int, now: nat, later: nat)
    requires IsExpired(l, fallback, now) && now <= later
    ensures IsExpired(l, fallback, later)
  {
    assert now / MICROS <= later / MICROS;
  }
}
