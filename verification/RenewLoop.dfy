/** The renewal loop's own deadline: how long a leader can run past its last stored renewal. */
module RenewLoop {
  import opened Options
  import opened Lease

  /** A failed attempt may have been applied all the same. */
  datatype Reply = Stored | Lost | Failed(applied: bool)

  /** One attempt: how long the read and the write took together, when the write was sent, and how they ended. */
  datatype Attempt = Attempt(took: nat, sentAfter: nat, reply: Reply)

  /** Where the loop stands after some attempts, and the Lease as it is then stored. */
  datatype Progress = Progress(now: nat, lastSuccess: nat, lease: Lease, leading: bool)

  function After(start: nat, lease: Lease, retry: nat, seconds: nat, attempts: seq<Attempt>): (p: Progress)
  {
    if attempts == [] then Progress(start, start, lease, true)
    else
      var n := |attempts| - 1;
      var p := After(start, lease, retry, seconds, attempts[..n]);
      if !p.leading then p
      else
        var now := p.now + retry + attempts[n].took;
        var renewed := Renewed(p.lease, seconds, p.now + retry + attempts[n].sentAfter);
        match attempts[n].reply
        case Stored => Progress(now, now, renewed, true)
        case Lost => Progress(now, p.lastSuccess, p.lease, false)
        case Failed(applied) =>
          Progress(now, p.lastSuccess, if applied then renewed else p.lease, now - p.lastSuccess < seconds * MICROS)
  }

  lemma {:induction false} StoppedStays(start: nat, lease: Lease, retry: nat, seconds: nat, attempts: seq<Attempt>, n: nat)
    requires n <= |attempts| && !After(start, lease, retry, seconds, attempts[..n]).leading
    ensures After(start, lease, retry, seconds, attempts) == After(start, lease, retry, seconds, attempts[..n])
    decreases |attempts| - n
  {
    if n == |attempts| {
      assert attempts[..n] == attempts;
    } else {
      assert attempts[..n + 1][..n] == attempts[..n];
      StoppedStays(start, lease, retry, seconds, attempts, n + 1);
    }
  }

  /** `renew_loop`, for as many attempts as it is observed. */
  method Renewals(start: nat, lease: Lease, retry: nat, seconds: nat, attempts: seq<Attempt>) returns (p: Progress)
    ensures p == After(start, lease, retry, seconds, attempts)
  {
    var now: nat, lastSuccess: nat, stored := start, start, lease;
    for i := 0 to |attempts|
      invariant After(start, lease, retry, seconds, attempts[..i]) == Progress(now, lastSuccess, stored, true)
    {
      assert attempts[..i + 1][..i] == attempts[..i];
      var a := attempts[i];
      now := now + retry;
      var renewed := Renewed(stored, seconds, now + a.sentAfter);
      now := now + a.took;
      match a.reply {
        case Stored => lastSuccess, stored := now, renewed;
        case Lost =>
          StoppedStays(start, lease, retry, seconds, attempts, i + 1);
          return Progress(now, lastSuccess, stored, false);
        case Failed(applied) =>
          if applied { stored := renewed; }
          if now - lastSuccess >= seconds * MICROS {
            StoppedStays(start, lease, retry, seconds, attempts, i + 1);
            return Progress(now, lastSuccess, stored, false);
          }
      }
    }
    assert attempts[..|attempts|] == attempts;
    p := Progress(now, lastSuccess, stored, true);
  }

  // --------------------------------------------------------------- when it stops

  /** The time after all the attempts. */
  function Clock(start: nat, retry: nat, attempts: seq<Attempt>): (t: nat)
  {
    if attempts == [] then start
    else Clock(start, retry, attempts[..|attempts| - 1]) + retry + attempts[|attempts| - 1].took
  }

  /** The end of the last stored attempt, or the start. */
  function LastStored(start: nat, retry: nat, attempts: seq<Attempt>): (t: nat)
  {
    if attempts == [] then start
    else if attempts[|attempts| - 1].reply.Stored? then Clock(start, retry, attempts)
    else LastStored(start, retry, attempts[..|attempts| - 1])
  }

  /** The attempt after `before` ends the leadership. */
  ghost predicate Ends(start: nat, retry: nat, seconds: nat, before: seq<Attempt>, a: Attempt)
  {
    || a.reply.Lost?
    || (a.reply.Failed?
        && Clock(start, retry, before) + retry + a.took - LastStored(start, retry, before) >= seconds * MICROS)
  }

  /**
   A leader leads on exactly until an attempt finds the Lease lost, or fails
   once the whole duration has passed since the last stored renewal; no other
   failure makes it give up.
   */
  lemma {:induction false} LeadsIff(start: nat, lease: Lease, retry: nat, seconds: nat, attempts: seq<Attempt>)
    ensures
      var p := After(start, lease, retry, seconds, attempts);
      && (p.leading <==> forall k :: 0 <= k < |attempts| ==> !Ends(start, retry, seconds, attempts[..k], attempts[k]))
      && (p.leading ==> p.now == Clock(start, retry, attempts) && p.lastSuccess == LastStored(start, retry, attempts))
  {
    if attempts != [] {
      var n := |attempts| - 1;
      var before := attempts[..n];
      LeadsIff(start, lease, retry, seconds, before);
      assert forall k :: 0 <= k < n ==> before[..k] == attempts[..k] && before[k] == attempts[k];
      if !After(start, lease, retry, seconds, before).leading {
        var k :| 0 <= k < n && Ends(start, retry, seconds, before[..k], before[k]);
        assert Ends(start, retry, seconds, attempts[..k], attempts[k]);
      }
    }
  }

  // ------------------------------------------------------------------- how late

  ghost predicate Bounded(attempts: seq<Attempt>, limit: nat)
  {
    forall i :: 0 <= i < |attempts| ==> attempts[i].sentAfter <= attempts[i].took <= limit
  }

  /** At every decision the leader gives up no later than one retry and one attempt after the deadline. */
  lemma {:induction false} GivesUpInTime(start: nat, lease: Lease, retry: nat, seconds: nat, attempts: seq<Attempt>, limit: nat)
    requires Bounded(attempts, limit)
    ensures
      var p := After(start, lease, retry, seconds, attempts);
      && start <= p.lastSuccess <= p.now <= p.lastSuccess + seconds * MICROS + retry + limit
      && (p.leading ==> p.now == p.lastSuccess || p.now < p.lastSuccess + seconds * MICROS)
  {
    if attempts != [] {
      GivesUpInTime(start, lease, retry, seconds, attempts[..|attempts| - 1], limit);
    }
  }

  /**
   How much older than the last success the stored renewal can be.  A renewal is
   stamped at some moment of its own attempt.  Before the first renewal the
   stored stamp is that of the claim: of the same attempt, or, when the claim's
   reply was lost and the next read confirmed the ownership, of an attempt
   before one retry and that read.
   */
  function StampLag(p: Progress, start: nat, retry: nat, limit: nat): (lag: nat)
  {
    if p.lastSuccess == start then retry + 2 * limit else limit
  }

  lemma {:induction false} StampIsRecent(start: nat, lease: Lease, retry: nat, seconds: nat, attempts: seq<Attempt>, limit: nat)
    requires Bounded(attempts, limit)
    requires lease.renewTime.Some? && lease.renewTime.value <= start <= lease.renewTime.value + retry + 2 * limit
    ensures
      var p := After(start, lease, retry, seconds, attempts);
      && p.lease.renewTime.Some? && p.lease.renewTime.value <= p.now
      && p.lease.renewTime.value + StampLag(p, start, retry, limit) >= p.lastSuccess
  {
    if attempts != [] {
      StampIsRecent(start, lease, retry, seconds, attempts[..|attempts| - 1], limit);
      GivesUpInTime(start, lease, retry, seconds, attempts[..|attempts| - 1], limit);
    }
  }

  /**
   Overrun: while a leader runs, its stored renewal is at most the duration, one
   retry, one attempt and the lag of its stamp old.  Past the expiry of its
   Lease it therefore runs on for at most two retries and three attempts, and
   after its first renewal for at most one retry and two attempts.
   */
  lemma OverrunIsBounded(
    found: Lease, identity: string, claimedAt: nat, start: nat, retry: nat, seconds: nat, attempts: seq<Attempt>, limit: nat, t: nat)
    requires Bounded(attempts, limit) && claimedAt <= start <= claimedAt + retry + 2 * limit
    requires var p := After(start, Claimed(found, identity, seconds, claimedAt), retry, seconds, attempts);
      t <= (if p.leading then p.now + retry + limit else p.now)
    ensures
      var p := After(start, Claimed(found, identity, seconds, claimedAt), retry, seconds, attempts);
      && p.lease.renewTime.Some?
      && t <= p.lease.renewTime.value + seconds * MICROS + 2 * retry + 3 * limit
      && (p.lastSuccess != start ==> t <= p.lease.renewTime.value + seconds * MICROS + retry + 2 * limit)
  {
    var lease := Claimed(found, identity, seconds, claimedAt);
    StampIsRecent(start, lease, retry, seconds, attempts, limit);
    GivesUpInTime(start, lease, retry, seconds, attempts, limit);
  }
}
