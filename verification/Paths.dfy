/** Finite paths of a step relation and how they are put together. */
module Paths {

  ghost predicate Path<S(!new), E(!new)>(ss: seq<S>, es: seq<E>, step: (S, E, S) -> bool)
  {
    && |ss| == |es| + 1
    && forall i :: 0 <= i < |es| ==> step(ss[i], es[i], ss[i + 1])
  }

  lemma Joined<S(!new), E(!new)>(ss: seq<S>, es: seq<E>, tt: seq<S>, fs: seq<E>, step: (S, E, S) -> bool)
    requires Path(ss, es, step) && Path(tt, fs, step) && ss[|es|] == tt[0]
    ensures Path(ss + tt[1..], es + fs, step)
    ensures (ss + tt[1..])[|es| + |fs|] == tt[|fs|]
  {
    var us, gs := ss + tt[1..], es + fs;
    forall i | 0 <= i < |gs| ensures step(us[i], gs[i], us[i + 1]) {
      if i < |es| {
        assert us[i] == ss[i] && us[i + 1] == ss[i + 1] && gs[i] == es[i];
      } else {
        assert us[i] == tt[i - |es|] && us[i + 1] == tt[i + 1 - |es|] && gs[i] == fs[i - |es|];
      }
    }
  }

  lemma Prefix<S(!new), E(!new)>(ss: seq<S>, es: seq<E>, n: nat, step: (S, E, S) -> bool)
    requires Path(ss, es, step) && n <= |es|
    ensures Path(ss[..n + 1], es[..n], step)
  {
  }

  lemma Stay<S(!new), E(!new)>(s: S, step: (S, E, S) -> bool) returns (ss: seq<S>, es: seq<E>)
    ensures Path(ss, es, step) && ss == [s] && es == []
  {
    ss, es := [s], [];
  }

  /** One path after another. */
  lemma Then<S(!new), E(!new)>(ss: seq<S>, es: seq<E>, tt: seq<S>, fs: seq<E>, step: (S, E, S) -> bool)
    returns (us: seq<S>, gs: seq<E>)
    requires Path(ss, es, step) && Path(tt, fs, step) && ss[|es|] == tt[0]
    ensures Path(us, gs, step) && |us| == |gs| + 1 && us[0] == ss[0] && us[|gs|] == tt[|fs|]
  {
    Joined(ss, es, tt, fs, step);
    us, gs := ss + tt[1..], es + fs;
  }

  /** One more step. */
  lemma Next<S(!new), E(!new)>(ss: seq<S>, es: seq<E>, e: E, s: S, step: (S, E, S) -> bool)
    returns (us: seq<S>, gs: seq<E>)
    requires Path(ss, es, step) && step(ss[|es|], e, s)
    ensures Path(us, gs, step) && |us| == |gs| + 1 && us[0] == ss[0] && us[|gs|] == s
  {
    Extended(ss, es, e, s, step);
    us, gs := ss + [s], es + [e];
  }

  lemma Extended<S(!new), E(!new)>(ss: seq<S>, es: seq<E>, e: E, s: S, step: (S, E, S) -> bool)
    requires Path(ss, es, step) && step(ss[|es|], e, s)
    ensures Path(ss + [s], es + [e], step)
  {
    assert Path([ss[|es|], s], [e], step);
    Joined(ss, es, [ss[|es|], s], [e], step);
    assert [ss[|es|], s][1..] == [s];
  }
}
