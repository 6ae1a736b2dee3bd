/** The texts behind the configuration hash and the rollout hash, and what equal hashes imply. */
module ConfigHash {
  import opened Options
  import opened Text

  const UNIT := '\U{001F}'
  const RECORD := '\U{001E}'
  const OPERATOR_TAG := "operator-admin-mtls-v1"

  /** The seven parts of the desired configuration; `metrics` is only a switch. */
  datatype Parts = Parts(
    config: string,
    intent: string,
    metrics: bool,
    ca: string,
    metadata: string,
    logging: string,
    runtime: string)

  function MetricsPart(on: bool): (s: string)
  {
    if on then "metrics=on" else ""
  }

  predicate Collapsed(p: Parts)
  {
    p.intent == "" && !p.metrics && p.ca == "" && p.metadata == "" && p.logging == "" && p.runtime == ""
  }

  function JoinUnits(segments: seq<string>): (s: string)
    requires segments != []
  {
    if |segments| == 1 then segments[0] else segments[0] + [UNIT] + JoinUnits(segments[1..])
  }

  function Segments(p: Parts): (ss: seq<string>)
  {
    [p.config, p.intent, MetricsPart(p.metrics), p.ca, p.metadata, p.logging, p.runtime]
  }

  /** A configuration with nothing but `spec.config` hashes as the bare config text. */
  function Preimage(p: Parts): (s: string)
  {
    if Collapsed(p) then p.config else JoinUnits(Segments(p))
  }

  /** The layout, segment by segment; a configuration with nothing but `spec.config` is that text alone. */
  lemma PreimageLayout(p: Parts)
    ensures p.intent == p.ca == p.metadata == p.logging == p.runtime == "" && !p.metrics ==> Preimage(p) == p.config
    ensures !(p.intent == p.ca == p.metadata == p.logging == p.runtime == "" && !p.metrics) ==>
      Preimage(p) == p.config + ['\U{001F}'] + (p.intent + ['\U{001F}'] + ((if p.metrics then "metrics=on" else "") + ['\U{001F}'] +
        (p.ca + ['\U{001F}'] + (p.metadata + ['\U{001F}'] + (p.logging + ['\U{001F}'] + p.runtime)))))
  {
    var s := Segments(p);
    if !Collapsed(p) {
      assert s[1..][1..] == s[2..] && s[2..][1..] == s[3..] && s[3..][1..] == s[4..] && s[4..][1..] == s[5..] && s[5..][1..] == s[6..];
      assert JoinUnits(s[6..]) == p.runtime;
      assert JoinUnits(s[5..]) == p.logging + [UNIT] + JoinUnits(s[6..]);
      assert JoinUnits(s[4..]) == p.metadata + [UNIT] + JoinUnits(s[5..]);
      assert JoinUnits(s[3..]) == p.ca + [UNIT] + JoinUnits(s[4..]);
      assert JoinUnits(s[2..]) == MetricsPart(p.metrics) + [UNIT] + JoinUnits(s[3..]);
      assert JoinUnits(s[1..]) == p.intent + [UNIT] + JoinUnits(s[2..]);
    }
  }

  /** The buffer that `combined_config_hash` fills, push by push. */
  method FillBuffer(p: Parts) returns (buf: string)
    ensures buf == Preimage(p)
  {
    if Collapsed(p) {
      return p.config;
    }
    var segments := Segments(p);
    buf := segments[0];
    for i := 1 to |segments|
      invariant buf == JoinUnits(segments[..i])
    {
      buf := buf + [UNIT];
      buf := buf + segments[i];
      JoinSnoc(segments[..i], segments[i]);
      assert segments[..i] + [segments[i]] == segments[..i + 1];
    }
    assert segments[..|segments|] == segments;
  }

  lemma {:induction false} JoinSnoc(a: seq<string>, x: string)
    requires a != []
    ensures JoinUnits(a + [x]) == JoinUnits(a) + [UNIT] + x
  {
    if |a| == 1 {
      assert a + [x] == [a[0], x];
      assert JoinUnits([x]) == x;
      assert (a + [x])[1..] == [x];
    } else {
      JoinSnoc(a[1..], x);
      assert (a + [x])[1..] == a[1..] + [x];
    }
  }

  // -------------------------------------------------------------- injectivity

  ghost predicate Separable(segments: seq<string>)
  {
    forall i :: 0 <= i < |segments| ==> Without(segments[i], UNIT)
  }

  lemma {:induction false} JoinInjective(a: seq<string>, b: seq<string>)
    requires |a| == |b| > 0 && Separable(a) && Separable(b) && JoinUnits(a) == JoinUnits(b)
    ensures a == b
  {
    if |a| > 1 {
      FirstSeparator(a[0], JoinUnits(a[1..]), b[0], JoinUnits(b[1..]), UNIT);
      JoinInjective(a[1..], b[1..]);
      assert a == [a[0]] + a[1..] && b == [b[0]] + b[1..];
    }
  }

  lemma MetricsInjective(a: bool, b: bool)
    requires MetricsPart(a) == MetricsPart(b)
    ensures a == b
  {
    assert |MetricsPart(true)| != |MetricsPart(false)|;
  }

  /** The separator tells the full form from the collapsed one. */
  lemma SeparatorMeansFull(p: Parts)
    requires Separable(Segments(p))
    ensures UNIT in Preimage(p) <==> !Collapsed(p)
  {
    var s := Segments(p);
    assert Without(s[0], UNIT);
    assert JoinUnits(s)[|s[0]|] == UNIT;
  }

  /** Pre-image injectivity: equal hash inputs mean equal configurations, also across the collapsed form. */
  lemma PreimageInjective(p: Parts, q: Parts)
    requires Separable(Segments(p)) && Separable(Segments(q))
    requires Preimage(p) == Preimage(q)
    ensures p == q
  {
    SeparatorMeansFull(p);
    SeparatorMeansFull(q);
    if !Collapsed(p) {
      JoinInjective(Segments(p), Segments(q));
      var s, t := Segments(p), Segments(q);
      assert s[0] == t[0] && s[1] == t[1] && s[2] == t[2] && s[3] == t[3] && s[4] == t[4] && s[5] == t[5] && s[6] == t[6];
      MetricsInjective(p.metrics, q.metrics);
    }
  }

  /** The CA segment: the clients bundle takes part only during its key replacement. */
  function CaTrust(cluster: string, clients: Option<string>): (s: string)
  {
    if clients.None? then cluster + [RECORD] + OPERATOR_TAG
    else cluster + [RECORD] + (clients.value + [RECORD] + OPERATOR_TAG)
  }

  lemma CaTrustInjective(a: string, x: Option<string>, b: string, y: Option<string>)
    requires Without(a, RECORD) && Without(b, RECORD)
    requires x.Some? ==> Without(x.value, RECORD)
    requires y.Some? ==> Without(y.value, RECORD)
    requires CaTrust(a, x) == CaTrust(b, y)
    ensures a == b && x == y
  {
    var s := if x.None? then OPERATOR_TAG else x.value + [RECORD] + OPERATOR_TAG;
    var t := if y.None? then OPERATOR_TAG else y.value + [RECORD] + OPERATOR_TAG;
    FirstSeparator(a, s, b, t, RECORD);
    assert Without(OPERATOR_TAG, RECORD);
    if x.Some? {
      assert s[|x.value|] == RECORD;
      assert RECORD in s;
    }
    if y.Some? {
      assert t[|y.value|] == RECORD;
      assert RECORD in t;
    }
    if x.Some? && y.Some? {
      FirstSeparator(x.value, OPERATOR_TAG, y.value, OPERATOR_TAG, RECORD);
    }
  }

  /** The rollout hash mixes the served leaf certificates into the configuration hash. */
  function RolloutHash(digest: string -> string, p: Parts, leafs: string): (h: string)
  {
    digest(digest(Preimage(p)) + [RECORD] + leafs)
  }

  ghost predicate NoCollision(digest: string -> string, x: string, y: string)
  {
    digest(x) == digest(y) ==> x == y
  }

  /**
   Equal rollout hashes mean equal configurations, CA content included, and
   equal leaf certificates, for a digest that does not collide on these inputs.
   */
  lemma RolloutHashDetermines(digest: string -> string, p: Parts, leafs: string, q: Parts, leafs': string)
    requires forall x :: Without(digest(x), RECORD)
    requires NoCollision(digest, Preimage(p), Preimage(q))
    requires NoCollision(digest, digest(Preimage(p)) + [RECORD] + leafs, digest(Preimage(q)) + [RECORD] + leafs')
    requires Separable(Segments(p)) && Separable(Segments(q))
    requires RolloutHash(digest, p, leafs) == RolloutHash(digest, q, leafs')
    ensures p == q && leafs == leafs'
  {
    FirstSeparator(digest(Preimage(p)), leafs, digest(Preimage(q)), leafs', RECORD);
    PreimageInjective(p, q);
  }
}
