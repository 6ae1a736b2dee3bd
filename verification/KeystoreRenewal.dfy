/** The scheduled renewal of broker leaves, and why the reconciler then leaves them alone. */
module KeystoreRenewal {
  import opened Options
  import opened Decimal
  import opened Order
  import opened San
  import opened Keystore
  import opened KeystoreLaws

  // ----------------------------------------------------------- file extensions

  function LastDot(s: string): (r: Option<nat>)
    ensures r.Some? ==> r.value < |s| && s[r.value] == '.' && '.' !in s[r.value + 1..]
    ensures r.None? ==> '.' !in s
  {
    if s == "" then None
    else
      var n := |s| - 1;
      if s[n] == '.' then Some(n)
      else
        var r := LastDot(s[..n]);
        assert s == s[..n] + [s[n]];
        assert r.Some? ==> s[r.value + 1..] == s[..n][r.value + 1..] + [s[n]];
        r
  }

  /** `Path::extension` of a plain file name. */
  function Extension(name: string): (r: Option<string>)
  {
    var dot := LastDot(name);
    if name == ".." || dot.None? || dot.value == 0 then None else Some(name[dot.value + 1..])
  }

  function Lower(c: char): (l: char)
  {
    if 'A' <= c <= 'Z' then c - 'A' + 'a' else c
  }

  predicate HasCrtExtension(name: string)
  {
    var e := Extension(name);
    e.Some? && |e.value| == 3 && Lower(e.value[0]) == 'c' && Lower(e.value[1]) == 'r' && Lower(e.value[2]) == 't'
  }

  lemma LastDotUnique(s: string, i: nat, j: nat)
    requires i < |s| && s[i] == '.' && '.' !in s[i + 1..]
    requires j < |s| && s[j] == '.' && '.' !in s[j + 1..]
    ensures i == j
  {
    assert forall m :: i < m < |s| ==> s[m] == s[i + 1..][m - i - 1];
    assert forall m :: j < m < |s| ==> s[m] == s[j + 1..][m - j - 1];
  }

  lemma ExtensionOf(id: I32, field: string)
    requires '.' !in field
    ensures Extension(BrokerKey(id, field)) == Some(field)
  {
    var k, n := BrokerKey(id, field), |PrintInt(id)|;
    ParseI32Print(id);
    assert k[n] == '.' && k[n + 1..] == field;
    LastDotUnique(k, LastDot(k).value, n);
    assert k[0] == PrintInt(id)[0];
  }

  lemma OnlyCertKeys(id: I32)
    ensures HasCrtExtension(CertKey(id)) && !HasCrtExtension(KeyKey(id)) && !HasCrtExtension(DigestKey(id))
  {
    ExtensionOf(id, "crt");
    ExtensionOf(id, "key");
    ExtensionOf(id, "sans-digest");
  }

  /** The extension counts in any case. */
  lemma UpperCaseCounts(id: I32)
    ensures HasCrtExtension(BrokerKey(id, "CRT")) && HasCrtExtension(BrokerKey(id, "Crt"))
  {
    ExtensionOf(id, "CRT");
    ExtensionOf(id, "Crt");
  }

  // --------------------------------------------------------------- the renewal

  /** One certificate key: `sansOf` reads the names out of the stored certificate. */
  function RenewKey(data: Data, k: string, rules: Rules, sansOf: string -> Option<seq<San>>, now: int, leaf: Option<Leaf>)
    : (r: Result<Data, Error>)
  {
    if KeyId(k).None? || k !in data || data[k].Binary? then Ok(data)
    else
      var end := rules.notAfter(data[k].text);
      if end.None? then Err(CertParse)
      else if end.value - now > rules.renewal then Ok(data)
      else
        var sans := sansOf(data[k].text);
        if sans.None? then Ok(data)
        else if leaf.None? then Err(IssueFailed)
        else
          var id := KeyId(k).value;
          Ok(PutAt(data, k, id, leaf.value, DigestInput(sans.value, [], rules.less)))
  }

  function RenewAll(data: Data, ks: seq<string>, rules: Rules, sansOf: string -> Option<seq<San>>, now: int, issue: string -> Option<Leaf>)
    : (r: Result<Data, Error>)
  {
    if ks == [] then Ok(data)
    else
      var n := |ks| - 1;
      var before := RenewAll(data, ks[..n], rules, sansOf, now, issue);
      if before.Err? then before else RenewKey(before.value, ks[n], rules, sansOf, now, issue(ks[n]))
  }

  lemma {:induction false} RenewErrorEnds(
    data: Data, ks: seq<string>, rules: Rules, sansOf: string -> Option<seq<San>>, now: int, issue: string -> Option<Leaf>, n: nat)
    requires n <= |ks|
    requires RenewAll(data, ks[..n], rules, sansOf, now, issue).Err?
    ensures RenewAll(data, ks, rules, sansOf, now, issue) == RenewAll(data, ks[..n], rules, sansOf, now, issue)
    decreases |ks| - n
  {
    if n == |ks| {
      assert ks[..n] == ks;
    } else {
      var rs := ks[..n + 1];
      assert rs[..n] == ks[..n];
      assert RenewAll(data, rs, rules, sansOf, now, issue) == RenewAll(data, rs[..n], rules, sansOf, now, issue);
      RenewErrorEnds(data, ks, rules, sansOf, now, issue, n + 1);
    }
  }

  /** The certificate keys of a map, in its order. */
  ghost predicate CertKeys(data: Data, ks: seq<string>)
  {
    Sorted(ks, Less) && forall k :: k in ks <==> k in data && HasCrtExtension(k)
  }

  method ListCertKeys(data: Data) returns (ks: seq<string>)
    ensures CertKeys(data, ks)
  {
    var all := ListKeys(data);
    ks := [];
    for i := 0 to |all|
      invariant Sorted(ks, Less)
      invariant forall k :: k in ks <==> k in all[..i] && HasCrtExtension(k)
    {
      if HasCrtExtension(all[i]) {
        forall j | 0 <= j < |ks| ensures Less(ks[j], all[i]) {
          assert ks[j] in all[..i];
        }
        ks := ks + [all[i]];
      }
    }
    assert all[..|all|] == all;
  }

  lemma RenewNext(
    data: Data, ks: seq<string>, rules: Rules, sansOf: string -> Option<seq<San>>, now: int, issue: string -> Option<Leaf>, i: nat)
    requires i < |ks|
    ensures var before := RenewAll(data, ks[..i], rules, sansOf, now, issue);
      RenewAll(data, ks[..i + 1], rules, sansOf, now, issue)
        == if before.Err? then before else RenewKey(before.value, ks[i], rules, sansOf, now, issue(ks[i]))
  {
    hide RenewKey;
    assert ks[..i + 1][..i] == ks[..i];
  }

  /** The loop over the certificate keys, each entry replaced in place. */
  method RenewEach(
    stored: Data, todo: seq<string>, rules: Rules, sansOf: string -> Option<seq<San>>, now: int, issue: string -> Option<Leaf>)
    returns (r: Result<Data, Error>)
    ensures r == RenewAll(stored, todo, rules, sansOf, now, issue)
  {
    hide BrokerKey, KeyId, RenewAll, DigestInput;
    var data := stored;
    RenewNothing(stored, rules, sansOf, now, issue);
    assert todo[..0] == [];
    for i := 0 to |todo|
      invariant RenewAll(stored, todo[..i], rules, sansOf, now, issue) == Ok(data)
    {
      RenewNext(stored, todo, rules, sansOf, now, issue, i);
      var k := todo[i];
      if KeyId(k).None? || k !in data || data[k].Binary? { continue; }
      var id := KeyId(k).value;
      var end := rules.notAfter(data[k].text);
      if end.None? {
        RenewErrorEnds(stored, todo, rules, sansOf, now, issue, i + 1);
        return Err(CertParse);
      }
      if end.value - now > rules.renewal { continue; }
      var sans := sansOf(data[k].text);
      if sans.None? { continue; }
      var leaf := issue(k);
      if leaf.None? {
        RenewErrorEnds(stored, todo, rules, sansOf, now, issue, i + 1);
        return Err(IssueFailed);
      }
      data := data[k := Utf8(leaf.value.cert)];
      data := data[KeyKey(id) := Utf8(leaf.value.key)];
      data := data[DigestKey(id) := Utf8(DigestInput(sans.value, [], rules.less))];
    }
    assert todo[..|todo|] == todo;
    r := Ok(data);
  }

  lemma RenewNothing(data: Data, rules: Rules, sansOf: string -> Option<seq<San>>, now: int, issue: string -> Option<Leaf>)
    ensures RenewAll(data, [], rules, sansOf, now, issue) == Ok(data)
  {
  }

  method RenewBrokerLeafs(
    stored: Data, rules: Rules, sansOf: string -> Option<seq<San>>, now: int, issue: string -> Option<Leaf>)
    returns (r: Result<Data, Error>)
    ensures exists ks :: CertKeys(stored, ks) && r == RenewAll(stored, ks, rules, sansOf, now, issue)
  {
    hide CertKeys, RenewAll;
    var todo := ListCertKeys(stored);
    r := RenewEach(stored, todo, rules, sansOf, now, issue);
  }

  // ---------------------------------------------------------- no reissue after

  /** A stored leaf as the reconciler issued it: parseable, carrying the requested names, beside its digest. */
  ghost predicate InService(data: Data, req: Request, rules: Rules, sansOf: string -> Option<seq<San>>)
  {
    && CertKey(req.id) in data && KeyKey(req.id) in data && data[CertKey(req.id)].Utf8?
    && DigestKey(req.id) in data && data[DigestKey(req.id)] == Utf8(Digest(req, rules))
    && var text := data[CertKey(req.id)].text;
    && rules.notAfter(text).Some?
    && sansOf(text).Some? && Names(sansOf(text).value) == Names(req.base) + Names(req.extra)
  }

  ghost predicate Lives(leaf: Option<Leaf>, rules: Rules, now: int)
  {
    leaf.Some? ==> var end := rules.notAfter(leaf.value.cert); end.Some? && end.value - now > rules.renewal
  }

  lemma RenewedDigest(req: Request, sans: seq<San>, rules: Rules)
    requires Total(rules.less) && Names(sans) == Names(req.base) + Names(req.extra)
    ensures DigestInput(sans, [], rules.less) == Digest(req, rules)
  {
    assert Names([]) == {};
    DigestInputOfSet(sans, [], req.base, req.extra, rules.less);
  }

  /** Renewing a served certificate leaves its request settled: the names read back give the same digest. */
  lemma RenewKeySettles(data: Data, req: Request, rules: Rules, sansOf: string -> Option<seq<San>>, now: int, leaf: Option<Leaf>)
    requires Total(rules.less) && Lives(leaf, rules, now)
    requires InService(data, req, rules, sansOf)
    requires RenewKey(data, CertKey(req.id), rules, sansOf, now, leaf).Ok?
    ensures Settled(RenewKey(data, CertKey(req.id), rules, sansOf, now, leaf).value, req, rules, now)
  {
    hide BrokerKey, KeyId, HasCrtExtension;
    KeysHaveIds(req.id);
    var text := data[CertKey(req.id)].text;
    if rules.notAfter(text).value - now <= rules.renewal {
      RenewedDigest(req, sansOf(text).value, rules);
      PutHolds(data, req.id, leaf.value, Digest(req, rules));
      HoldsSettles(Put(data, req.id, leaf.value, Digest(req, rules)), req, rules, leaf.value, now);
    }
  }

  lemma SettledIsSkipped(data: Data, req: Request, rules: Rules, sansOf: string -> Option<seq<San>>, now: int, leaf: Option<Leaf>)
    requires Settled(data, req, rules, now)
    ensures RenewKey(data, CertKey(req.id), rules, sansOf, now, leaf) == Ok(data)
  {
  }

  lemma PutAtFrame(data: Data, k: string, id: I32, leaf: Leaf, digest: string, other: I32)
    requires KeyId(k) == Some(id) && id != other
    ensures SameFor(PutAt(data, k, id, leaf, digest), data, other)
  {
    hide BrokerKey, KeyId, HasCrtExtension;
    KeysHaveIds(id);
    KeysHaveIds(other);
  }

  lemma ParsedIsI32(k: string)
    requires KeyId(k).Some?
    ensures I32_MIN <= KeyId(k).value <= I32_MAX
  {
  }

  lemma RenewKeyFrame(data: Data, k: string, rules: Rules, sansOf: string -> Option<seq<San>>, now: int, leaf: Option<Leaf>, id: I32)
    requires RenewKey(data, k, rules, sansOf, now, leaf).Ok? && KeyId(k) != Some(id)
    ensures SameFor(RenewKey(data, k, rules, sansOf, now, leaf).value, data, id)
  {
    hide BrokerKey, KeyId, HasCrtExtension;
    var data' := RenewKey(data, k, rules, sansOf, now, leaf).value;
    if data' != data {
      ParsedIsI32(k);
      var sans := sansOf(data[k].text).value;
      PutAtFrame(data, k, KeyId(k).value, leaf.value, DigestInput(sans, [], rules.less), id);
    }
  }

  /** Renewal adds no key that is not already wanted, when each served request has its three entries. */
  lemma RenewKeyKeys(data: Data, k: string, rules: Rules, sansOf: string -> Option<seq<San>>, now: int, leaf: Option<Leaf>)
    requires RenewKey(data, k, rules, sansOf, now, leaf).Ok?
    ensures forall j :: j in RenewKey(data, k, rules, sansOf, now, leaf).value ==>
      j in data || (KeyId(k).Some? && k in data && j in KeysOf(KeyId(k).value))
  {
    hide BrokerKey, KeyId, HasCrtExtension;
  }

  /** In a map without strays, a broker's key with the certificate extension is its certificate key. */
  lemma CertKeyOf(data: Data, reqs: seq<Request>, k: string) returns (i: nat)
    requires k in data && !Stray(reqs, k) && KeyId(k).Some? && HasCrtExtension(k)
    ensures i < |reqs| && k == CertKey(reqs[i].id) && KeyId(k) == Some(reqs[i].id)
  {
    hide BrokerKey, KeyId, HasCrtExtension;
    i :| 0 <= i < |reqs| && k in KeysOf(reqs[i].id);
    OnlyCertKeys(reqs[i].id);
    KeysHaveIds(reqs[i].id);
  }

  ghost predicate InServiceOrSettled(
    data: Data, req: Request, rules: Rules, sansOf: string -> Option<seq<San>>, now: int, done: seq<string>)
  {
    if CertKey(req.id) in done then Settled(data, req, rules, now) else InService(data, req, rules, sansOf)
  }

  lemma {:induction false} RenewalProgress(
    stored: Data, ks: seq<string>, reqs: seq<Request>, rules: Rules, sansOf: string -> Option<seq<San>>, now: int, issue: string -> Option<Leaf>)
    requires DistinctIds(reqs) && Total(rules.less)
    requires forall k :: Lives(issue(k), rules, now)
    requires forall i :: 0 <= i < |reqs| ==> InService(stored, reqs[i], rules, sansOf)
    requires forall k :: k in stored ==> !Stray(reqs, k)
    requires forall i :: 0 <= i < |ks| ==> HasCrtExtension(ks[i])
    requires RenewAll(stored, ks, rules, sansOf, now, issue).Ok?
    ensures var data := RenewAll(stored, ks, rules, sansOf, now, issue).value;
      && (forall i :: 0 <= i < |reqs| ==> InServiceOrSettled(data, reqs[i], rules, sansOf, now, ks))
      && (forall k :: k in data ==> !Stray(reqs, k))
  {
    hide BrokerKey, KeyId, HasCrtExtension;
    if ks != [] {
      var n := |ks| - 1;
      RenewalProgress(stored, ks[..n], reqs, rules, sansOf, now, issue);
      var data := RenewAll(stored, ks[..n], rules, sansOf, now, issue).value;
      RenewalStep(data, ks, reqs, rules, sansOf, now, issue(ks[n]));
    }
  }

  lemma RenewalStep(
    data: Data, ks: seq<string>, reqs: seq<Request>, rules: Rules, sansOf: string -> Option<seq<San>>, now: int, leaf: Option<Leaf>)
    requires |ks| > 0 && DistinctIds(reqs) && Total(rules.less) && Lives(leaf, rules, now)
    requires var n := |ks| - 1;
      && HasCrtExtension(ks[n]) && RenewKey(data, ks[n], rules, sansOf, now, leaf).Ok?
      && (forall i :: 0 <= i < |reqs| ==> InServiceOrSettled(data, reqs[i], rules, sansOf, now, ks[..n]))
    requires forall k :: k in data ==> !Stray(reqs, k)
    ensures var data' := RenewKey(data, ks[|ks| - 1], rules, sansOf, now, leaf).value;
      && (forall i :: 0 <= i < |reqs| ==> InServiceOrSettled(data', reqs[i], rules, sansOf, now, ks))
      && (forall k :: k in data' ==> !Stray(reqs, k))
  {
    hide BrokerKey, KeyId, HasCrtExtension;
    var n := |ks| - 1;
    var k := ks[n];
    var data' := RenewKey(data, k, rules, sansOf, now, leaf).value;
    assert ks == ks[..n] + [k];
    forall i | 0 <= i < |reqs| ensures InServiceOrSettled(data', reqs[i], rules, sansOf, now, ks) {
      KeysHaveIds(reqs[i].id);
      if KeyId(k) == Some(reqs[i].id) {
        assert CertKey(reqs[i].id) in data;
        if k in data {
          var j := CertKeyOf(data, reqs, k);
          assert j == i;
          OwnKey(data, reqs[i], rules, sansOf, now, leaf, ks[..n]);
        }
      } else {
        RenewKeyFrame(data, k, rules, sansOf, now, leaf, reqs[i].id);
        Unmoved(data, data', reqs[i], rules, sansOf, now, ks[..n]);
      }
    }
    RenewKeyKeys(data, k, rules, sansOf, now, leaf);
    if KeyId(k).Some? && k in data {
      var i := CertKeyOf(data, reqs, k);
      assert forall j :: j in KeysOf(reqs[i].id) ==> Wanted(reqs, j);
    }
  }

  /** Visiting a request's own certificate key settles it, the first time and every time. */
  lemma OwnKey(
    data: Data, req: Request, rules: Rules, sansOf: string -> Option<seq<San>>, now: int, leaf: Option<Leaf>, done: seq<string>)
    requires Total(rules.less) && Lives(leaf, rules, now) && InServiceOrSettled(data, req, rules, sansOf, now, done)
    requires RenewKey(data, CertKey(req.id), rules, sansOf, now, leaf).Ok?
    ensures Settled(RenewKey(data, CertKey(req.id), rules, sansOf, now, leaf).value, req, rules, now)
  {
    hide BrokerKey, KeyId, HasCrtExtension;
    if CertKey(req.id) in done {
      SettledIsSkipped(data, req, rules, sansOf, now, leaf);
    } else {
      RenewKeySettles(data, req, rules, sansOf, now, leaf);
    }
  }

  lemma Unmoved(
    data: Data, data': Data, req: Request, rules: Rules, sansOf: string -> Option<seq<San>>, now: int, done: seq<string>)
    requires InServiceOrSettled(data, req, rules, sansOf, now, done) && SameFor(data', data, req.id)
    ensures InServiceOrSettled(data', req, rules, sansOf, now, done)
  {
    hide BrokerKey, KeyId, HasCrtExtension;
    NeedsIsLocal(data', data, req, false, rules, now);
  }

  /**
   A leaf renewed by the scheduled job from its own parsed names is not
   reissued: after the renewal, an unforced reconcile with the same requests
   issues nothing, prunes nothing and writes the map back as it found it.
   */
  lemma RenewedLeavesAreKept(
    stored: Data, ks: seq<string>, reqs: seq<Request>, rules: Rules, sansOf: string -> Option<seq<San>>, now: int,
    issue: string -> Option<Leaf>, turns: seq<Turn>)
    requires |turns| == |reqs| && DistinctIds(reqs) && Total(rules.less)
    requires forall k :: Lives(issue(k), rules, now)
    requires forall i :: 0 <= i < |turns| ==> turns[i].now == now
    requires forall i :: 0 <= i < |reqs| ==> InService(stored, reqs[i], rules, sansOf)
    requires forall k :: k in stored ==> !Stray(reqs, k)
    requires CertKeys(stored, ks) && RenewAll(stored, ks, rules, sansOf, now, issue).Ok?
    ensures Quiet(RenewAll(stored, ks, rules, sansOf, now, issue).value, reqs, false, rules, turns)
  {
    hide BrokerKey, KeyId, HasCrtExtension;
    assert forall i :: 0 <= i < |ks| ==> ks[i] in ks;
    RenewalProgress(stored, ks, reqs, rules, sansOf, now, issue);
    var data := RenewAll(stored, ks, rules, sansOf, now, issue).value;
    forall i | 0 <= i < |reqs| ensures Settled(data, reqs[i], rules, turns[i].now) {
      OnlyCertKeys(reqs[i].id);
      assert CertKey(reqs[i].id) in ks;
      assert InServiceOrSettled(data, reqs[i], rules, sansOf, now, ks);
    }
    QuietIff(data, reqs, false, rules, turns);
  }
}
