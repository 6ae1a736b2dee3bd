/** The broker keystore: one map of PEM texts, brought in line with the certificate requests by a loop. */
module Keystore {
  import opened Options
  import opened Text
  import opened Decimal
  import opened Order
  import opened San

  type I32 = i: int | I32_MIN <= i <= I32_MAX

  /** The bytes under one key: valid UTF-8, or not, with the lossy reading used for the rollout hash. */
  datatype Entry = Utf8(text: string) | Binary(lossy: string)

  type Data = map<string, Entry>

  datatype Request = Request(id: I32, base: seq<San>, extra: seq<San>)

  datatype Leaf = Leaf(cert: string, key: string)

  /** What the clock and the issuer answer in one round of the loop. */
  datatype Turn = Turn(now: int, leaf: Option<Leaf>)

  /** X.509 reading of `notAfter`, the order on names, and the renewal window. */
  datatype Rules = Rules(notAfter: string -> Option<int>, less: (San, San) -> bool, renewal: int)

  datatype Error = CertParse | IssueFailed

  // ---------------------------------------------------------------------- keys

  function BrokerKey(id: int, field: string): (k: string)
  {
    PrintInt(id) + ['.'] + field
  }

  function CertKey(id: int): (k: string) { BrokerKey(id, "crt") }
  function KeyKey(id: int): (k: string) { BrokerKey(id, "key") }
  function DigestKey(id: int): (k: string) { BrokerKey(id, "sans-digest") }

  function KeysOf(id: int): (ks: set<string>)
  {
    {CertKey(id), KeyKey(id), DigestKey(id)}
  }

  /** The broker a key speaks of: the part before the first dot, read as an i32. */
  function KeyId(k: string): (r: Option<int>)
  {
    var parts := SplitOnce(k, '.');
    if parts.None? then None else ParseI32(parts.value.0)
  }

  lemma KeyIdOf(id: I32, field: string)
    ensures KeyId(BrokerKey(id, field)) == Some(id)
  {
    ParseI32Print(id);
    SplitOnceOf(PrintInt(id), field, '.');
  }

  lemma FieldsDiffer(id: I32, field: string, field': string)
    requires field != field'
    ensures BrokerKey(id, field) != BrokerKey(id, field')
  {
    var n := |PrintInt(id)| + 1;
    assert BrokerKey(id, field)[n..] == field;
    assert BrokerKey(id, field')[n..] == field';
  }

  lemma KeysApart(id: I32)
    ensures CertKey(id) != KeyKey(id) && KeyKey(id) != DigestKey(id) && CertKey(id) != DigestKey(id)
    ensures forall k :: k in KeysOf(id) ==> KeyId(k) == Some(id)
  {
    hide BrokerKey, KeyId;
    assert "crt"[0] != "key"[0] && "key"[0] != "sans-digest"[0] && "crt"[0] != "sans-digest"[0];
    FieldsDiffer(id, "crt", "key");
    FieldsDiffer(id, "key", "sans-digest");
    FieldsDiffer(id, "crt", "sans-digest");
    KeyIdOf(id, "crt");
    KeyIdOf(id, "key");
    KeyIdOf(id, "sans-digest");
  }

  // ------------------------------------------------------------------ the loop

  function Digest(req: Request, rules: Rules): (d: string)
  {
    DigestInput(req.base, req.extra, rules.less)
  }

  /** A missing or undecodable certificate counts as expiring; a decodable one must parse. */
  function Expiring(data: Data, id: int, rules: Rules, now: int): (r: Result<bool, Error>)
  {
    if CertKey(id) !in data || data[CertKey(id)].Binary? then Ok(true)
    else
      var end := rules.notAfter(data[CertKey(id)].text);
      if end.None? then Err(CertParse) else Ok(end.value - now <= rules.renewal)
  }

  function NeedsReissue(data: Data, req: Request, force: bool, rules: Rules, now: int): (r: Result<bool, Error>)
  {
    var expiring := Expiring(data, req.id, rules, now);
    if expiring.Err? then expiring
    else Ok(
      || force
      || !(CertKey(req.id) in data && KeyKey(req.id) in data)
      || expiring.value
      || !(DigestKey(req.id) in data && data[DigestKey(req.id)] == Utf8(Digest(req, rules))))
  }

  datatype Progress = Progress(data: Data, issued: seq<I32>, reused: seq<I32>)

  /** Stores a leaf whose certificate goes under the key `k`. */
  function PutAt(data: Data, k: string, id: int, leaf: Leaf, digest: string): (r: Data)
  {
    data[k := Utf8(leaf.cert)][KeyKey(id) := Utf8(leaf.key)][DigestKey(id) := Utf8(digest)]
  }

  function Put(data: Data, id: int, leaf: Leaf, digest: string): (r: Data)
  {
    PutAt(data, CertKey(id), id, leaf, digest)
  }

  function Round(p: Progress, req: Request, force: bool, rules: Rules, turn: Turn): (r: Result<Progress, Error>)
  {
    var needs := NeedsReissue(p.data, req, force, rules, turn.now);
    if needs.Err? then Err(needs.error)
    else if !needs.value then Ok(p.(reused := p.reused + [req.id]))
    else if turn.leaf.None? then Err(IssueFailed)
    else Ok(p.(data := Put(p.data, req.id, turn.leaf.value, Digest(req, rules)), issued := p.issued + [req.id]))
  }

  function Rounds(data: Data, reqs: seq<Request>, force: bool, rules: Rules, turns: seq<Turn>): (r: Result<Progress, Error>)
    requires |turns| == |reqs|
  {
    if reqs == [] then Ok(Progress(data, [], []))
    else
      var n := |reqs| - 1;
      var before := Rounds(data, reqs[..n], force, rules, turns[..n]);
      if before.Err? then before else Round(before.value, reqs[n], force, rules, turns[n])
  }

  predicate Wanted(reqs: seq<Request>, k: string)
  {
    exists i :: 0 <= i < |reqs| && k in KeysOf(reqs[i].id)
  }

  predicate Stray(reqs: seq<Request>, k: string)
  {
    !Wanted(reqs, k) && KeyId(k).Some?
  }

  function Retained(data: Data, reqs: seq<Request>): (r: Data)
  {
    map k | k in data && !Stray(reqs, k) :: data[k]
  }

  function StrayIds(data: Data, reqs: seq<Request>): (ids: set<int>)
  {
    set k | k in data && Stray(reqs, k) :: KeyId(k).value
  }

  // ------------------------------------------------------------- leaf material

  predicate IsCert(k: string)
  {
    |k| >= 4 && k[|k| - 4..] == ".crt"
  }

  function Lossy(e: Entry): (t: string)
  {
    match e case Utf8(t) => t case Binary(t) => t
  }

  const SEPARATOR: char := '\U{1E}'

  function Material(data: Data, ks: seq<string>): (m: string)
    requires forall i :: 0 <= i < |ks| ==> ks[i] in data
  {
    if ks == [] then ""
    else
      var n := |ks| - 1;
      Material(data, ks[..n]) + (if IsCert(ks[n]) then [SEPARATOR] + Lossy(data[ks[n]]) else "")
  }

  /** The keys in the order in which an ordered map yields them. */
  ghost predicate Listing(data: Data, ks: seq<string>)
  {
    && Sorted(ks, Less)
    && (forall i :: 0 <= i < |ks| ==> ks[i] in data)
    && (forall k :: k in data ==> k in ks)
  }

  ghost predicate IsMaterial(data: Data, m: string)
  {
    exists ks :: Listing(data, ks) && m == Material(data, ks)
  }

  lemma MaterialUnique(data: Data, m: string, m': string)
    requires IsMaterial(data, m) && IsMaterial(data, m')
    ensures m == m'
  {
    var ks :| Listing(data, ks) && m == Material(data, ks);
    var ks' :| Listing(data, ks') && m' == Material(data, ks');
    LessIsTotal();
    assert forall y :: y in ks ==> y in data;
    assert forall y :: y in ks' ==> y in data;
    SortedUnique(ks, ks', Less);
  }

  /** The served certificates in key order. */
  function LeafTexts(data: Data, ks: seq<string>): (r: seq<string>)
    requires forall i :: 0 <= i < |ks| ==> ks[i] in data
  {
    if ks == [] then []
    else
      var n := |ks| - 1;
      LeafTexts(data, ks[..n]) + if IsCert(ks[n]) then [Lossy(data[ks[n]])] else []
  }

  function Joined(texts: seq<string>): (m: string)
  {
    if texts == [] then "" else Joined(texts[..|texts| - 1]) + [SEPARATOR] + texts[|texts| - 1]
  }

  lemma {:induction false} MaterialIsJoined(data: Data, ks: seq<string>)
    requires forall i :: 0 <= i < |ks| ==> ks[i] in data
    ensures Material(data, ks) == Joined(LeafTexts(data, ks))
  {
    hide IsCert;
    if ks != [] {
      var n := |ks| - 1;
      MaterialIsJoined(data, ks[..n]);
      if IsCert(ks[n]) {
        var ts := LeafTexts(data, ks);
        assert ts[..|ts| - 1] == LeafTexts(data, ks[..n]);
        assert Material(data, ks[..n]) + ([SEPARATOR] + ts[|ts| - 1]) == Material(data, ks[..n]) + [SEPARATOR] + ts[|ts| - 1];
      } else {
        assert LeafTexts(data, ks) == LeafTexts(data, ks[..n]);
        assert Material(data, ks) == Material(data, ks[..n]);
      }
    }
  }

  lemma {:induction false} JoinedInjective(s: seq<string>, t: seq<string>)
    requires forall i :: 0 <= i < |s| ==> Without(s[i], SEPARATOR)
    requires forall i :: 0 <= i < |t| ==> Without(t[i], SEPARATOR)
    requires Joined(s) == Joined(t)
    ensures s == t
  {
    if s == [] {
      assert t == [] || |Joined(t)| > 0;
    } else {
      assert |Joined(s)| > 0;
      var m, n := |s| - 1, |t| - 1;
      LastSeparator(Joined(s[..m]), s[m], Joined(t[..n]), t[n], SEPARATOR);
      JoinedInjective(s[..m], t[..n]);
      assert s == s[..m] + [s[m]] && t == t[..n] + [t[n]];
    }
  }

  /**
   The leaf material tells the served certificates apart: when no certificate
   contains the separator, two keystores have equal material exactly when they
   serve the same certificate texts in the same key order.
   */
  lemma MaterialDeterminesLeaves(data: Data, ks: seq<string>, data': Data, ks': seq<string>)
    requires Listing(data, ks) && Listing(data', ks')
    requires forall i :: 0 <= i < |LeafTexts(data, ks)| ==> Without(LeafTexts(data, ks)[i], SEPARATOR)
    requires forall i :: 0 <= i < |LeafTexts(data', ks')| ==> Without(LeafTexts(data', ks')[i], SEPARATOR)
    ensures Material(data, ks) == Material(data', ks') <==> LeafTexts(data, ks) == LeafTexts(data', ks')
  {
    hide IsCert, Less;
    MaterialIsJoined(data, ks);
    MaterialIsJoined(data', ks');
    if Joined(LeafTexts(data, ks)) == Joined(LeafTexts(data', ks')) {
      JoinedInjective(LeafTexts(data, ks), LeafTexts(data', ks'));
    }
  }

  method ListKeys(data: Data) returns (ks: seq<string>)
    ensures Listing(data, ks)
  {
    hide Less, Insert;
    LessIsTotal();
    ks := [];
    var todo := data.Keys;
    while todo != {}
      invariant todo <= data.Keys
      invariant Sorted(ks, Less)
      invariant forall k :: k in ks <==> k in data && k !in todo
      decreases todo
    {
      var k :| k in todo;
      InsertSorted(ks, k, Less);
      ks := Insert(ks, k, Less);
      todo := todo - {k};
    }
  }

  method LeafMaterial(data: Data) returns (m: string)
    ensures IsMaterial(data, m)
  {
    hide Less, IsCert;
    var ks := ListKeys(data);
    m := "";
    for i := 0 to |ks|
      invariant m == Material(data, ks[..i])
    {
      assert ks[..i + 1][..i] == ks[..i];
      if IsCert(ks[i]) {
        m := m + ([SEPARATOR] + Lossy(data[ks[i]]));
      }
    }
    assert ks[..|ks|] == ks;
  }

  // ---------------------------------------------------------------- the method

  datatype Keystore = Keystore(data: Data, issued: seq<I32>, reused: seq<I32>, pruned: set<int>, material: string)

  /** The first failing round decides the result. */
  lemma {:induction false} ErrorEndsTheLoop(data: Data, reqs: seq<Request>, force: bool, rules: Rules, turns: seq<Turn>, n: nat)
    requires |turns| == |reqs| && n <= |reqs|
    requires Rounds(data, reqs[..n], force, rules, turns[..n]).Err?
    ensures Rounds(data, reqs, force, rules, turns) == Rounds(data, reqs[..n], force, rules, turns[..n])
    decreases |reqs| - n
  {
    if n == |reqs| {
      assert reqs[..n] == reqs && turns[..n] == turns;
    } else {
      var rs, ts := reqs[..n + 1], turns[..n + 1];
      assert rs[..n] == reqs[..n] && ts[..n] == turns[..n];
      assert Rounds(data, rs, force, rules, ts) == Rounds(data, rs[..n], force, rules, ts[..n]);
      ErrorEndsTheLoop(data, reqs, force, rules, turns, n + 1);
    }
  }

  method EnsureBrokerKeystore(stored: Data, reqs: seq<Request>, force: bool, rules: Rules, turns: seq<Turn>)
    returns (r: Result<Keystore, Error>)
    requires |turns| == |reqs|
    ensures var p := Rounds(stored, reqs, force, rules, turns);
      match p
      case Err(e) => r == Err(e)
      case Ok(done) =>
        && r.Ok? && r.value.issued == done.issued && r.value.reused == done.reused
        && r.value.data == Retained(done.data, reqs)
        && r.value.pruned == StrayIds(done.data, reqs)
        && IsMaterial(r.value.data, r.value.material)
  {
    hide BrokerKey, KeyId;
    var data, issued, reused := stored, [], [];
    for i := 0 to |reqs|
      invariant Rounds(stored, reqs[..i], force, rules, turns[..i]) == Ok(Progress(data, issued, reused))
    {
      var req := reqs[i];
      assert reqs[..i + 1][..i] == reqs[..i] && turns[..i + 1][..i] == turns[..i];
      var needs := NeedsReissue(data, req, force, rules, turns[i].now);
      if needs.Err? {
        ErrorEndsTheLoop(stored, reqs, force, rules, turns, i + 1);
        return Err(needs.error);
      }
      if !needs.value {
        reused := reused + [req.id];
        continue;
      }
      if turns[i].leaf.None? {
        ErrorEndsTheLoop(stored, reqs, force, rules, turns, i + 1);
        return Err(IssueFailed);
      }
      var leaf := turns[i].leaf.value;
      data := data[CertKey(req.id) := Utf8(leaf.cert)];
      data := data[KeyKey(req.id) := Utf8(leaf.key)];
      data := data[DigestKey(req.id) := Utf8(Digest(req, rules))];
      issued := issued + [req.id];
    }
    assert reqs[..|reqs|] == reqs && turns[..|reqs|] == turns;
    var pruned := StrayIds(data, reqs);
    data := Retained(data, reqs);
    var material := LeafMaterial(data);
    return Ok(Keystore(data, issued, reused, pruned, material));
  }
}
