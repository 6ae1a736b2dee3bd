/** What the keystore loop achieves, for requests with distinct broker ids. */
module KeystoreLaws {
  import opened Options
  import opened Keystore

  ghost predicate DistinctIds(reqs: seq<Request>)
  {
    forall i, j :: 0 <= i < j < |reqs| ==> reqs[i].id != reqs[j].id
  }

  ghost predicate Same(a: Data, b: Data, k: string)
  {
    (k in a <==> k in b) && (k in a ==> a[k] == b[k])
  }

  ghost predicate SameFor(a: Data, b: Data, id: I32)
  {
    Same(a, b, CertKey(id)) && Same(a, b, KeyKey(id)) && Same(a, b, DigestKey(id))
  }

  ghost predicate Holds(data: Data, id: I32, leaf: Leaf, digest: string)
  {
    && CertKey(id) in data && data[CertKey(id)] == Utf8(leaf.cert)
    && KeyKey(id) in data && data[KeyKey(id)] == Utf8(leaf.key)
    && DigestKey(id) in data && data[DigestKey(id)] == Utf8(digest)
  }

  /** The request was answered: its three entries were good and stay, or they are the new leaf. */
  ghost predicate Answered(stored: Data, data: Data, req: Request, force: bool, rules: Rules, turn: Turn)
  {
    var needs := NeedsReissue(stored, req, force, rules, turn.now);
    && needs.Ok?
    && (if needs.value then turn.leaf.Some? && Holds(data, req.id, turn.leaf.value, Digest(req, rules))
        else SameFor(data, stored, req.id))
  }

  /** The request ends the loop with an error. */
  ghost predicate Fails(stored: Data, req: Request, force: bool, rules: Rules, turn: Turn)
  {
    var needs := NeedsReissue(stored, req, force, rules, turn.now);
    needs.Err? || (needs.value && turn.leaf.None?)
  }

  /** Some request and the turn beside it satisfy `p`. */
  ghost predicate Exists(reqs: seq<Request>, turns: seq<Turn>, p: (Request, Turn) -> bool)
    requires |turns| == |reqs|
  {
    exists i :: 0 <= i < |reqs| && p(reqs[i], turns[i])
  }

  lemma ExistsGrows(reqs: seq<Request>, turns: seq<Turn>, p: (Request, Turn) -> bool)
    requires |turns| == |reqs| > 0
    ensures var n := |reqs| - 1;
      Exists(reqs, turns, p) <==> Exists(reqs[..n], turns[..n], p) || p(reqs[n], turns[n])
  {
    var n := |reqs| - 1;
    var rs, ts := reqs[..n], turns[..n];
    if i :| 0 <= i < n && p(rs[i], ts[i]) {
      assert p(reqs[i], turns[i]);
    }
    if i :| 0 <= i < n && p(reqs[i], turns[i]) {
      assert p(rs[i], ts[i]);
    }
  }

  lemma NeedsIsLocal(a: Data, b: Data, req: Request, force: bool, rules: Rules, now: int)
    requires SameFor(a, b, req.id)
    ensures NeedsReissue(a, req, force, rules, now) == NeedsReissue(b, req, force, rules, now)
  {
  }

  lemma PutHolds(data: Data, id: I32, leaf: Leaf, digest: string)
    ensures Holds(Put(data, id, leaf, digest), id, leaf, digest)
    ensures forall k :: KeyId(k) != Some(id) ==> Same(Put(data, id, leaf, digest), data, k)
  {
    hide BrokerKey, KeyId;
    KeysApart(id);
  }

  lemma KeysHaveIds(id: I32)
    ensures KeyId(CertKey(id)) == KeyId(KeyKey(id)) == KeyId(DigestKey(id)) == Some(id)
  {
    KeysApart(id);
  }

  /** One round touches the keys of its own broker only, and answers it unless it fails. */
  lemma RoundAnswers(p: Progress, req: Request, force: bool, rules: Rules, turn: Turn)
    ensures Round(p, req, force, rules, turn).Err? <==> Fails(p.data, req, force, rules, turn)
    ensures var r := Round(p, req, force, rules, turn); r.Ok? ==>
      && Answered(p.data, r.value.data, req, force, rules, turn)
      && forall k :: KeyId(k) != Some(req.id) ==> Same(r.value.data, p.data, k)
  {
    hide BrokerKey, KeyId;
    if turn.leaf.Some? {
      PutHolds(p.data, req.id, turn.leaf.value, Digest(req, rules));
    }
  }

  lemma AnsweredElsewhere(stored: Data, data: Data, data': Data, req: Request, force: bool, rules: Rules, turn: Turn)
    requires Answered(stored, data, req, force, rules, turn) && SameFor(data', data, req.id)
    ensures Answered(stored, data', req, force, rules, turn)
  {
  }

  /** The request is for this broker and asks, on the stored map, for a new leaf (or for none). */
  ghost predicate AsksFor(id: I32, stored: Data, req: Request, force: bool, rules: Rules, turn: Turn, anew: bool)
  {
    req.id == id && NeedsReissue(stored, req, force, rules, turn.now) == Ok(anew)
  }

  ghost predicate Asked(id: I32, stored: Data, reqs: seq<Request>, force: bool, rules: Rules, turns: seq<Turn>, anew: bool)
    requires |turns| == |reqs|
  {
    Exists(reqs, turns, (req: Request, turn: Turn) => AsksFor(id, stored, req, force, rules, turn, anew))
  }

  /** Issued and reused list, without repetition, exactly the requests that need a leaf and those that do not. */
  ghost predicate Split(p: Progress, stored: Data, reqs: seq<Request>, force: bool, rules: Rules, turns: seq<Turn>)
    requires |turns| == |reqs|
  {
    && |p.issued| + |p.reused| == |reqs|
    && (forall id: I32 :: id in p.issued <==> Asked(id, stored, reqs, force, rules, turns, true))
    && (forall id: I32 :: id in p.reused <==> Asked(id, stored, reqs, force, rules, turns, false))
  }

  /** Keys of brokers that are not requested survive the loop as they were. */
  ghost predicate OthersKept(stored: Data, data: Data, reqs: seq<Request>)
  {
    forall k :: (forall i :: 0 <= i < |reqs| ==> KeyId(k) != Some(reqs[i].id)) ==> Same(data, stored, k)
  }

  ghost predicate AllAnswered(stored: Data, data: Data, reqs: seq<Request>, force: bool, rules: Rules, turns: seq<Turn>)
    requires |turns| == |reqs|
  {
    forall i :: 0 <= i < |reqs| ==> Answered(stored, data, reqs[i], force, rules, turns[i])
  }

  lemma RoundKeepsOthers(stored: Data, p: Progress, reqs: seq<Request>, force: bool, rules: Rules, turn: Turn)
    requires |reqs| > 0 && OthersKept(stored, p.data, reqs[..|reqs| - 1])
    requires Round(p, reqs[|reqs| - 1], force, rules, turn).Ok?
    ensures OthersKept(stored, Round(p, reqs[|reqs| - 1], force, rules, turn).value.data, reqs)
  {
    hide BrokerKey, KeyId;
    RoundAnswers(p, reqs[|reqs| - 1], force, rules, turn);
    forall k | forall i :: 0 <= i < |reqs| ==> KeyId(k) != Some(reqs[i].id)
      ensures Same(Round(p, reqs[|reqs| - 1], force, rules, turn).value.data, stored, k)
    {
      assert Same(p.data, stored, k);
    }
  }

  lemma OthersKeptFor(stored: Data, data: Data, reqs: seq<Request>, id: I32)
    requires OthersKept(stored, data, reqs) && forall i :: 0 <= i < |reqs| ==> reqs[i].id != id
    ensures SameFor(data, stored, id)
  {
    KeysHaveIds(id);
  }

  /** The state after the loop, request by request, in terms of the map the loop started from. */
  lemma {:induction false} LoopState(stored: Data, reqs: seq<Request>, force: bool, rules: Rules, turns: seq<Turn>)
    requires |turns| == |reqs| && DistinctIds(reqs) && Rounds(stored, reqs, force, rules, turns).Ok?
    ensures var data := Rounds(stored, reqs, force, rules, turns).value.data;
      AllAnswered(stored, data, reqs, force, rules, turns) && OthersKept(stored, data, reqs)
  {
    hide BrokerKey, KeyId, NeedsReissue, PutAt;
    if reqs != [] {
      var n := |reqs| - 1;
      var rs, ts := reqs[..n], turns[..n];
      LoopState(stored, rs, force, rules, ts);
      var p := Rounds(stored, rs, force, rules, ts).value;
      RoundKeepsOthers(stored, p, reqs, force, rules, turns[n]);
      LastAnswered(stored, p, reqs[n], force, rules, turns[n], rs);
      var data := Round(p, reqs[n], force, rules, turns[n]).value.data;
      forall i | 0 <= i < n ensures Answered(stored, data, reqs[i], force, rules, turns[i]) {
        assert Answered(stored, p.data, rs[i], force, rules, ts[i]);
        assert SameFor(data, p.data, reqs[i].id);
        AnsweredElsewhere(stored, p.data, data, reqs[i], force, rules, turns[i]);
      }
    }
  }

  lemma LastAnswered(stored: Data, p: Progress, req: Request, force: bool, rules: Rules, turn: Turn, rs: seq<Request>)
    requires OthersKept(stored, p.data, rs) && forall i :: 0 <= i < |rs| ==> rs[i].id != req.id
    requires Round(p, req, force, rules, turn).Ok?
    ensures Answered(stored, Round(p, req, force, rules, turn).value.data, req, force, rules, turn)
    ensures forall id: I32 :: id != req.id ==> SameFor(Round(p, req, force, rules, turn).value.data, p.data, id)
  {
    hide BrokerKey, KeyId;
    RoundAnswers(p, req, force, rules, turn);
    OthersKeptFor(stored, p.data, rs, req.id);
    NeedsIsLocal(p.data, stored, req, force, rules, turn.now);
    forall id: I32 | id != req.id ensures SameFor(Round(p, req, force, rules, turn).value.data, p.data, id) {
      KeysHaveIds(id);
    }
  }

  /** Earlier rounds do not change what a later request needs. */
  lemma NeedsUnchanged(stored: Data, reqs: seq<Request>, req: Request, force: bool, rules: Rules, turns: seq<Turn>, now: int)
    requires |turns| == |reqs| && DistinctIds(reqs) && forall i :: 0 <= i < |reqs| ==> reqs[i].id != req.id
    requires Rounds(stored, reqs, force, rules, turns).Ok?
    ensures NeedsReissue(Rounds(stored, reqs, force, rules, turns).value.data, req, force, rules, now)
      == NeedsReissue(stored, req, force, rules, now)
  {
    LoopState(stored, reqs, force, rules, turns);
    OthersKeptFor(stored, Rounds(stored, reqs, force, rules, turns).value.data, reqs, req.id);
    NeedsIsLocal(Rounds(stored, reqs, force, rules, turns).value.data, stored, req, force, rules, now);
  }

  ghost predicate SomeFails(stored: Data, reqs: seq<Request>, force: bool, rules: Rules, turns: seq<Turn>)
    requires |turns| == |reqs|
  {
    Exists(reqs, turns, (req: Request, turn: Turn) => Fails(stored, req, force, rules, turn))
  }

  /** The loop fails exactly when some request fails on the stored map. */
  lemma {:induction false} LoopFailure(stored: Data, reqs: seq<Request>, force: bool, rules: Rules, turns: seq<Turn>)
    requires |turns| == |reqs| && DistinctIds(reqs)
    ensures Rounds(stored, reqs, force, rules, turns).Err? <==> SomeFails(stored, reqs, force, rules, turns)
  {
    hide BrokerKey, KeyId, NeedsReissue, PutAt;
    if reqs != [] {
      var n := |reqs| - 1;
      var rs, ts := reqs[..n], turns[..n];
      LoopFailure(stored, rs, force, rules, ts);
      ExistsGrows(reqs, turns, (req: Request, turn: Turn) => Fails(stored, req, force, rules, turn));
      var before := Rounds(stored, rs, force, rules, ts);
      if before.Ok? {
        RoundAnswers(before.value, reqs[n], force, rules, turns[n]);
        NeedsUnchanged(stored, rs, reqs[n], force, rules, ts, turns[n].now);
      }
    }
  }

  lemma AskedGrows(id: I32, stored: Data, reqs: seq<Request>, force: bool, rules: Rules, turns: seq<Turn>, anew: bool)
    requires |turns| == |reqs| > 0
    ensures var n := |reqs| - 1;
      Asked(id, stored, reqs, force, rules, turns, anew) <==>
        || Asked(id, stored, reqs[..n], force, rules, turns[..n], anew)
        || AsksFor(id, stored, reqs[n], force, rules, turns[n], anew)
  {
    hide AsksFor;
    ExistsGrows(reqs, turns, (req: Request, turn: Turn) => AsksFor(id, stored, req, force, rules, turn, anew));
  }

  /** A list of ids that is right for all but the last request becomes right for all of them. */
  lemma ListGrows(
    ids: seq<I32>, ids': seq<I32>, stored: Data, reqs: seq<Request>, force: bool, rules: Rules, turns: seq<Turn>, anew: bool)
    requires |turns| == |reqs| > 0
    requires var n := |reqs| - 1;
      && (forall id: I32 :: id in ids <==> Asked(id, stored, reqs[..n], force, rules, turns[..n], anew))
      && ids' == if NeedsReissue(stored, reqs[n], force, rules, turns[n].now) == Ok(anew) then ids + [reqs[n].id] else ids
    ensures forall id: I32 :: id in ids' <==> Asked(id, stored, reqs, force, rules, turns, anew)
  {
    hide NeedsReissue, Asked;
    forall id: I32 ensures id in ids' <==> Asked(id, stored, reqs, force, rules, turns, anew) {
      AskedGrows(id, stored, reqs, force, rules, turns, anew);
    }
  }

  /** Issued and reused ids partition the requests. */
  lemma {:induction false} LoopPartition(stored: Data, reqs: seq<Request>, force: bool, rules: Rules, turns: seq<Turn>)
    requires |turns| == |reqs| && DistinctIds(reqs) && Rounds(stored, reqs, force, rules, turns).Ok?
    ensures Split(Rounds(stored, reqs, force, rules, turns).value, stored, reqs, force, rules, turns)
  {
    hide BrokerKey, KeyId, NeedsReissue, PutAt, AsksFor;
    if reqs != [] {
      var n := |reqs| - 1;
      LoopPartition(stored, reqs[..n], force, rules, turns[..n]);
      NeedsUnchanged(stored, reqs[..n], reqs[n], force, rules, turns[..n], turns[n].now);
      var p, q := Rounds(stored, reqs[..n], force, rules, turns[..n]).value, Rounds(stored, reqs, force, rules, turns).value;
      ListGrows(p.issued, q.issued, stored, reqs, force, rules, turns, true);
      ListGrows(p.reused, q.reused, stored, reqs, force, rules, turns, false);
    }
  }

  // -------------------------------------------------------------- whole calls

  /**
   The written map: every request has a certificate, a key and its own digest,
   reused ones untouched; no other key starts with a broker id; every key that
   is not a broker's is as it was.
   */
  lemma KeystoreLoop(stored: Data, reqs: seq<Request>, force: bool, rules: Rules, turns: seq<Turn>)
    requires |turns| == |reqs| && DistinctIds(reqs)
    requires Rounds(stored, reqs, force, rules, turns).Ok?
    ensures var data := Retained(Rounds(stored, reqs, force, rules, turns).value.data, reqs);
      && (forall i :: 0 <= i < |reqs| ==>
            && Answered(stored, data, reqs[i], force, rules, turns[i])
            && CertKey(reqs[i].id) in data && KeyKey(reqs[i].id) in data
            && DigestKey(reqs[i].id) in data && data[DigestKey(reqs[i].id)] == Utf8(Digest(reqs[i], rules)))
      && (forall k :: k in data && KeyId(k).Some? ==> Wanted(reqs, k))
      && (forall k :: KeyId(k).None? ==> Same(data, stored, k))
  {
    hide BrokerKey, KeyId;
    LoopState(stored, reqs, force, rules, turns);
    var done := Rounds(stored, reqs, force, rules, turns).value.data;
    var data := Retained(done, reqs);
    forall i | 0 <= i < |reqs|
      ensures Answered(stored, data, reqs[i], force, rules, turns[i])
    {
      var id := reqs[i].id;
      assert CertKey(id) in KeysOf(id) && KeyKey(id) in KeysOf(id) && DigestKey(id) in KeysOf(id);
      assert Wanted(reqs, CertKey(id)) && Wanted(reqs, KeyKey(id)) && Wanted(reqs, DigestKey(id));
      AnsweredElsewhere(stored, done, data, reqs[i], force, rules, turns[i]);
    }
    forall k | KeyId(k).None? ensures Same(data, stored, k) {
      assert Same(done, stored, k);
    }
  }

  /**
   When a request gets a new leaf: on force, when its certificate, key or digest
   is missing or the digest is another one, when the certificate is no text, and
   when it ends within the renewal window.
   */
  ghost predicate LeafIsDue(stored: Data, req: Request, force: bool, rules: Rules, now: int)
  {
    || force
    || CertKey(req.id) !in stored || KeyKey(req.id) !in stored || DigestKey(req.id) !in stored
    || stored[DigestKey(req.id)] != Utf8(Digest(req, rules))
    || stored[CertKey(req.id)].Binary?
    || (rules.notAfter(stored[CertKey(req.id)].text).Some?
        && rules.notAfter(stored[CertKey(req.id)].text).value <= now + rules.renewal)
  }

  lemma AnsweredAsDue(stored: Data, data: Data, req: Request, force: bool, rules: Rules, turn: Turn)
    requires Answered(stored, data, req, force, rules, turn)
    ensures
      if LeafIsDue(stored, req, force, rules, turn.now)
      then turn.leaf.Some? && Holds(data, req.id, turn.leaf.value, Digest(req, rules))
      else SameFor(data, stored, req.id)
  {
    hide BrokerKey, Digest;
  }

  /** After a call exactly the requests for which one was due have a new leaf, and the others what they had. */
  lemma NewLeafWhenDue(stored: Data, reqs: seq<Request>, force: bool, rules: Rules, turns: seq<Turn>, i: nat)
    requires |turns| == |reqs| && DistinctIds(reqs) && i < |reqs|
    requires Rounds(stored, reqs, force, rules, turns).Ok?
    ensures
      var data := Retained(Rounds(stored, reqs, force, rules, turns).value.data, reqs);
      if LeafIsDue(stored, reqs[i], force, rules, turns[i].now)
      then turns[i].leaf.Some? && Holds(data, reqs[i].id, turns[i].leaf.value, Digest(reqs[i], rules))
      else SameFor(data, stored, reqs[i].id)
  {
    hide BrokerKey, KeyId, NeedsReissue, PutAt, LeafIsDue, SameFor, Holds, Answered;
    KeystoreLoop(stored, reqs, force, rules, turns);
    AnsweredAsDue(stored, Retained(Rounds(stored, reqs, force, rules, turns).value.data, reqs), reqs[i], force, rules, turns[i]);
  }

  /** The reported pruned ids are those of the broker keys that the call removed. */
  lemma PrunedIds(stored: Data, reqs: seq<Request>, force: bool, rules: Rules, turns: seq<Turn>, id: int)
    requires |turns| == |reqs| && DistinctIds(reqs) && Rounds(stored, reqs, force, rules, turns).Ok?
    ensures
      var done := Rounds(stored, reqs, force, rules, turns).value.data;
      id in StrayIds(done, reqs) <==>
        exists k :: k in done && k !in Retained(done, reqs) && KeyId(k) == Some(id)
  {
    hide BrokerKey, KeyId, Rounds, Wanted;
    var done := Rounds(stored, reqs, force, rules, turns).value.data;
    if id in StrayIds(done, reqs) {
      var k :| k in done && Stray(reqs, k) && KeyId(k).value == id;
      assert k !in Retained(done, reqs) && KeyId(k) == Some(id);
    }
  }

  /** The signer of the certificate served to a broker. */
  ghost function SignerAt(data: Data, id: I32, signerOf: string -> nat): (k: Option<nat>)
  {
    if CertKey(id) in data && data[CertKey(id)].Utf8? then Some(signerOf(data[CertKey(id)].text)) else None
  }

  /**
   The step the trust argument relies on: after a call every requested broker
   is served a leaf of the signing key, or, in an unforced call only, the leaf
   it was served before.
   */
  lemma ServedSigners(
    stored: Data, reqs: seq<Request>, force: bool, rules: Rules, turns: seq<Turn>, signerOf: string -> nat, key: nat, i: nat)
    requires |turns| == |reqs| && DistinctIds(reqs) && i < |reqs|
    requires Rounds(stored, reqs, force, rules, turns).Ok?
    requires forall j :: 0 <= j < |turns| && turns[j].leaf.Some? ==> signerOf(turns[j].leaf.value.cert) == key
    ensures var data := Retained(Rounds(stored, reqs, force, rules, turns).value.data, reqs);
      var before, after := SignerAt(stored, reqs[i].id, signerOf), SignerAt(data, reqs[i].id, signerOf);
      after == Some(key) || (!force && before.Some? && after == before)
  {
    hide BrokerKey, KeyId;
    KeystoreLoop(stored, reqs, force, rules, turns);
    var data := Retained(Rounds(stored, reqs, force, rules, turns).value.data, reqs);
    assert Answered(stored, data, reqs[i], force, rules, turns[i]);
  }

  /** A request that a call leaves alone. */
  ghost predicate Settled(data: Data, req: Request, rules: Rules, now: int)
  {
    NeedsReissue(data, req, false, rules, now) == Ok(false)
  }

  ghost predicate Quiet(stored: Data, reqs: seq<Request>, force: bool, rules: Rules, turns: seq<Turn>)
    requires |turns| == |reqs|
  {
    var r := Rounds(stored, reqs, force, rules, turns);
    && r.Ok? && r.value.issued == [] && |r.value.reused| == |reqs|
    && Retained(r.value.data, reqs) == stored && StrayIds(r.value.data, reqs) == {}
  }

  lemma {:induction false} SettledRounds(stored: Data, reqs: seq<Request>, rules: Rules, turns: seq<Turn>)
    requires |turns| == |reqs|
    requires forall i :: 0 <= i < |reqs| ==> Settled(stored, reqs[i], rules, turns[i].now)
    ensures var r := Rounds(stored, reqs, false, rules, turns);
      r.Ok? && r.value.data == stored && r.value.issued == [] && |r.value.reused| == |reqs|
  {
    hide BrokerKey, KeyId;
    if reqs != [] {
      var n := |reqs| - 1;
      assert forall i :: 0 <= i < n ==> reqs[..n][i] == reqs[i] && turns[..n][i] == turns[i];
      SettledRounds(stored, reqs[..n], rules, turns[..n]);
    }
  }

  /**
   A call issues nothing, prunes nothing and writes back the map it read
   exactly when it is unforced or has no requests, every request is settled
   and no key is stray.
   */
  lemma QuietIff(stored: Data, reqs: seq<Request>, force: bool, rules: Rules, turns: seq<Turn>)
    requires |turns| == |reqs| && DistinctIds(reqs)
    ensures Quiet(stored, reqs, force, rules, turns) <==>
      && (!force || reqs == [])
      && (forall i :: 0 <= i < |reqs| ==> Settled(stored, reqs[i], rules, turns[i].now))
      && (forall k :: k in stored ==> !Stray(reqs, k))
  {
    hide BrokerKey, KeyId;
    if (!force || reqs == []) && (forall i :: 0 <= i < |reqs| ==> Settled(stored, reqs[i], rules, turns[i].now))
       && (forall k :: k in stored ==> !Stray(reqs, k))
    {
      SettledRounds(stored, reqs, rules, turns);
      assert Retained(stored, reqs) == stored;
      assert StrayIds(stored, reqs) == {};
    }
    if Quiet(stored, reqs, force, rules, turns) {
      QuietMeansSettled(stored, reqs, force, rules, turns);
    }
  }

  lemma QuietMeansSettled(stored: Data, reqs: seq<Request>, force: bool, rules: Rules, turns: seq<Turn>)
    requires |turns| == |reqs| && DistinctIds(reqs) && Quiet(stored, reqs, force, rules, turns)
    ensures !force || reqs == []
    ensures forall i :: 0 <= i < |reqs| ==> Settled(stored, reqs[i], rules, turns[i].now)
    ensures forall k :: k in stored ==> !Stray(reqs, k)
  {
    hide BrokerKey, KeyId;
    LoopPartition(stored, reqs, force, rules, turns);
    LoopState(stored, reqs, force, rules, turns);
    forall i | 0 <= i < |reqs|
      ensures !force && Settled(stored, reqs[i], rules, turns[i].now)
    {
      assert Answered(stored, Rounds(stored, reqs, force, rules, turns).value.data, reqs[i], force, rules, turns[i]);
      assert !Asked(reqs[i].id, stored, reqs, force, rules, turns, true);
      assert !AsksFor(reqs[i].id, stored, reqs[i], force, rules, turns[i], true);
    }
    forall k | k in stored ensures !Stray(reqs, k) {
      assert k in Retained(Rounds(stored, reqs, force, rules, turns).value.data, reqs);
    }
  }

  /** The leaf the issuer hands out, if any, outlives the renewal window as measured at its own issue. */
  ghost predicate LongLived(turn: Turn, rules: Rules)
  {
    turn.leaf.Some? ==>
      var end := rules.notAfter(turn.leaf.value.cert);
      end.Some? && end.value - turn.now > rules.renewal
  }

  lemma HoldsSettles(data: Data, req: Request, rules: Rules, leaf: Leaf, now: int)
    requires Holds(data, req.id, leaf, Digest(req, rules))
    requires rules.notAfter(leaf.cert).Some? && rules.notAfter(leaf.cert).value - now > rules.renewal
    ensures Settled(data, req, rules, now)
  {
  }

  lemma AnsweredSettles(stored: Data, data: Data, req: Request, force: bool, rules: Rules, turn: Turn)
    requires Answered(stored, data, req, force, rules, turn)
    requires LongLived(turn, rules)
    ensures Settled(data, req, rules, turn.now)
  {
    if NeedsReissue(stored, req, force, rules, turn.now) == Ok(false) {
      NeedsIsLocal(data, stored, req, force, rules, turn.now);
    }
  }

  lemma CallSettles(stored: Data, reqs: seq<Request>, force: bool, rules: Rules, turns: seq<Turn>)
    requires |turns| == |reqs| && DistinctIds(reqs)
    requires forall i :: 0 <= i < |turns| ==> LongLived(turns[i], rules)
    requires Rounds(stored, reqs, force, rules, turns).Ok?
    ensures var data := Retained(Rounds(stored, reqs, force, rules, turns).value.data, reqs);
      && (forall i :: 0 <= i < |reqs| ==> Settled(data, reqs[i], rules, turns[i].now))
      && (forall k :: k in data ==> !Stray(reqs, k))
  {
    KeystoreLoop(stored, reqs, force, rules, turns);
    var data := Retained(Rounds(stored, reqs, force, rules, turns).value.data, reqs);
    forall i | 0 <= i < |reqs| ensures Settled(data, reqs[i], rules, turns[i].now) {
      AnsweredSettles(stored, data, reqs[i], force, rules, turns[i]);
    }
  }

  lemma SettledIsFresh(data: Data, req: Request, rules: Rules, now: int)
    requires Settled(data, req, rules, now)
    ensures CertKey(req.id) in data && data[CertKey(req.id)].Utf8?
    ensures rules.notAfter(data[CertKey(req.id)].text).Some?
      && rules.notAfter(data[CertKey(req.id)].text).value > now + rules.renewal
  {
    hide BrokerKey, Digest;
  }

  /** When issued leaves outlive the renewal window, every certificate a call leaves behind is outside it. */
  lemma ServedIsFresh(stored: Data, reqs: seq<Request>, force: bool, rules: Rules, turns: seq<Turn>, i: nat)
    requires |turns| == |reqs| && DistinctIds(reqs) && i < |reqs|
    requires forall i :: 0 <= i < |turns| ==> LongLived(turns[i], rules)
    requires Rounds(stored, reqs, force, rules, turns).Ok?
    ensures
      var data := Retained(Rounds(stored, reqs, force, rules, turns).value.data, reqs);
      && CertKey(reqs[i].id) in data && data[CertKey(reqs[i].id)].Utf8?
      && rules.notAfter(data[CertKey(reqs[i].id)].text).Some?
      && rules.notAfter(data[CertKey(reqs[i].id)].text).value > turns[i].now + rules.renewal
  {
    hide BrokerKey, KeyId, NeedsReissue, Rounds, Retained, LongLived;
    CallSettles(stored, reqs, force, rules, turns);
    SettledIsFresh(Retained(Rounds(stored, reqs, force, rules, turns).value.data, reqs), reqs[i], rules, turns[i].now);
  }

  /**
   A second, unforced call, at any later time, issues nothing, prunes nothing
   and writes the same map exactly when every certificate the first call left
   is still outside its renewal window.
   */
  lemma SecondCallQuietIff(
    stored: Data, reqs: seq<Request>, force: bool, rules: Rules, turns: seq<Turn>, turns': seq<Turn>)
    requires |turns| == |turns'| == |reqs| && DistinctIds(reqs)
    requires Rounds(stored, reqs, force, rules, turns).Ok?
    ensures var data := Retained(Rounds(stored, reqs, force, rules, turns).value.data, reqs);
      Quiet(data, reqs, false, rules, turns') <==>
        forall i :: 0 <= i < |reqs| ==> Expiring(data, reqs[i].id, rules, turns'[i].now) == Ok(false)
  {
    hide BrokerKey, KeyId, Expiring, Quiet;
    KeystoreLoop(stored, reqs, force, rules, turns);
    var data := Retained(Rounds(stored, reqs, force, rules, turns).value.data, reqs);
    QuietIff(data, reqs, false, rules, turns');
    forall i | 0 <= i < |reqs|
      ensures Settled(data, reqs[i], rules, turns'[i].now) <==> Expiring(data, reqs[i].id, rules, turns'[i].now) == Ok(false)
    {
      assert CertKey(reqs[i].id) in data;
    }
  }

  /**
   An immediate unforced second call issues nothing, prunes nothing, writes the
   same map and reports the same leaf material, so the rollout hash stays.
   */
  lemma SecondCallIsQuiet(
    stored: Data, reqs: seq<Request>, force: bool, rules: Rules, turns: seq<Turn>, turns': seq<Turn>, m: string, m': string)
    requires |turns| == |turns'| == |reqs| && DistinctIds(reqs)
    requires forall i :: 0 <= i < |turns| ==> LongLived(turns[i], rules)
    requires forall i :: 0 <= i < |reqs| ==> turns'[i].now == turns[i].now
    requires Rounds(stored, reqs, force, rules, turns).Ok?
    ensures var data := Retained(Rounds(stored, reqs, force, rules, turns).value.data, reqs);
      && Quiet(data, reqs, false, rules, turns')
      && (IsMaterial(data, m) && IsMaterial(Retained(Rounds(data, reqs, false, rules, turns').value.data, reqs), m') ==> m == m')
  {
    CallSettles(stored, reqs, force, rules, turns);
    var data := Retained(Rounds(stored, reqs, force, rules, turns).value.data, reqs);
    QuietIff(data, reqs, false, rules, turns');
    if IsMaterial(data, m) && IsMaterial(data, m') {
      MaterialUnique(data, m, m');
    }
  }
}
