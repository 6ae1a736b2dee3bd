/** TLS user Secrets: one user's certificate kept or reissued, and the batch over all live users. */
module UserSecrets {
  import opened Options
  import opened CaRotation

  datatype UserCert = UserCert(signer: Key, notAfter: int)

  /** `cert` is absent when `user.crt` is missing or does not parse. */
  datatype UserSecret = UserSecret(cert: Option<UserCert>, trust: seq<Cert>)

  datatype Authentication = Tls(validity: nat, renewal: nat) | Scram

  datatype KafkaUser = KafkaUser(name: string, deleting: bool, authentication: Authentication)

  /** The certificate the leaf is checked against, the key that signs, and the bundle to hand out. */
  datatype Signing = Signing(certKey: Key, key: Key, bundle: seq<Cert>)

  predicate Reusable(cert: Option<UserCert>, ca: Signing, renewal: nat, now: int)
  {
    cert.Some? && !(cert.value.notAfter <= now + renewal) && cert.value.signer == ca.certKey
  }

  function EnsuredSecret(existing: Option<UserSecret>, ca: Signing, validity: nat, renewal: nat, now: int): (r: UserSecret)
  {
    if existing.Some? && Reusable(existing.value.cert, ca, renewal, now)
    then existing.value.(trust := ca.bundle)
    else UserSecret(Some(UserCert(ca.key, now + validity)), ca.bundle)
  }

  /** The signer of the leaf that results, given whether the current leaf is about to expire. */
  function EnsuredSigner(current: Option<Key>, expiring: bool, certKey: Key, key: Key): (k: Key)
  {
    if current == Some(certKey) && !expiring then certKey else key
  }

  function SignerIn(s: Option<UserSecret>): (k: Option<Key>)
  {
    if s.Some? && s.value.cert.Some? then Some(s.value.cert.value.signer) else None
  }

  lemma EnsuredSecretSigner(existing: Option<UserSecret>, ca: Signing, validity: nat, renewal: nat, now: int)
    ensures
      var expiring := existing.Some? && existing.value.cert.Some? && existing.value.cert.value.notAfter <= now + renewal;
      SignerIn(Some(EnsuredSecret(existing, ca, validity, renewal, now)))
        == Some(EnsuredSigner(SignerIn(existing), expiring, ca.certKey, ca.key))
  {
  }

  /**
   What a user ends up with: the leaf it had, exactly when that is signed by the
   checked key and not within the renewal window, and otherwise a new one of the
   signing key that runs for the whole validity.  Either way the leaf is outside
   the window when the validity exceeds it.
   */
  lemma EnsuredLeaf(existing: Option<UserSecret>, ca: Signing, validity: nat, renewal: nat, now: int)
    ensures
      var r := EnsuredSecret(existing, ca, validity, renewal, now);
      var good := existing.Some? && existing.value.cert.Some? && existing.value.cert.value.signer == ca.certKey
                  && existing.value.cert.value.notAfter > now + renewal;
      && r.trust == ca.bundle
      && r.cert == (if good then existing.value.cert else Some(UserCert(ca.key, now + validity)))
      && (validity > renewal ==> r.cert.value.notAfter > now + renewal)
  {
  }

  predicate Live(u: KafkaUser)
  {
    !u.deleting && u.authentication.Tls?
  }

  function Lookup(m: map<string, UserSecret>, n: string): (r: Option<UserSecret>)
  {
    if n in m then Some(m[n]) else None
  }

  /** Whether ensuring this user sends a patch. */
  predicate NeedsPatch(m: map<string, UserSecret>, u: KafkaUser, ca: Signing, now: int)
    requires Live(u)
  {
    !(u.name in m && Reusable(m[u.name].cert, ca, u.authentication.renewal, now) && m[u.name].trust == ca.bundle)
  }

  /** The Secrets after the whole batch, and the number of certificates it issued. */
  function Batch(m: map<string, UserSecret>, users: seq<KafkaUser>, ca: Signing, now: int): (r: (map<string, UserSecret>, nat))
  {
    if users == [] then (m, 0)
    else
      var (m1, n1) := Batch(m, users[..|users| - 1], ca, now);
      var u := users[|users| - 1];
      if !Live(u) then (m1, n1)
      else
        var before := Lookup(m1, u.name);
        var issued := !(before.Some? && Reusable(before.value.cert, ca, u.authentication.renewal, now));
        (m1[u.name := EnsuredSecret(before, ca, u.authentication.validity, u.authentication.renewal, now)],
         n1 + if issued then 1 else 0)
  }

  /** With paired signing material, a finished batch leaves every live user on the signing key and the bundle. */
  lemma {:induction false} BatchConverges(m: map<string, UserSecret>, users: seq<KafkaUser>, ca: Signing, now: int, i: nat)
    requires ca.certKey == ca.key && i < |users| && !users[i].deleting && users[i].authentication.Tls?
    ensures
      var r := Batch(m, users, ca, now).0;
      && users[i].name in r
      && r[users[i].name].trust == ca.bundle
      && SignerIn(Some(r[users[i].name])) == Some(ca.key)
  {
    var last := |users| - 1;
    if i < last {
      BatchConverges(m, users[..last], ca, now, i);
      assert users[..last][i] == users[i];
    }
  }

  /** The Secrets of users that the batch does not name, or that are being deleted or use no TLS, stay as they are. */
  lemma {:induction false} BatchFrame(m: map<string, UserSecret>, users: seq<KafkaUser>, ca: Signing, now: int, n: string)
    requires forall i :: 0 <= i < |users| && users[i].name == n ==> users[i].deleting || users[i].authentication.Scram?
    ensures Lookup(Batch(m, users, ca, now).0, n) == Lookup(m, n)
  {
    if users != [] {
      BatchFrame(m, users[..|users| - 1], ca, now, n);
    }
  }

  /** The stored leaf of a live user is missing, foreign or within its renewal window. */
  predicate Lacks(m: map<string, UserSecret>, u: KafkaUser, ca: Signing, now: int)
  {
    && Live(u)
    && !(u.name in m && m[u.name].cert.Some? && m[u.name].cert.value.signer == ca.certKey
         && m[u.name].cert.value.notAfter > now + u.authentication.renewal)
  }

  /** How many of the users lack a good leaf, judged on the Secrets before the batch. */
  function Lacking(m: map<string, UserSecret>, users: seq<KafkaUser>, ca: Signing, now: int): (n: nat)
  {
    if users == [] then 0
    else Lacking(m, users[..|users| - 1], ca, now) + if Lacks(m, users[|users| - 1], ca, now) then 1 else 0
  }

  lemma LacksIsLocal(m: map<string, UserSecret>, m': map<string, UserSecret>, u: KafkaUser, ca: Signing, now: int)
    requires Live(u) && Lookup(m, u.name) == Lookup(m', u.name)
    ensures Lacks(m, u, ca, now)
      <==> !(Lookup(m', u.name).Some? && Reusable(Lookup(m', u.name).value.cert, ca, u.authentication.renewal, now))
  {
  }

  /** The reported count is the number of users that lacked a good leaf. */
  lemma {:induction false} BatchCounts(m: map<string, UserSecret>, users: seq<KafkaUser>, ca: Signing, now: int)
    requires forall i, j :: 0 <= i < j < |users| ==> users[i].name != users[j].name
    ensures Batch(m, users, ca, now).1 == Lacking(m, users, ca, now)
  {
    hide Lacks, Reusable, EnsuredSecret;
    if users != [] {
      var last := |users| - 1;
      BatchCounts(m, users[..last], ca, now);
      BatchFrame(m, users[..last], ca, now, users[last].name);
      if Live(users[last]) {
        LacksIsLocal(m, Batch(m, users[..last], ca, now).0, users[last], ca, now);
      } else {
        OnlyLiveLack(m, users[last], ca, now);
      }
    }
  }

  lemma OnlyLiveLack(m: map<string, UserSecret>, u: KafkaUser, ca: Signing, now: int)
    ensures Lacks(m, u, ca, now) ==> Live(u)
  {
  }

  class UserSecretStore {
    var secrets: map<string, UserSecret>

    constructor (initial: map<string, UserSecret>)
      ensures secrets == initial
    {
      secrets := initial;
    }

    /** Keeps or reissues one user's Secret; `ok` is whether the API server accepts a patch. */
    method Ensure(u: KafkaUser, ca: Signing, now: int, ok: bool) returns (issued: Result<bool, CaError>)
      requires Live(u)
      modifies this
      ensures
        var before := Lookup(old(secrets), u.name);
        var reused := before.Some? && Reusable(before.value.cert, ca, u.authentication.renewal, now);
        var needs := NeedsPatch(old(secrets), u, ca, now);
        && (ok || !needs ==>
              && issued == Ok(!reused)
              && secrets == old(secrets)[u.name := EnsuredSecret(before, ca, u.authentication.validity, u.authentication.renewal, now)])
        && (!ok && needs ==> issued == Err(ApiFailure) && secrets == old(secrets))
    {
      if u.name in secrets && Reusable(secrets[u.name].cert, ca, u.authentication.renewal, now) {
        if secrets[u.name].trust != ca.bundle {
          if !ok { return Err(ApiFailure); }
          secrets := secrets[u.name := secrets[u.name].(trust := ca.bundle)];
        }
        assert secrets == secrets[u.name := secrets[u.name]];
        return Ok(false);
      }
      if !ok { return Err(ApiFailure); }
      secrets := secrets[u.name := UserSecret(Some(UserCert(ca.key, now + u.authentication.validity)), ca.bundle)];
      return Ok(true);
    }

    /**
     The batch over all live TLS users.  The API server stops accepting patches
     at the user with index `failAt`; a user that needs none does not notice.
     */
    method Reissue(users: seq<KafkaUser>, ca: Signing, now: int, failAt: nat) returns (r: Result<nat, CaError>)
      modifies this
      ensures r.Ok? ==> (secrets, r.value) == Batch(old(secrets), users, ca, now)
      ensures failAt >= |users| ==> r.Ok?
      ensures r.Err? ==> exists k :: 0 <= k < |users| && secrets == Batch(old(secrets), users[..k], ca, now).0
    {
      var issued := 0;
      for i := 0 to |users|
        invariant (secrets, issued) == Batch(old(secrets), users[..i], ca, now)
      {
        assert users[..i + 1][..i] == users[..i];
        var u := users[i];
        if Live(u) {
          var one := Ensure(u, ca, now, i < failAt);
          if one.Err? {
            return Err(one.error);
          }
          issued := issued + if one.value then 1 else 0;
        }
      }
      assert users[..|users|] == users;
      r := Ok(issued);
    }
  }
}
