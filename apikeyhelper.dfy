/**
 * `ApiKeyHelper`: issues, rotates and revokes API-key rows. The table keeps only the
 * HMAC digest of a key; the plaintext is handed back once, in the record returned by the
 * call that generated it.
 *
 * Collaborators are inputs: the keyed hash and the regular-expression compiler are
 * function-valued fields fixed at construction, the random token and the clock are
 * arguments, and each fault of the random source, the hash writer or the store is a flag.
 */
module ApiKeyHelper {

  import opened Errors
  import opened Hex
  import opened Text
  import opened Models
  import opened Dal

  /** `apiKeyLen`: the length of the random token behind every key. */
  const ApiKeyLen := 128

  /** A SHA-256 sized MAC tag. */
  type Tag = s: seq<byte> | |s| == 32 witness seq(32, _ => 0 as byte)

  /** HMAC-SHA256 (RFC 2104 over FIPS 180-4) keyed with the first string, over the bytes of the second. */
  type Hmac = (string, string) -> Tag

  /** What `utils.RandLetterBytes(apiKeyLen)` yields: a token, or an error of the random source. */
  datatype Entropy = Letters(token: string) | EntropyFault

  /** The two results of `generateApiKey`. */
  datatype KeyPair = KeyPair(plaintext: string, digest: string)

  /** The trimmed `ENCRYPTION_SECRET`; None where `NewApiKeyHelper` panics. */
  function EncryptionSecret(raw: string): (r: Option<string>)
    ensures r.None? <==> AllSpace(raw)
    ensures r.Some? ==> r.value == TrimSpace(raw)
    ensures r.Some? ==> r.value != "" && !IsSpace(r.value[0]) && !IsSpace(r.value[|r.value| - 1])
  {
    var secret := TrimSpace(raw);
    if secret == "" then None else Some(secret)
  }

  /** The `type` tag of keys issued for a plugin. */
  function PluginType(pluginName: string): string {
    "plugin:" + pluginName
  }

  /** The filter `DeleteForPlugin` applies: an empty argument adds no condition. */
  predicate PluginKeyMatches(rec: ApiKey, pluginName: string, extra: string) {
    && (pluginName != "" ==> rec.keyType == PluginType(pluginName))
    && (extra != "" ==> rec.extra == extra)
  }

  /** The clauses `DeleteForPlugin` appends select exactly the rows the plugin filter matches. */
  lemma PluginClausesMatch(clauses: seq<Clause>, pluginName: string, extra: string)
    requires clauses == (if pluginName != "" then [TypeIs(PluginType(pluginName))] else [])
                        + (if extra != "" then [ExtraIs(extra)] else [])
    ensures forall rec :: SatisfiesAll(rec, clauses) <==> PluginKeyMatches(rec, pluginName, extra)
  {
    forall rec: ApiKey ensures SatisfiesAll(rec, clauses) <==> PluginKeyMatches(rec, pluginName, extra) {
      if pluginName != "" { assert TypeIs(PluginType(pluginName)) in clauses; }
      if extra != "" { assert ExtraIs(extra) in clauses; }
    }
  }

  /** Row `k` is the first row the plugin filter matches. */
  predicate IsFirstPluginMatch(rows: seq<ApiKey>, k: int, pluginName: string, extra: string) {
    && 0 <= k < |rows|
    && PluginKeyMatches(rows[k], pluginName, extra)
    && forall j :: 0 <= j < k ==> !PluginKeyMatches(rows[j], pluginName, extra)
  }

  /** Creator and updater come from the acting user, and stay empty without one. */
  predicate StampedBy(rec: ApiKey, user: Option<User>) {
    match user
    case Some(u) =>
      rec.creator == u.name && rec.creatorEmail == u.email && rec.updater == u.name && rec.updaterEmail == u.email
    case None =>
      rec.creator == "" && rec.creatorEmail == "" && rec.updater == "" && rec.updaterEmail == ""
  }

  /**
   * `after` is `before` rotated: a new digest, the update time, and the acting user as
   * updater when there is one; every other field is kept.
   */
  predicate RotatedFrom(before: ApiKey, after: ApiKey, digest: string, user: Option<User>, now: int) {
    after == before.(
      apiKey := digest,
      updatedAt := now,
      updater := if user.Some? then user.value.name else before.updater,
      updaterEmail := if user.Some? then user.value.email else before.updaterEmail)
  }

  class ApiKeyHelper {
    /** What `basicRes.GetDal()` returns. */
    const dal: Table
    const encryptionSecret: string
    const hmac: Hmac
    /** Whether `regexp.Compile` accepts a pattern. */
    const compiles: string -> bool

    constructor (dal: Table, encryptionSecret: string, hmac: Hmac, compiles: string -> bool)
      requires encryptionSecret != "" && TrimSpace(encryptionSecret) == encryptionSecret
      ensures this.dal == dal && this.encryptionSecret == encryptionSecret
      ensures this.hmac == hmac && this.compiles == compiles
    {
      this.dal := dal;
      this.encryptionSecret := encryptionSecret;
      this.hmac := hmac;
      this.compiles := compiles;
    }

    /** The stored form of a token: the `%x` rendering of its HMAC under the server secret. */
    function Digest(token: string): (d: string)
      ensures |d| == 64 && IsLowerHex(d)
    {
      Encode(hmac(encryptionSecret, token))
    }

    /** Tokens whose MAC tags differ get different stored digests. */
    lemma DigestInjective(t1: string, t2: string)
      requires hmac(encryptionSecret, t1) != hmac(encryptionSecret, t2)
      ensures Digest(t1) != Digest(t2)
    {
      EncodeInjective(hmac(encryptionSecret, t1), hmac(encryptionSecret, t2));
    }

    /** `DigestToken`: fails only when writing to the hash fails. */
    function DigestToken(token: string, writeFault: bool): (r: Result<string, Kind>)
      ensures r.Ok? <==> !writeFault
      ensures r.Err? ==> r.error == Default
      ensures r.Ok? ==> r.value == Digest(token) && |r.value| == 64 && IsLowerHex(r.value)
    {
      if writeFault then Err(Default) else Ok(Digest(token))
    }

    /** `generateApiKey`: a fresh token and its digest, which can never be equal. */
    function GenerateApiKey(entropy: Entropy, writeFault: bool): (r: Result<KeyPair, Kind>)
      requires entropy.Letters? ==> |entropy.token| == ApiKeyLen
      ensures r.Ok? <==> entropy.Letters? && !writeFault
      ensures r.Err? ==> r.error == Default
      ensures r.Ok? ==> r.value.plaintext == entropy.token && r.value.digest == Digest(entropy.token)
      ensures r.Ok? ==> |r.value.plaintext| == ApiKeyLen && r.value.digest != r.value.plaintext
    {
      match entropy
      case EntropyFault => Err(Default)
      case Letters(token) =>
        match DigestToken(token, writeFault)
        case Err(e) => Err(e)
        case Ok(digest) => Ok(KeyPair(token, digest))
    }

    /**
     * What `Create` does, given the rows and next id before the call: checks in source order
     * (pattern, key generation, unique name, store fault), and on success appends one row that
     * holds the digest while the returned record holds the plaintext.
     */
    predicate CreateOutcome(
      before: seq<ApiKey>, nextId: nat, after: seq<ApiKey>, r: Result<ApiKey, Kind>,
      user: Option<User>, name: string, expiredAt: Option<int>, allowedPath: string, apiKeyType: string, extra: string,
      entropy: Entropy, writeFault: bool, now: int, storeFault: bool)
    {
      if !compiles(allowedPath) then r == Err(Default) && after == before
      else if entropy.EntropyFault? || writeFault then r == Err(Default) && after == before
      else if NameTaken(before, name) then r == Err(BadInput) && after == before
      else if storeFault then r == Err(Default) && after == before
      else
        && r.Ok?
        && after == before + [r.value.(apiKey := Digest(entropy.token))]
        && r.value.apiKey == entropy.token
        && r.value.id == nextId
        && r.value.name == name
        && r.value.expiredAt == expiredAt
        && r.value.allowedPath == allowedPath
        && r.value.keyType == apiKeyType
        && r.value.extra == extra
        && r.value.createdAt == now && r.value.updatedAt == now
        && StampedBy(r.value, user)
    }

    method Create(
      tx: Table, user: Option<User>, name: string, expiredAt: Option<int>, allowedPath: string, apiKeyType: string, extra: string,
      entropy: Entropy, writeFault: bool, now: int, storeFault: bool)
      returns (r: Result<ApiKey, Kind>)
      requires tx.Valid()
      requires entropy.Letters? ==> |entropy.token| == ApiKeyLen
      modifies tx
      ensures tx.Valid()
      ensures CreateOutcome(old(tx.rows), old(tx.nextId), tx.rows, r,
                user, name, expiredAt, allowedPath, apiKeyType, extra, entropy, writeFault, now, storeFault)
      ensures r.Ok? ==> tx.rows[|tx.rows| - 1].apiKey == Digest(r.value.apiKey) && tx.rows[|tx.rows| - 1] != r.value
    {
      if !compiles(allowedPath) {
        return Err(Default);
      }
      var keys := GenerateApiKey(entropy, writeFault);
      if keys.Err? {
        return Err(keys.error);
      }
      var record := ApiKey(0, now, now, "", "", "", "", name, keys.value.digest, expiredAt, allowedPath, apiKeyType, extra);
      if user.Some? {
        record := record.(creator := user.value.name, creatorEmail := user.value.email);
        record := record.(updater := user.value.name, updaterEmail := user.value.email);
      }
      var created := tx.Insert(record, storeFault);
      if created.Err? {
        if created.error == Duplication {
          return Err(BadInput);
        }
        return Err(Default);
      }
      record := record.(id := created.value);
      record := record.(apiKey := keys.value.plaintext);
      return Ok(record);
    }

    /** As written: the plugin tag lands in `allowedPath` and the caller's path in `type`. */
    method CreateForPlugin(
      tx: Table, user: Option<User>, name: string, pluginName: string, allowedPath: string, extra: string,
      entropy: Entropy, writeFault: bool, now: int, storeFault: bool)
      returns (r: Result<ApiKey, Kind>)
      requires tx.Valid()
      requires entropy.Letters? ==> |entropy.token| == ApiKeyLen
      modifies tx
      ensures tx.Valid()
      ensures CreateOutcome(old(tx.rows), old(tx.nextId), tx.rows, r,
                user, name, None, PluginType(pluginName), allowedPath, extra, entropy, writeFault, now, storeFault)
      ensures r.Ok? && pluginName != "" && allowedPath != PluginType(pluginName) ==>
                !PluginKeyMatches(tx.rows[|tx.rows| - 1], pluginName, extra)
    {
      r := Create(tx, user, name, None, PluginType(pluginName), allowedPath, extra, entropy, writeFault, now, storeFault);
    }

    /** `CreateForPlugin` with the arguments in the order `Create` declares them. */
    method CreateForPluginCorrected(
      tx: Table, user: Option<User>, name: string, pluginName: string, allowedPath: string, extra: string,
      entropy: Entropy, writeFault: bool, now: int, storeFault: bool)
      returns (r: Result<ApiKey, Kind>)
      requires tx.Valid()
      requires entropy.Letters? ==> |entropy.token| == ApiKeyLen
      modifies tx
      ensures tx.Valid()
      ensures CreateOutcome(old(tx.rows), old(tx.nextId), tx.rows, r,
                user, name, None, allowedPath, PluginType(pluginName), extra, entropy, writeFault, now, storeFault)
      ensures r.Ok? ==> PluginKeyMatches(tx.rows[|tx.rows| - 1], pluginName, extra)
    {
      r := Create(tx, user, name, None, allowedPath, PluginType(pluginName), extra, entropy, writeFault, now, storeFault);
    }

    /** `getApiKeyById`: the first row with this id that also meets the extra clauses. */
    method GetApiKeyById(tx: Table, id: nat, more: seq<Clause>, fault: bool) returns (r: Result<ApiKey, Kind>)
      ensures fault ==> r == Err(Default)
      ensures !fault && FirstWhere(tx.rows, [IdIs(id)] + more).None? ==> r == Err(NotFound)
      ensures r.Ok? <==> !fault && FirstWhere(tx.rows, [IdIs(id)] + more).Some?
      ensures r.Ok? ==> r.value == tx.rows[FirstWhere(tx.rows, [IdIs(id)] + more).value]
      ensures r.Ok? ==> r.value.id == id && SatisfiesAll(r.value, more)
    {
      var found := tx.First([IdIs(id)] + more, fault);
      if found.Err? {
        if found.error == RecordNotFound {
          return Err(NotFound);
        }
        return Err(Default);
      }
      r := Ok(tx.rows[found.value]);
      assert IdIs(id) in [IdIs(id)] + more;
      assert forall c :: c in more ==> c in [IdIs(id)] + more;
    }

    /** `GetApiKey`: the store's error is passed through, next to the zero record. */
    method GetApiKey(tx: Table, cs: seq<Clause>, fault: bool) returns (rec: ApiKey, err: Option<DalError>)
      ensures fault ==> err == Some(StoreFault)
      ensures !fault && FirstWhere(tx.rows, cs).None? ==> err == Some(RecordNotFound)
      ensures err.None? <==> !fault && FirstWhere(tx.rows, cs).Some?
      ensures err.None? ==> rec == tx.rows[FirstWhere(tx.rows, cs).value]
      ensures err.Some? ==> rec == EmptyApiKey
    {
      var found := tx.First(cs, fault);
      if found.Err? {
        return EmptyApiKey, Some(found.error);
      }
      return tx.rows[found.value], None;
    }

    /** `Put`: rotate the key of row `id`; the stored row gets the new digest, the caller the new plaintext. */
    method Put(user: Option<User>, id: nat, lookupFault: bool, entropy: Entropy, writeFault: bool, now: int, updateFault: bool)
      returns (r: Result<ApiKey, Kind>)
      requires dal.Valid()
      requires entropy.Letters? ==> |entropy.token| == ApiKeyLen
      modifies dal
      ensures dal.Valid() && dal.nextId == old(dal.nextId)
      ensures r.Err? ==> dal.rows == old(dal.rows)
      ensures lookupFault ==> r == Err(Default)
      ensures !lookupFault && IndexOfId(old(dal.rows), id).None? ==> r == Err(NotFound)
      ensures !lookupFault && IndexOfId(old(dal.rows), id).Some? && (entropy.EntropyFault? || writeFault || updateFault) ==>
                r == Err(Default)
      ensures r.Ok? <==> !lookupFault && IndexOfId(old(dal.rows), id).Some? && entropy.Letters? && !writeFault && !updateFault
      ensures r.Ok? ==>
                var k := IndexOfId(old(dal.rows), id).value;
                && |dal.rows| == |old(dal.rows)|
                && dal.rows == old(dal.rows)[k := dal.rows[k]]
                && RotatedFrom(old(dal.rows)[k], dal.rows[k], Digest(entropy.token), user, now)
                && r.value == dal.rows[k].(apiKey := entropy.token)
    {
      assert [IdIs(id)] + [] == [IdIs(id)];
      var got := GetApiKeyById(dal, id, [], lookupFault);
      if got.Err? {
        return Err(got.error);
      }
      var apiKey := got.value;
      var keys := GenerateApiKey(entropy, writeFault);
      if keys.Err? {
        return Err(keys.error);
      }
      apiKey := apiKey.(apiKey := keys.value.digest);
      apiKey := apiKey.(updatedAt := now);
      if user.Some? {
        apiKey := apiKey.(updater := user.value.name, updaterEmail := user.value.email);
      }
      var updated := dal.Update(apiKey, updateFault);
      if updated.Fail? {
        return Err(Default);
      }
      apiKey := apiKey.(apiKey := keys.value.plaintext);
      return Ok(apiKey);
    }

    /** `Delete`: look the id up, then remove that row. */
    method Delete(id: nat, lookupFault: bool, deleteFault: bool) returns (r: Outcome<Kind>)
      requires dal.Valid()
      modifies dal
      ensures dal.Valid() && dal.nextId == old(dal.nextId)
      ensures r.Fail? ==> dal.rows == old(dal.rows)
      ensures lookupFault ==> r == Fail(Default)
      ensures !lookupFault && IndexOfId(old(dal.rows), id).None? ==> r == Fail(NotFound)
      ensures !lookupFault && IndexOfId(old(dal.rows), id).Some? && deleteFault ==> r == Fail(Default)
      ensures r.Pass? <==> !lookupFault && IndexOfId(old(dal.rows), id).Some? && !deleteFault
      ensures r.Pass? ==>
                var k := IndexOfId(old(dal.rows), id).value;
                dal.rows == old(dal.rows)[..k] + old(dal.rows)[k + 1..]
    {
      assert [IdIs(id)] + [] == [IdIs(id)];
      var got := GetApiKeyById(dal, id, [], lookupFault);
      if got.Err? {
        return Fail(got.error);
      }
      ghost var k := IndexOfId(dal.rows, id).value;
      RemoveUniqueId(dal.rows, k);
      var deleted := dal.DeleteId(id, deleteFault);
      if deleted.Fail? {
        return Fail(Default);
      }
      return Pass;
    }

    /**
     * `DeleteForPlugin`: revoke the first key whose type and extra match the non-empty
     * arguments. Finding none is success.
     */
    method DeleteForPlugin(tx: Table, pluginName: string, extra: string, lookupFault: bool, deleteFault: bool)
      returns (r: Outcome<DalError>)
      requires tx.Valid()
      modifies tx
      ensures tx.Valid() && tx.nextId == old(tx.nextId)
      ensures r.Fail? ==> r.error == StoreFault && tx.rows == old(tx.rows)
      ensures lookupFault ==> r.Fail?
      ensures !lookupFault && (forall i :: 0 <= i < |old(tx.rows)| ==> !PluginKeyMatches(old(tx.rows)[i], pluginName, extra)) ==>
                r == Pass && tx.rows == old(tx.rows)
      ensures !lookupFault ==>
                forall k :: IsFirstPluginMatch(old(tx.rows), k, pluginName, extra) ==>
                  if deleteFault then r.Fail?
                  else r == Pass && tx.rows == old(tx.rows)[..k] + old(tx.rows)[k + 1..]
    {
      var clauses: seq<Clause> := [];
      if pluginName != "" {
        clauses := clauses + [TypeIs(PluginType(pluginName))];
      }
      if extra != "" {
        clauses := clauses + [ExtraIs(extra)];
      }
      PluginClausesMatch(clauses, pluginName, extra);
      var found := tx.First(clauses, lookupFault);
      if found.Err? {
        if found.error == RecordNotFound {
          return Pass;
        }
        return Fail(found.error);
      }
      var k := found.value;
      RemoveUniqueId(tx.rows, k);
      var deleted := tx.DeleteId(tx.rows[k].id, deleteFault);
      if deleted.Fail? {
        return Fail(deleted.error);
      }
      return Pass;
    }
  }

  /** `NewApiKeyHelper`: None where the source panics on a blank `ENCRYPTION_SECRET`. */
  method NewApiKeyHelper(dal: Table, rawSecret: string, hmac: Hmac, compiles: string -> bool)
    returns (r: Option<ApiKeyHelper>)
    ensures r.None? <==> AllSpace(rawSecret)
    ensures r.Some? ==> fresh(r.value) && r.value.encryptionSecret == TrimSpace(rawSecret)
    ensures r.Some? ==> r.value.dal == dal && r.value.hmac == hmac && r.value.compiles == compiles
  {
    var secret := EncryptionSecret(rawSecret);
    if secret.None? {
      return None;
    }
    TrimSpaceIdempotent(rawSecret);
    var helper := new ApiKeyHelper(dal, secret.value, hmac, compiles);
    return Some(helper);
  }
}
