# API-key lifecycle of the DevLake backend, in Dafny

This project models `ApiKeyHelper` from `backend/helpers/apikeyhelper/apikeyhelper.go`: the
component that issues, rotates, looks up and revokes API keys. A key is a random 128-character
token; the table stores only the lower-case hex rendering of its HMAC-SHA256 under the
server-wide `ENCRYPTION_SECRET`, and the plaintext is handed back once, in the record returned by
the call that generated it.

Modules, one per concern:

- `Errors` — `Option`, `Result`, `Outcome`, the helper's error kinds (`BadInput`, `NotFound`,
  `Default`) and what the store reports (`RecordNotFound`, `Duplication`, `StoreFault`).
- `Hex` — the `%x` rendering of a byte slice (`Encode`) and its inverse (`Decode`).
- `Text` — `strings.TrimSpace` with Go's `unicode.IsSpace` set of white space.
- `Models` — the `models.ApiKey` row, the acting `User`, and the `dal.Where` clauses the helper builds.
- `Dal` — the data-access layer as a `Table` class: rows in insertion order (so "first match" is
  defined), an auto-increment id and a unique index on `name`; `Valid()` keeps ids ascending in row order
  (so the first row in order is the one with the lowest id) and names distinct.
- `ApiKeyHelper` — the helper class. Its `const` fields are the table `GetDal()` returns, the
  trimmed secret, the keyed hash and the pattern compiler. `Create`, `CreateForPlugin`, `Put`,
  `Delete` and `DeleteForPlugin` are methods that change the table step by step as the Go code
  does; `DigestToken`, `GenerateApiKey` and the secret check are functions.
- `Findings` — the argument-order defect in `CreateForPlugin`, as written and corrected.
- `Lifecycle` — properties that span several calls (create then look up, the same name twice,
  rotate then look up, delete twice).

When `allowedPath` does not compile, `Create` wraps the error as `errors.Default` (line 67);
there is no dedicated invalid-pattern kind, and the model follows the code in this.

External pieces are inputs. The keyed hash is a function-valued field of type
`(string, string) -> Tag`, where a `Tag` is 32 bytes. `regexp.Compile` becomes a predicate
field `compiles`. The random token is an `Entropy` argument: either a 128-character token or a fault.
`time.Now()` becomes a `now` argument. Each possible fault of the hash writer or of a store call
is a boolean argument.

## Model

| member | source | states |
|---|---|---|
| `ApiKeyHelper.EncryptionSecret` | backend/helpers/apikeyhelper/apikeyhelper.go:52-55 | fails exactly when the raw setting is all white space; otherwise the secret is the trimmed setting, with no white space at either end |
| `ApiKeyHelper.NewApiKeyHelper` | backend/helpers/apikeyhelper/apikeyhelper.go:50-61 | no helper (the panic) exactly when the raw secret is blank; otherwise a fresh helper holding the trimmed secret and the given collaborators |
| `ApiKeyHelper.ApiKeyHelper.constructor` | backend/helpers/apikeyhelper/apikeyhelper.go:56-61 | the struct literal: stores the DAL, the secret (non-empty and already trimmed), the hash and the compiler |
| `Text.TrimSpace` | backend/helpers/apikeyhelper/apikeyhelper.go:52 | the result is a contiguous piece of the input with only white space cut from both ends; empty exactly when the input is all white space; neither end of a non-empty result is white space |
| `Text.TrimSpaceIdempotent` | backend/helpers/apikeyhelper/apikeyhelper.go:52 | trimming twice is trimming once, so the secret `NewApiKeyHelper` stores is already trimmed, as the constructor requires |
| `Hex.Encode` | backend/helpers/apikeyhelper/apikeyhelper.go:224 | `%x` yields two characters per byte, all from `0-9a-f` |
| `Hex.DecodeEncode` | backend/helpers/apikeyhelper/apikeyhelper.go:224 | the hex rendering loses nothing: decoding it gives back the bytes |
| `Hex.EncodeInjective` | backend/helpers/apikeyhelper/apikeyhelper.go:224 | distinct byte strings render as distinct hex strings |
| `ApiKeyHelper.ApiKeyHelper.Digest` | backend/helpers/apikeyhelper/apikeyhelper.go:219-224 | a stored digest is 64 lower-case hex characters |
| `ApiKeyHelper.ApiKeyHelper.DigestInjective` | backend/helpers/apikeyhelper/apikeyhelper.go:219-224 | tokens whose HMAC tags differ get different stored digests |
| `ApiKeyHelper.ApiKeyHelper.DigestToken` | backend/helpers/apikeyhelper/apikeyhelper.go:218-226 | fails (kind Default) exactly when the hash write fails; otherwise a 64-character lower-case hex digest of the token |
| `ApiKeyHelper.ApiKeyHelper.GenerateApiKey` | backend/helpers/apikeyhelper/apikeyhelper.go:208-216 | succeeds exactly when the random source and the hash both succeed; then the plaintext is the 128-character token, the digest is its `Digest`, and the two differ |
| `ApiKeyHelper.ApiKeyHelper.Create` | backend/helpers/apikeyhelper/apikeyhelper.go:64-106 | checks in source order: bad pattern gives Default, a failed key generation gives Default, a taken name gives BadInput, a store fault gives Default, and every failure leaves the table unchanged; on success exactly one row is appended, holding the digest and the given fields, with `createdAt == updatedAt == now` and creator and updater taken from the user only when there is one; the returned record is that row with the plaintext in place of the digest, so it differs from the stored row |
| `ApiKeyHelper.ApiKeyHelper.CreateForPlugin` | backend/helpers/apikeyhelper/apikeyhelper.go:108-110 | behaves exactly as `Create` with no expiry, `allowedPath = "plugin:"+pluginName` and type = the caller's `allowedPath`; a key issued this way is not matched by the plugin filter whenever the plugin name is non-empty and the caller's path differs from the tag |
| `ApiKeyHelper.ApiKeyHelper.CreateForPluginCorrected` | backend/helpers/apikeyhelper/apikeyhelper.go:108-110 | behaves as `Create` with the caller's path as `allowedPath` and the plugin tag as type; the issued key is matched by the plugin filter for that plugin and extra |
| `ApiKeyHelper.ApiKeyHelper.GetApiKeyById` | backend/helpers/apikeyhelper/apikeyhelper.go:184-197 | a store fault gives Default; no row with that id (and the extra clauses) gives NotFound; otherwise the first such row, whose id is the one asked for |
| `ApiKeyHelper.ApiKeyHelper.GetApiKey` | backend/helpers/apikeyhelper/apikeyhelper.go:199-206 | returns the first row meeting the clauses, or the store's own error next to the zero record |
| `ApiKeyHelper.ApiKeyHelper.Put` | backend/helpers/apikeyhelper/apikeyhelper.go:112-140 | absent id gives NotFound, lookup fault gives Default, a failed key generation or update gives Default, and every failure writes nothing; on success only the row with that id changes, and only in its digest (now the digest of the fresh token), `updatedAt` (now) and, when a user acts, updater and updater email; the caller gets that row with the fresh plaintext |
| `ApiKeyHelper.ApiKeyHelper.Delete` | backend/helpers/apikeyhelper/apikeyhelper.go:142-156 | absent id gives NotFound, a lookup or delete fault gives Default, and failures leave the table unchanged; on success exactly the row with that id is removed and the others keep their order |
| `ApiKeyHelper.ApiKeyHelper.DeleteForPlugin` | backend/helpers/apikeyhelper/apikeyhelper.go:158-182 | no matching row is success with the table unchanged; otherwise exactly the first matching row is removed; a lookup or delete fault is passed through and writes nothing |
| `ApiKeyHelper.PluginClausesMatch` | backend/helpers/apikeyhelper/apikeyhelper.go:161-167 | the clauses built from the non-empty arguments select exactly the rows whose type is `plugin:<name>` (when a name is given) and whose extra equals `extra` (when given); with both empty every row matches |
| `Dal.FirstWhere` | backend/helpers/apikeyhelper/apikeyhelper.go:168 | the first row in table order that meets every clause, or none when no row does |
| `Dal.Table.First` | backend/helpers/apikeyhelper/apikeyhelper.go:189 | the scan finds the position `FirstWhere` names, reports not-found when there is none, and a fault otherwise |
| `Dal.Table.Insert` | backend/helpers/apikeyhelper/apikeyhelper.go:97-103 | a taken name is a duplication error, a fault is a store error, both leave the table unchanged; otherwise the row is appended under the next id |
| `Dal.Table.Update` | backend/helpers/apikeyhelper/apikeyhelper.go:134 | replaces the row with the record's id in place, unless the store faults or the new name belongs to another row |
| `Dal.Table.DeleteId` | backend/helpers/apikeyhelper/apikeyhelper.go:150 | removes every row with the id, unless the store faults |
| `Dal.RemoveId` | backend/helpers/apikeyhelper/apikeyhelper.go:150 | the rows left are exactly the rows without that id |
| `Dal.RemoveUniqueId` | backend/helpers/apikeyhelper/apikeyhelper.go:177 | when no other row shares row k's id (as in every valid table, whose ids ascend), deleting by that id removes row k and nothing else |
| `Findings.SwappedPluginKeySurvivesRevocation` | backend/helpers/apikeyhelper/apikeyhelper.go:109 | a webhook key created as written stays in the table after `DeleteForPlugin("webhook", extra)`, with the tag in `allowedPath` and the path in `type` |
| `Findings.CorrectedPluginKeyIsRevoked` | backend/helpers/apikeyhelper/apikeyhelper.go:109 | with the arguments in `Create`'s order, the same calls leave the table empty |
| `Lifecycle.CreateThenLookup` | backend/helpers/apikeyhelper/apikeyhelper.go:64-106 | after a successful create, looking up its id gives the stored row, whose digest is the digest of the returned plaintext and never that plaintext |
| `Lifecycle.SameNameTwice` | backend/helpers/apikeyhelper/apikeyhelper.go:97-101 | of two creations under a free name, the first succeeds and the second is BadInput, so only one row is added |
| `Lifecycle.RotateThenLookup` | backend/helpers/apikeyhelper/apikeyhelper.go:112-140 | after a rotation the stored row is the returned record with the digest of the returned plaintext in place of it, updated at `now` |
| `Lifecycle.DeleteTwice` | backend/helpers/apikeyhelper/apikeyhelper.go:142-156 | deleting an id twice removes its row the first time and gives NotFound the second time |

## Left out

- HMAC-SHA256 internals (RFC 2104, FIPS 180-4): the keyed hash is a function field returning 32
  bytes, and the `[]byte` conversions of secret and token are folded into it. So the model cannot
  show that a different secret gives a different digest, or that a rotation's new digest differs
  from the old one; `DigestInjective` is the conditional form.
- `utils.RandLetterBytes`: its source is not part of this model. The token is an input of length
  128, its alphabet is not asserted, and distinctness of tokens across calls (a probabilistic
  promise) is not modelled.
- `regexp.Compile`: an abstract `compiles` predicate.
- `config.GetConfig` and viper: the raw `ENCRYPTION_SECRET` string is a parameter of `NewApiKeyHelper`.
- `time.Now()`: a `now` parameter; timestamps are integers.
- Logging and the texts of error messages: only the error kinds are kept.
- Transactions, and the `tx == nil` fallback to `GetDal()` in `getApiKeyById` and `GetApiKey`:
  a `Table` is passed directly. `IsDuplicationError` and `IsErrorNotFound` are the `Duplication`
  and `RecordNotFound` values of the store's result.
- The store itself is a model. The unique index on `name` is an assumption about the schema,
  because the `models.ApiKey` definition is not part of this model.
  `Table.Update` is only defined for an id already in the table, which is the only way `Put` calls it.
- Concurrent rotate and delete on one id: left to the database.
- `uint64` ids are unbounded `nat`s, so id wrap-around is not modelled.

## Findings

| source | as written | input that shows it | evidently intended | confidence | as-written member | corrected member |
|---|---|---|---|---|---|---|
| backend/helpers/apikeyhelper/apikeyhelper.go:109 | `Create(tx, user, name, nil, "plugin:"+pluginName, allowedPath, extra)` puts the plugin tag in `allowedPath` and the caller's path in `type` | `CreateForPlugin` with name `webhook-1`, plugin `webhook`, path `/plugins/webhook/.*`, extra `1`, then `DeleteForPlugin("webhook", "1")`: the key stays | `Create(tx, user, name, nil, allowedPath, "plugin:"+pluginName, extra)`, so that plugin-scoped revocation finds the key | high, not executed | `Findings.SwappedPluginKeySurvivesRevocation` | `ApiKeyHelper.ApiKeyHelper.CreateForPluginCorrected` |
