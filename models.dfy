/** The `models.ApiKey` row, the acting user and the `dal.Where` clauses the helper builds. */
module Models {

  import opened Errors

  /** `common.User`: only its name and email are read. */
  datatype User = User(name: string, email: string)

  /**
   * `models.ApiKey` with its embedded `common.Model` (id, timestamps), `common.Creator` and
   * `common.Updater`. Timestamps are abstract instants; `expiredAt` is the nullable `*time.Time`.
   */
  datatype ApiKey = ApiKey(
    id: nat,
    createdAt: int,
    updatedAt: int,
    creator: string,
    creatorEmail: string,
    updater: string,
    updaterEmail: string,
    name: string,
    apiKey: string,
    expiredAt: Option<int>,
    allowedPath: string,
    keyType: string,
    extra: string)

  /** The zero value `models.ApiKey{}`. */
  const EmptyApiKey := ApiKey(0, 0, 0, "", "", "", "", "", "", None, "", "", "")

  /** `dal.Where("id = ?", ..)`, `dal.Where("type = ?", ..)`, `dal.Where("extra = ?", ..)`. */
  datatype Clause = IdIs(id: nat) | TypeIs(keyType: string) | ExtraIs(extra: string)

  predicate Satisfies(rec: ApiKey, c: Clause) {
    match c
    case IdIs(id) => rec.id == id
    case TypeIs(t) => rec.keyType == t
    case ExtraIs(e) => rec.extra == e
  }

  /** Clauses passed together to `First` are combined with AND. */
  predicate SatisfiesAll(rec: ApiKey, cs: seq<Clause>) {
    forall c :: c in cs ==> Satisfies(rec, c)
  }
}
