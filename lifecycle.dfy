/** Properties of the key lifecycle that span more than one call of the helper. */
module Lifecycle {

  import opened Errors
  import opened Models
  import opened Dal
  import opened ApiKeyHelper

  /** A created key, looked up by its id, shows the digest of the returned plaintext and never the plaintext. */
  method CreateThenLookup(
    helper: ApiKeyHelper, tx: Table, user: Option<User>, name: string, allowedPath: string, apiKeyType: string, extra: string,
    token: string, now: int)
    returns (created: Result<ApiKey, Kind>, stored: Result<ApiKey, Kind>)
    requires tx.Valid() && |token| == ApiKeyLen
    modifies tx
    ensures created.Ok? <==> helper.compiles(allowedPath) && !NameTaken(old(tx.rows), name)
    ensures created.Ok? ==> stored.Ok? && stored.value.id == created.value.id
    ensures created.Ok? ==> stored.value.apiKey == helper.Digest(created.value.apiKey) && stored.value.apiKey != token
    ensures created.Ok? ==> stored.value == created.value.(apiKey := stored.value.apiKey)
  {
    created := helper.Create(tx, user, name, None, allowedPath, apiKeyType, extra, Letters(token), false, now, false);
    if created.Err? {
      stored := Err(NotFound);
      return;
    }
    var id := created.value.id;
    assert tx.rows[|tx.rows| - 1].id == id;
    forall j | 0 <= j < |tx.rows| - 1 ensures tx.rows[j].id != id {
      assert tx.rows[j] == old(tx.rows)[j];
    }
    assert [IdIs(id)] + [] == [IdIs(id)];
    assert FirstWhere(tx.rows, [IdIs(id)]) == Some(|tx.rows| - 1) by {
      assert IdIs(id) in [IdIs(id)];
      assert SatisfiesAll(tx.rows[|tx.rows| - 1], [IdIs(id)]);
    }
    stored := helper.GetApiKeyById(tx, id, [], false);
  }

  /** Of two creations under one name, the second is refused as bad input and writes nothing. */
  method SameNameTwice(
    helper: ApiKeyHelper, tx: Table, name: string, allowedPath: string, token1: string, token2: string, now: int)
    returns (first: Result<ApiKey, Kind>, second: Result<ApiKey, Kind>)
    requires tx.Valid() && |token1| == ApiKeyLen && |token2| == ApiKeyLen
    requires helper.compiles(allowedPath) && !NameTaken(tx.rows, name)
    modifies tx
    ensures first.Ok? && second == Err(BadInput)
    ensures |tx.rows| == |old(tx.rows)| + 1
  {
    first := helper.Create(tx, None, name, None, allowedPath, "", "", Letters(token1), false, now, false);
    assert tx.rows[|tx.rows| - 1].name == name;
    second := helper.Create(tx, None, name, None, allowedPath, "", "", Letters(token2), false, now, false);
  }

  /** After a rotation the row carries the digest of the plaintext the rotation returned. */
  method RotateThenLookup(helper: ApiKeyHelper, user: Option<User>, id: nat, token: string, now: int)
    returns (rotated: Result<ApiKey, Kind>, stored: Result<ApiKey, Kind>)
    requires helper.dal.Valid() && |token| == ApiKeyLen
    modifies helper.dal
    ensures rotated.Ok? <==> IndexOfId(old(helper.dal.rows), id).Some?
    ensures rotated.Ok? ==> stored.Ok? && stored.value.apiKey == helper.Digest(rotated.value.apiKey)
    ensures rotated.Ok? ==> stored.value == rotated.value.(apiKey := stored.value.apiKey)
    ensures rotated.Ok? ==> stored.value.updatedAt == now && rotated.value.apiKey == token
  {
    rotated := helper.Put(user, id, false, Letters(token), false, now, false);
    if rotated.Err? {
      stored := Err(NotFound);
      return;
    }
    ghost var k := IndexOfId(old(helper.dal.rows), id).value;
    assert helper.dal.rows[k].id == id by {
      assert IdIs(id) in [IdIs(id)];
      assert Satisfies(old(helper.dal.rows)[k], IdIs(id));
    }
    forall j | 0 <= j < k ensures !SatisfiesAll(helper.dal.rows[j], [IdIs(id)]) {
      assert helper.dal.rows[j] == old(helper.dal.rows)[j];
    }
    assert [IdIs(id)] + [] == [IdIs(id)];
    assert IdIs(id) in [IdIs(id)];
    assert FirstWhere(helper.dal.rows, [IdIs(id)]) == Some(k);
    stored := helper.GetApiKeyById(helper.dal, id, [], false);
  }

  /** Deleting an id twice: the first call removes the row, the second finds nothing. */
  method DeleteTwice(helper: ApiKeyHelper, id: nat) returns (first: Outcome<Kind>, second: Outcome<Kind>)
    requires helper.dal.Valid()
    modifies helper.dal
    ensures first.Pass? <==> IndexOfId(old(helper.dal.rows), id).Some?
    ensures second == Fail(NotFound)
    ensures |helper.dal.rows| == if first.Pass? then |old(helper.dal.rows)| - 1 else |old(helper.dal.rows)|
  {
    first := helper.Delete(id, false, false);
    if first.Pass? {
      ghost var was := old(helper.dal.rows);
      ghost var k := IndexOfId(was, id).value;
      assert was[k].id == id by {
        assert IdIs(id) in [IdIs(id)];
        assert Satisfies(was[k], IdIs(id));
      }
      forall j | 0 <= j < |helper.dal.rows| ensures !SatisfiesAll(helper.dal.rows[j], [IdIs(id)]) {
        var i := if j < k then j else j + 1;
        assert helper.dal.rows[j] == was[i];
        assert IdIs(id) in [IdIs(id)];
      }
    }
    second := helper.Delete(id, false, false);
  }
}
