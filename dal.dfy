/**
 * The data-access layer as the helper sees it: one table of `ApiKey` rows in insertion
 * order, an auto-increment id and a unique index on `name`. Faults of the database are
 * boolean inputs to each call.
 */
module Dal {

  import opened Errors
  import opened Models

  /** Ids ascend in row order (so they are unique, and the first row in order has the lowest id) and names are unique. */
  predicate Ordered(rows: seq<ApiKey>) {
    forall i, j :: 0 <= i < j < |rows| ==> rows[i].id < rows[j].id && rows[i].name != rows[j].name
  }

  predicate NameTaken(rows: seq<ApiKey>, name: string) {
    exists i :: 0 <= i < |rows| && rows[i].name == name
  }

  /** The position of the first row that satisfies every clause: what `First` loads. */
  function FirstWhere(rows: seq<ApiKey>, cs: seq<Clause>): (r: Option<nat>)
    ensures r.Some? ==> r.value < |rows| && SatisfiesAll(rows[r.value], cs)
    ensures r.Some? ==> forall j :: 0 <= j < r.value ==> !SatisfiesAll(rows[j], cs)
    ensures r.None? ==> forall j :: 0 <= j < |rows| ==> !SatisfiesAll(rows[j], cs)
  {
    if rows == [] then None
    else if SatisfiesAll(rows[0], cs) then Some(0)
    else match FirstWhere(rows[1..], cs)
      case None => None
      case Some(k) => Some(k + 1)
  }

  function IndexOfId(rows: seq<ApiKey>, id: nat): Option<nat> {
    FirstWhere(rows, [IdIs(id)])
  }

  /** `Delete(.., dal.Where("id = ?", id))`: every row with that id goes, the rest keep their order. */
  function RemoveId(rows: seq<ApiKey>, id: nat): (r: seq<ApiKey>)
    ensures |r| <= |rows|
    ensures forall x :: x in r <==> x in rows && x.id != id
  {
    if rows == [] then []
    else if rows[0].id == id then RemoveId(rows[1..], id)
    else [rows[0]] + RemoveId(rows[1..], id)
  }

  lemma {:induction false} RemoveAbsentId(rows: seq<ApiKey>, id: nat)
    requires forall i :: 0 <= i < |rows| ==> rows[i].id != id
    ensures RemoveId(rows, id) == rows
  {
    if rows != [] {
      RemoveAbsentId(rows[1..], id);
      assert [rows[0]] + rows[1..] == rows;
    }
  }

  /** When no other row shares row `k`'s id, deleting by that id removes exactly row `k`. */
  lemma {:induction false} RemoveUniqueId(rows: seq<ApiKey>, k: nat)
    requires k < |rows|
    requires forall i :: 0 <= i < |rows| && i != k ==> rows[i].id != rows[k].id
    ensures RemoveId(rows, rows[k].id) == rows[..k] + rows[k + 1..]
  {
    var id := rows[k].id;
    if k == 0 {
      forall i | 0 <= i < |rows[1..]| ensures rows[1..][i].id != id {
        assert rows[1..][i] == rows[i + 1];
      }
      RemoveAbsentId(rows[1..], id);
    } else {
      assert rows[0].id != id;
      assert rows[1..][k - 1] == rows[k];
      forall i | 0 <= i < |rows[1..]| && i != k - 1 ensures rows[1..][i].id != id {
        assert rows[1..][i] == rows[i + 1];
      }
      RemoveUniqueId(rows[1..], k - 1);
      assert rows[..k] + rows[k + 1..] == [rows[0]] + (rows[1..][..k - 1] + rows[1..][k..]);
    }
  }

  /** Every row after the head of an ordered table has a larger id and another name. */
  lemma HeadBelowTail(rows: seq<ApiKey>, tail: seq<ApiKey>)
    requires Ordered(rows) && rows != []
    requires forall x :: x in tail ==> x in rows[1..]
    ensures forall x :: x in tail ==> x.id > rows[0].id && x.name != rows[0].name
  {
    forall x | x in tail ensures x.id > rows[0].id && x.name != rows[0].name {
      var j :| 0 <= j < |rows[1..]| && rows[1..][j] == x;
      assert rows[j + 1] == x;
    }
  }

  lemma OrderedTail(rows: seq<ApiKey>)
    requires Ordered(rows) && rows != []
    ensures Ordered(rows[1..])
  {
    forall i, j | 0 <= i < j < |rows| - 1 ensures rows[1..][i].id < rows[1..][j].id && rows[1..][i].name != rows[1..][j].name {
      assert rows[1..][i] == rows[i + 1] && rows[1..][j] == rows[j + 1];
    }
  }

  lemma OrderedCons(head: ApiKey, tail: seq<ApiKey>)
    requires Ordered(tail)
    requires forall x :: x in tail ==> x.id > head.id && x.name != head.name
    ensures Ordered([head] + tail)
  {
    var r := [head] + tail;
    forall i, j | 0 <= i < j < |r| ensures r[i].id < r[j].id && r[i].name != r[j].name {
      if i == 0 { assert r[j] == tail[j - 1] && r[j] in tail; }
      else { assert r[i] == tail[i - 1] && r[j] == tail[j - 1]; }
    }
  }

  lemma {:induction false} RemoveIdKeepsOrdered(rows: seq<ApiKey>, id: nat)
    requires Ordered(rows)
    ensures Ordered(RemoveId(rows, id))
  {
    if rows != [] {
      OrderedTail(rows);
      RemoveIdKeepsOrdered(rows[1..], id);
      if rows[0].id != id {
        var tail := RemoveId(rows[1..], id);
        HeadBelowTail(rows, tail);
        OrderedCons(rows[0], tail);
      }
    }
  }

  class Table {
    var rows: seq<ApiKey>
    var nextId: nat

    ghost predicate Valid()
      reads this
    {
      && 0 < nextId
      && (forall i :: 0 <= i < |rows| ==> 0 < rows[i].id < nextId)
      && Ordered(rows)
    }

    constructor ()
      ensures Valid() && rows == [] && nextId == 1
    {
      rows := [];
      nextId := 1;
    }

    /** `Create(record)`: the unique name index rejects a taken name; otherwise the row gets the next id. */
    method Insert(rec: ApiKey, fault: bool) returns (r: Result<nat, DalError>)
      requires Valid()
      modifies this
      ensures Valid()
      ensures NameTaken(old(rows), rec.name) ==> r == Err(Duplication)
      ensures !NameTaken(old(rows), rec.name) && fault ==> r == Err(StoreFault)
      ensures !NameTaken(old(rows), rec.name) && !fault ==> r == Ok(old(nextId))
      ensures r.Err? ==> rows == old(rows) && nextId == old(nextId)
      ensures r.Ok? ==> rows == old(rows) + [rec.(id := old(nextId))] && nextId == old(nextId) + 1
    {
      if NameTaken(rows, rec.name) {
        return Err(Duplication);
      }
      if fault {
        return Err(StoreFault);
      }
      var id := nextId;
      rows := rows + [rec.(id := id)];
      nextId := nextId + 1;
      return Ok(id);
    }

    /** `First(&dst, clauses...)`: the first row in table order that satisfies every clause. */
    method First(cs: seq<Clause>, fault: bool) returns (r: Result<nat, DalError>)
      ensures fault ==> r == Err(StoreFault)
      ensures !fault && FirstWhere(rows, cs).None? ==> r == Err(RecordNotFound)
      ensures !fault && FirstWhere(rows, cs).Some? ==> r == Ok(FirstWhere(rows, cs).value)
    {
      if fault {
        return Err(StoreFault);
      }
      var i := 0;
      while i < |rows|
        invariant 0 <= i <= |rows|
        invariant forall j :: 0 <= j < i ==> !SatisfiesAll(rows[j], cs)
      {
        if SatisfiesAll(rows[i], cs) {
          return Ok(i);
        }
        i := i + 1;
      }
      return Err(RecordNotFound);
    }

    /** `Update(record)`: rewrites the row with the record's id, subject to the unique name index. */
    method Update(rec: ApiKey, fault: bool) returns (r: Outcome<DalError>)
      requires Valid() && IndexOfId(rows, rec.id).Some?
      modifies this
      ensures Valid() && nextId == old(nextId)
      ensures fault ==> r == Fail(StoreFault)
      ensures !fault ==>
                (r == Fail(Duplication) <==> NameTaken(old(rows), rec.name) && old(rows)[IndexOfId(old(rows), rec.id).value].name != rec.name)
      ensures r.Fail? ==> fault || r.error == Duplication
      ensures r.Fail? ==> rows == old(rows)
      ensures r.Pass? ==> rows == old(rows)[IndexOfId(old(rows), rec.id).value := rec]
    {
      var k := IndexOfId(rows, rec.id).value;
      if fault {
        return Fail(StoreFault);
      }
      if NameTaken(rows, rec.name) && rows[k].name != rec.name {
        return Fail(Duplication);
      }
      ghost var before := rows;
      assert IdIs(rec.id) in [IdIs(rec.id)];
      assert before[k].id == rec.id;
      rows := rows[k := rec];
      forall i, j | 0 <= i < j < |rows| ensures rows[i].id < rows[j].id && rows[i].name != rows[j].name {
        if i == k { assert before[j].name != rec.name; }
        if j == k { assert before[i].name != rec.name; }
      }
      return Pass;
    }

    /** `Delete(&models.ApiKey{}, dal.Where("id = ?", id))` */
    method DeleteId(id: nat, fault: bool) returns (r: Outcome<DalError>)
      requires Valid()
      modifies this
      ensures Valid() && nextId == old(nextId)
      ensures fault ==> r == Fail(StoreFault) && rows == old(rows)
      ensures !fault ==> r == Pass && rows == RemoveId(old(rows), id)
    {
      if fault {
        return Fail(StoreFault);
      }
      RemoveIdKeepsOrdered(rows, id);
      rows := RemoveId(rows, id);
      return Pass;
    }
  }
}
