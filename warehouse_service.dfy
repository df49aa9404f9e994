/*
 * services/WarehouseService.js over repositories/WarehouseRepository.js: the
 * code uniqueness guard of create and update, the 404 guards, the status
 * update and the query dispatch of getAllWarehouses. The schema upper-cases
 * `code` when it is stored and when it is queried, so findByCode matches
 * the upper-cased code; the service's own comparison is on the raw value.
 */
module WarehouseService {
  import opened Common

  const MSG_CODE_EXISTS: string := "Warehouse with this code already exists"
  const MSG_NOT_FOUND: string := "Warehouse not found"
  const MSG_DELETED: string := "Warehouse deleted successfully"
  /** The repository has update and delete but no findByIdAndUpdate / findByIdAndDelete. */
  const MSG_NO_FIND_BY_ID_AND_UPDATE: string := "this.warehouseRepository.findByIdAndUpdate is not a function"
  const MSG_NO_FIND_BY_ID_AND_DELETE: string := "this.warehouseRepository.findByIdAndDelete is not a function"

  /** A stored warehouse, restricted to the fields the service reads or writes. */
  datatype Rec = Rec(id: string, code: string, name: string, status: string, kind: string, features: seq<string>,
                     createdBy: Option<string>, updatedBy: Option<string>)

  /** The fields an update may carry. */
  datatype Patch = Patch(code: Option<string>, name: Option<string>, status: Option<string>)

  datatype Outcome<T> = Outcome(result: Result<T>, recs: seq<Rec>)

  function IndexOfId(recs: seq<Rec>, id: string): (i: int)
    ensures -1 <= i < |recs|
    ensures 0 <= i ==> recs[i].id == id
    ensures i < 0 ==> forall k :: 0 <= k < |recs| ==> recs[k].id != id
  {
    FindIndex(recs, (r: Rec) => r.id == id)
  }

  /** findByCode: the query value is upper-cased like the stored codes. */
  function IndexOfCode(recs: seq<Rec>, code: string): (i: int)
    ensures -1 <= i < |recs|
    ensures 0 <= i ==> recs[i].code == Upper(code)
    ensures i < 0 ==> forall k :: 0 <= k < |recs| ==> recs[k].code != Upper(code)
  {
    FindIndex(recs, (r: Rec) => r.code == Upper(code))
  }

  predicate UniqueIds(recs: seq<Rec>)
  {
    forall i, j :: 0 <= i < j < |recs| ==> recs[i].id != recs[j].id
  }

  predicate UniqueCodes(recs: seq<Rec>)
  {
    forall i, j :: 0 <= i < j < |recs| ==> recs[i].code != recs[j].code
  }

  /** createWarehouse: 400 for a code already in use in any case, else the record with its creator is appended. */
  function CreateSpec(recs: seq<Rec>, data: Rec, userId: string): Outcome<Rec>
  {
    if IndexOfCode(recs, data.code) >= 0 then Outcome(Fail(AppError(400, MSG_CODE_EXISTS)), recs)
    else
      var created := data.(code := Upper(data.code), createdBy := Some(userId));
      Outcome(Ok(created), recs + [created])
  }

  function ApplyPatch(r: Rec, p: Patch, userId: string): (u: Rec)
    ensures u.id == r.id
  {
    r.(code := if p.code.Some? then Upper(p.code.value) else r.code,
       name := if p.name.Some? then p.name.value else r.name,
       status := if p.status.Some? then p.status.value else r.status,
       updatedBy := Some(userId))
  }

  /** updateWarehouse through the repository's update: 404, then the code check only when the raw code differs. */
  function UpdateSpec(recs: seq<Rec>, id: string, p: Patch, userId: string): Outcome<Rec>
  {
    var i := IndexOfId(recs, id);
    if i < 0 then Outcome(Fail(AppError(404, MSG_NOT_FOUND)), recs)
    else if Truthy(p.code) && p.code.value != recs[i].code && IndexOfCode(recs, p.code.value) >= 0 then
      Outcome(Fail(AppError(400, MSG_CODE_EXISTS)), recs)
    else
      var u := ApplyPatch(recs[i], p, userId);
      Outcome(Ok(u), recs[i := u])
  }

  /** deleteWarehouse through the repository's delete. */
  function DeleteSpec(recs: seq<Rec>, id: string): Outcome<string>
  {
    var i := IndexOfId(recs, id);
    if i < 0 then Outcome(Fail(AppError(404, MSG_NOT_FOUND)), recs)
    else Outcome(Ok(MSG_DELETED), recs[..i] + recs[i + 1..])
  }

  /** updateWarehouse as written: the guards, then a call the repository does not define. */
  function UpdateAsWritten(recs: seq<Rec>, id: string, p: Patch, userId: string): Outcome<Rec>
  {
    var out := UpdateSpec(recs, id, p, userId);
    if out.result.Fail? then out else Outcome(Fail(Thrown(MSG_NO_FIND_BY_ID_AND_UPDATE)), recs)
  }

  /** deleteWarehouse as written. */
  function DeleteAsWritten(recs: seq<Rec>, id: string): Outcome<string>
  {
    if IndexOfId(recs, id) < 0 then Outcome(Fail(AppError(404, MSG_NOT_FOUND)), recs)
    else Outcome(Fail(Thrown(MSG_NO_FIND_BY_ID_AND_DELETE)), recs)
  }

  /** As written, no update and no delete reaches the collection; the corrected ones apply exactly where these throw. */
  lemma UpdateDeleteNeverApplyAsWritten(recs: seq<Rec>, id: string, p: Patch, userId: string)
    ensures UpdateAsWritten(recs, id, p, userId).recs == recs && UpdateAsWritten(recs, id, p, userId).result.Fail?
    ensures UpdateSpec(recs, id, p, userId).result.Ok? <==>
            UpdateAsWritten(recs, id, p, userId).result == Fail(Thrown(MSG_NO_FIND_BY_ID_AND_UPDATE))
    ensures DeleteAsWritten(recs, id).recs == recs && DeleteAsWritten(recs, id).result.Fail?
    ensures DeleteSpec(recs, id).result.Ok? <==>
            DeleteAsWritten(recs, id).result == Fail(Thrown(MSG_NO_FIND_BY_ID_AND_DELETE))
  {
  }

  /** Creation keeps the stored codes unique, and succeeds exactly when no stored code equals the upper-cased one. */
  lemma CreateKeepsCodesUnique(recs: seq<Rec>, data: Rec, userId: string)
    requires UniqueCodes(recs)
    ensures UniqueCodes(CreateSpec(recs, data, userId).recs)
    ensures CreateSpec(recs, data, userId).result.Ok? <==> forall k :: 0 <= k < |recs| ==> recs[k].code != Upper(data.code)
  {
  }

  /** An update that keeps the stored code as given, or carries none, is never refused for the code. */
  lemma SameCodeSkipsCheck(recs: seq<Rec>, id: string, p: Patch, userId: string)
    requires IndexOfId(recs, id) >= 0
    requires p.code.None? || p.code == Some(recs[IndexOfId(recs, id)].code)
    ensures UpdateSpec(recs, id, p, userId).result.Ok?
  {
  }

  /**
   * The raw comparison against the stored, upper-cased code: sending a
   * warehouse's own code in lower case finds the warehouse itself and is
   * refused as a duplicate.
   */
  lemma OwnCodeInLowerCaseRefused()
    ensures var recs := [Rec("w1", "ABC", "Main", "active", "distribution", [], None, None)];
            UpdateSpec(recs, "w1", Patch(Some("abc"), None, None), "u1").result == Fail(AppError(400, MSG_CODE_EXISTS))
  {
    assert Upper("abc") == "ABC";
  }

  /** Every stored code is in upper case, as the schema's setter stores it. */
  predicate UpperCodes(recs: seq<Rec>)
  {
    forall k :: 0 <= k < |recs| ==> Upper(recs[k].code) == recs[k].code
  }

  /** Creation and update store upper-cased codes only. */
  lemma StoredCodesStayUpper(recs: seq<Rec>, data: Rec, id: string, p: Patch, userId: string)
    requires UpperCodes(recs)
    ensures UpperCodes(CreateSpec(recs, data, userId).recs)
    ensures UpperCodes(UpdateSpec(recs, id, p, userId).recs)
  {
    UpperTwice(data.code);
    if p.code.Some? {
      UpperTwice(p.code.value);
    }
  }

  lemma UpperTwice(s: string)
    ensures Upper(Upper(s)) == Upper(s)
  {
  }

  /** An accepted update keeps the stored codes unique when a present code is non-empty. */
  lemma UpdateKeepsCodesUnique(recs: seq<Rec>, id: string, p: Patch, userId: string)
    requires UniqueCodes(recs) && UpperCodes(recs)
    requires p.code.Some? ==> p.code.value != ""
    ensures UniqueCodes(UpdateSpec(recs, id, p, userId).recs)
  {
    var i := IndexOfId(recs, id);
    var out := UpdateSpec(recs, id, p, userId);
    if i >= 0 && out.result.Ok? && p.code.Some? {
      var c := p.code.value;
      if c != recs[i].code {
        forall a, b | 0 <= a < b < |out.recs| ensures out.recs[a].code != out.recs[b].code {
          if a == i || b == i {
            var other := if a == i then b else a;
            assert recs[other].code != Upper(c);
          }
        }
      } else {
        assert out.recs[i].code == recs[i].code;
        forall k | 0 <= k < |recs| ensures out.recs[k].code == recs[k].code {
        }
      }
    }
  }

  /** A deletion removes exactly the record with that id. */
  lemma DeleteRemovesOnlyThatWarehouse(recs: seq<Rec>, id: string)
    requires UniqueIds(recs) && IndexOfId(recs, id) >= 0
    ensures var out := DeleteSpec(recs, id);
            |out.recs| == |recs| - 1 && UniqueIds(out.recs) &&
            (forall x :: x in out.recs <==> x in recs && x.id != id)
  {
    var i := IndexOfId(recs, id);
    assert DeleteSpec(recs, id).recs == recs[..i] + recs[i + 1..];
    CutRec(recs, i, DeleteSpec(recs, id).recs);
    CutRecUnique(recs, i, DeleteSpec(recs, id).recs);
  }

  lemma CutRec(recs: seq<Rec>, i: int, after: seq<Rec>)
    requires UniqueIds(recs) && 0 <= i < |recs|
    requires after == recs[..i] + recs[i + 1..]
    ensures |after| == |recs| - 1
    ensures forall x :: x in after <==> x in recs && x.id != recs[i].id
  {
    forall x | x in after ensures x in recs && x.id != recs[i].id {
      var k :| 0 <= k < |after| && after[k] == x;
      if k < i { assert after[k] == recs[k]; } else { assert after[k] == recs[k + 1]; }
    }
    forall x | x in recs && x.id != recs[i].id ensures x in after {
      var k :| 0 <= k < |recs| && recs[k] == x;
      if k < i { assert after[k] == x; } else { assert after[k - 1] == x; }
    }
  }

  lemma CutRecUnique(recs: seq<Rec>, i: int, after: seq<Rec>)
    requires UniqueIds(recs) && 0 <= i < |recs|
    requires after == recs[..i] + recs[i + 1..]
    ensures UniqueIds(after)
  {
    forall a, b | 0 <= a < b < |after| ensures after[a].id != after[b].id {
      var a' := if a < i then a else a + 1;
      var b' := if b < i then b else b + 1;
      assert after[a] == recs[a'] && after[b] == recs[b'];
    }
  }

  /** The query fields of getAllWarehouses, as the request carries them. */
  datatype Query = Query(status: Option<string>, kind: Option<string>, search: Option<string>,
                         feature: Option<string>, minCapacity: Option<string>, unit: Option<string>)

  /** The repository call a query selects. */
  datatype Lookup = BySearch(text: string) | ByStatus(status: string) | ByType(kind: string)
                  | ByFeature(feature: string) | ByCapacity(minCapacity: string, unit: string) | All

  /** getAllWarehouses: search, status, type, feature, then capacity with a unit; otherwise every warehouse. */
  function Dispatch(q: Query): (l: Lookup)
    ensures Truthy(q.search) ==> l == BySearch(q.search.value)
    ensures !Truthy(q.search) && Truthy(q.status) ==> l == ByStatus(q.status.value)
    ensures !Truthy(q.search) && !Truthy(q.status) && Truthy(q.kind) ==> l == ByType(q.kind.value)
    ensures !Truthy(q.search) && !Truthy(q.status) && !Truthy(q.kind) && Truthy(q.feature) ==> l == ByFeature(q.feature.value)
    ensures l.ByCapacity? <==> !Truthy(q.search) && !Truthy(q.status) && !Truthy(q.kind) && !Truthy(q.feature) &&
                               Truthy(q.minCapacity) && Truthy(q.unit)
    ensures l == All <==> !Truthy(q.search) && !Truthy(q.status) && !Truthy(q.kind) && !Truthy(q.feature) &&
                          !(Truthy(q.minCapacity) && Truthy(q.unit))
  {
    if Truthy(q.search) then BySearch(q.search.value)
    else if Truthy(q.status) then ByStatus(q.status.value)
    else if Truthy(q.kind) then ByType(q.kind.value)
    else if Truthy(q.feature) then ByFeature(q.feature.value)
    else if Truthy(q.minCapacity) && Truthy(q.unit) then ByCapacity(q.minCapacity.value, q.unit.value)
    else All
  }

  /** A minimum capacity without a unit is ignored. */
  lemma CapacityNeedsUnit(minCapacity: string)
    requires minCapacity != ""
    ensures Dispatch(Query(None, None, None, None, Some(minCapacity), None)) == All
  {
  }

  /**
   * Whether a lookup returns a record; `matchesSearch` is the regex search
   * and `holds` the capacity query, both run by the database.
   */
  predicate Selects(l: Lookup, x: Rec, matchesSearch: (Rec, string) -> bool, holds: (Rec, string, string) -> bool)
  {
    match l
    case BySearch(text) => matchesSearch(x, text)
    case ByStatus(s) => x.status == s
    case ByType(t) => x.kind == t
    case ByFeature(f) => f in x.features
    case ByCapacity(m, u) => holds(x, m, u)
    case All => true
  }

  /** The records a lookup returns, in stored order. */
  function Run(recs: seq<Rec>, l: Lookup, matchesSearch: (Rec, string) -> bool, holds: (Rec, string, string) -> bool)
    : (r: seq<Rec>)
    ensures forall x :: x in r <==> x in recs && Selects(l, x, matchesSearch, holds)
    ensures l == All ==> r == recs
  {
    if l == All then recs else Filter(recs, (x: Rec) => Selects(l, x, matchesSearch, holds))
  }

  class WarehouseService {
    var recs: seq<Rec>

    predicate Valid()
      reads this
    {
      UniqueIds(recs)
    }

    constructor ()
      ensures Valid() && recs == []
    {
      recs := [];
    }

    method CreateWarehouse(data: Rec, userId: string) returns (r: Result<Rec>)
      requires Valid() && IndexOfId(recs, data.id) < 0
      modifies this
      ensures Valid()
      ensures Outcome(r, recs) == CreateSpec(old(recs), data, userId)
    {
      if IndexOfCode(recs, data.code) >= 0 {
        return Fail(AppError(400, MSG_CODE_EXISTS));
      }
      var created := data.(code := Upper(data.code), createdBy := Some(userId));
      recs := recs + [created];
      r := Ok(created);
    }

    method UpdateWarehouse(id: string, p: Patch, userId: string) returns (r: Result<Rec>)
      requires Valid()
      modifies this
      ensures Valid()
      ensures Outcome(r, recs) == UpdateSpec(old(recs), id, p, userId)
    {
      var i := IndexOfId(recs, id);
      if i < 0 {
        return Fail(AppError(404, MSG_NOT_FOUND));
      }
      if Truthy(p.code) && p.code.value != recs[i].code {
        if IndexOfCode(recs, p.code.value) >= 0 {
          return Fail(AppError(400, MSG_CODE_EXISTS));
        }
      }
      var u := ApplyPatch(recs[i], p, userId);
      recs := recs[i := u];
      r := Ok(u);
    }

    method DeleteWarehouse(id: string) returns (r: Result<string>)
      requires Valid()
      modifies this
      ensures Valid()
      ensures Outcome(r, recs) == DeleteSpec(old(recs), id)
    {
      var i := IndexOfId(recs, id);
      if i < 0 {
        return Fail(AppError(404, MSG_NOT_FOUND));
      }
      CutRecUnique(recs, i, recs[..i] + recs[i + 1..]);
      recs := recs[..i] + recs[i + 1..];
      r := Ok(MSG_DELETED);
    }

    method GetWarehouse(id: string) returns (r: Result<Rec>)
      ensures r.Ok? <==> exists k :: 0 <= k < |recs| && recs[k].id == id
      ensures r.Ok? ==> r.value in recs && r.value.id == id
      ensures r.Fail? ==> r == Fail(AppError(404, MSG_NOT_FOUND))
    {
      var i := IndexOfId(recs, id);
      if i < 0 {
        return Fail(AppError(404, MSG_NOT_FOUND));
      }
      r := Ok(recs[i]);
    }

    method GetAllWarehouses(q: Query, matchesSearch: (Rec, string) -> bool, holds: (Rec, string, string) -> bool)
      returns (r: seq<Rec>)
      ensures r == Run(recs, Dispatch(q), matchesSearch, holds)
    {
      r := Run(recs, Dispatch(q), matchesSearch, holds);
    }

    /** updateWarehouseStatus: 404, else the status and updatedBy are written. */
    method UpdateWarehouseStatus(id: string, status: string, userId: string) returns (r: Result<Rec>)
      requires Valid()
      modifies this
      ensures Valid()
      ensures IndexOfId(old(recs), id) < 0 ==> r == Fail(AppError(404, MSG_NOT_FOUND)) && recs == old(recs)
      ensures IndexOfId(old(recs), id) >= 0 ==>
                var i := IndexOfId(old(recs), id);
                var u := old(recs)[i].(status := status, updatedBy := Some(userId));
                r == Ok(u) && recs == old(recs)[i := u]
    {
      var i := IndexOfId(recs, id);
      if i < 0 {
        return Fail(AppError(404, MSG_NOT_FOUND));
      }
      var u := recs[i].(status := status, updatedBy := Some(userId));
      recs := recs[i := u];
      r := Ok(u);
    }

    method GetActiveWarehouses() returns (r: seq<Rec>)
      ensures forall x :: x in r <==> x in recs && x.status == "active"
    {
      r := Filter(recs, (x: Rec) => x.status == "active");
    }

    method GetWarehousesByType(kind: string) returns (r: seq<Rec>)
      ensures forall x :: x in r <==> x in recs && x.kind == kind
    {
      r := Filter(recs, (x: Rec) => x.kind == kind);
    }

    method GetWarehousesByFeature(feature: string) returns (r: seq<Rec>)
      ensures forall x :: x in r <==> x in recs && feature in x.features
    {
      r := Filter(recs, (x: Rec) => feature in x.features);
    }
  }
}
