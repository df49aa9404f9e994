/*
 * services/SupplierService.js over repositories/SupplierRepository.js: the
 * email uniqueness guard of create and update, the 404 guards, the status
 * update and the query dispatch of getAllSuppliers. The collection is a
 * sequence of records in natural order; findOne is the first match.
 */
module SupplierService {
  import opened Common

  const MSG_EMAIL_EXISTS: string := "Supplier with this email already exists"
  const MSG_NOT_FOUND: string := "Supplier not found"
  const MSG_DELETED: string := "Supplier deleted successfully"
  /** The repository has update and delete but no findByIdAndUpdate / findByIdAndDelete. */
  const MSG_NO_FIND_BY_ID_AND_UPDATE: string := "this.supplierRepository.findByIdAndUpdate is not a function"
  const MSG_NO_FIND_BY_ID_AND_DELETE: string := "this.supplierRepository.findByIdAndDelete is not a function"

  /** A stored supplier, restricted to the fields the service reads or writes. */
  datatype Rec = Rec(id: string, name: string, email: string, status: string,
                     createdBy: Option<string>, updatedBy: Option<string>)

  /** The fields an update may carry. */
  datatype Patch = Patch(name: Option<string>, email: Option<string>, status: Option<string>)

  datatype Outcome<T> = Outcome(result: Result<T>, recs: seq<Rec>)

  function IndexOfId(recs: seq<Rec>, id: string): (i: int)
    ensures -1 <= i < |recs|
    ensures 0 <= i ==> recs[i].id == id
    ensures i < 0 ==> forall k :: 0 <= k < |recs| ==> recs[k].id != id
  {
    FindIndex(recs, (r: Rec) => r.id == id)
  }

  /** findByEmail. */
  function IndexOfEmail(recs: seq<Rec>, email: string): (i: int)
    ensures -1 <= i < |recs|
    ensures 0 <= i ==> recs[i].email == email
    ensures i < 0 ==> forall k :: 0 <= k < |recs| ==> recs[k].email != email
  {
    FindIndex(recs, (r: Rec) => r.email == email)
  }

  predicate UniqueIds(recs: seq<Rec>)
  {
    forall i, j :: 0 <= i < j < |recs| ==> recs[i].id != recs[j].id
  }

  predicate UniqueEmails(recs: seq<Rec>)
  {
    forall i, j :: 0 <= i < j < |recs| ==> recs[i].email != recs[j].email
  }

  /** createSupplier: 400 for an email already in use, else the record with its creator is appended. */
  function CreateSpec(recs: seq<Rec>, data: Rec, userId: string): Outcome<Rec>
  {
    if IndexOfEmail(recs, data.email) >= 0 then Outcome(Fail(AppError(400, MSG_EMAIL_EXISTS)), recs)
    else
      var created := data.(createdBy := Some(userId));
      Outcome(Ok(created), recs + [created])
  }

  function ApplyPatch(r: Rec, p: Patch, userId: string): (u: Rec)
    ensures u.id == r.id
  {
    r.(name := if p.name.Some? then p.name.value else r.name,
       email := if p.email.Some? then p.email.value else r.email,
       status := if p.status.Some? then p.status.value else r.status,
       updatedBy := Some(userId))
  }

  /** updateSupplier through the repository's update: 404, then the email check only when the email changes. */
  function UpdateSpec(recs: seq<Rec>, id: string, p: Patch, userId: string): Outcome<Rec>
  {
    var i := IndexOfId(recs, id);
    if i < 0 then Outcome(Fail(AppError(404, MSG_NOT_FOUND)), recs)
    else if Truthy(p.email) && p.email.value != recs[i].email && IndexOfEmail(recs, p.email.value) >= 0 then
      Outcome(Fail(AppError(400, MSG_EMAIL_EXISTS)), recs)
    else
      var u := ApplyPatch(recs[i], p, userId);
      Outcome(Ok(u), recs[i := u])
  }

  /** deleteSupplier through the repository's delete. */
  function DeleteSpec(recs: seq<Rec>, id: string): Outcome<string>
  {
    var i := IndexOfId(recs, id);
    if i < 0 then Outcome(Fail(AppError(404, MSG_NOT_FOUND)), recs)
    else Outcome(Ok(MSG_DELETED), recs[..i] + recs[i + 1..])
  }

  /** updateSupplier as written: the guards, then a call the repository does not define. */
  function UpdateAsWritten(recs: seq<Rec>, id: string, p: Patch, userId: string): Outcome<Rec>
  {
    var out := UpdateSpec(recs, id, p, userId);
    if out.result.Fail? then out else Outcome(Fail(Thrown(MSG_NO_FIND_BY_ID_AND_UPDATE)), recs)
  }

  /** deleteSupplier as written. */
  function DeleteAsWritten(recs: seq<Rec>, id: string): Outcome<string>
  {
    if IndexOfId(recs, id) < 0 then Outcome(Fail(AppError(404, MSG_NOT_FOUND)), recs)
    else Outcome(Fail(Thrown(MSG_NO_FIND_BY_ID_AND_DELETE)), recs)
  }

  /** As written, no update and no delete reaches the collection; the corrected ones apply exactly where these throw. */
  lemma UpdateDeleteNeverApplyAsWritten(recs: seq<Rec>, id: string, p: Patch, userId: string)
    ensures UpdateAsWritten(recs, id, p, userId).recs == recs && UpdateAsWritten(recs, id, p, userId).result.Fail?
    ensures UpdateSpec(recs, id, p, userId).result.Ok? <==>
            UpdateAsWritten(recs, id, p, userId).result == Fail(Thrown(MSG_NO_FIND_BY_ID_AND_UPDATE))
    ensures DeleteAsWritten(recs, id).recs == recs && DeleteAsWritten(recs, id).result.Fail?
    ensures DeleteSpec(recs, id).result.Ok? <==>
            DeleteAsWritten(recs, id).result == Fail(Thrown(MSG_NO_FIND_BY_ID_AND_DELETE))
  {
  }

  /** Creation keeps emails unique, and succeeds exactly when the email is new. */
  lemma CreateKeepsEmailsUnique(recs: seq<Rec>, data: Rec, userId: string)
    requires UniqueEmails(recs)
    ensures UniqueEmails(CreateSpec(recs, data, userId).recs)
    ensures CreateSpec(recs, data, userId).result.Ok? <==> forall k :: 0 <= k < |recs| ==> recs[k].email != data.email
  {
  }

  /** An update that keeps the email, or carries none, is never refused for the email. */
  lemma SameEmailSkipsCheck(recs: seq<Rec>, id: string, p: Patch, userId: string)
    requires IndexOfId(recs, id) >= 0
    requires p.email.None? || p.email == Some(recs[IndexOfId(recs, id)].email)
    ensures UpdateSpec(recs, id, p, userId).result.Ok?
  {
  }

  /** An accepted update keeps emails unique when a present email is non-empty. */
  lemma UpdateKeepsEmailsUnique(recs: seq<Rec>, id: string, p: Patch, userId: string)
    requires UniqueEmails(recs)
    requires p.email.Some? ==> p.email.value != ""
    ensures UniqueEmails(UpdateSpec(recs, id, p, userId).recs)
  {
    var i := IndexOfId(recs, id);
    var out := UpdateSpec(recs, id, p, userId);
    if i >= 0 && out.result.Ok? {
      var u := ApplyPatch(recs[i], p, userId);
      forall a, b | 0 <= a < b < |out.recs| ensures out.recs[a].email != out.recs[b].email {
        if a == i || b == i {
          var other := if a == i then b else a;
          if p.email.Some? && p.email.value != recs[i].email {
            assert recs[other].email != p.email.value;
          }
        }
      }
    }
  }

  /** A deletion removes exactly the record with that id. */
  lemma DeleteRemovesOnlyThatSupplier(recs: seq<Rec>, id: string)
    requires UniqueIds(recs) && IndexOfId(recs, id) >= 0
    ensures var out := DeleteSpec(recs, id);
            |out.recs| == |recs| - 1 && UniqueIds(out.recs) &&
            (forall x :: x in out.recs <==> x in recs && x.id != id)
  {
    var i := IndexOfId(recs, id);
    assert DeleteSpec(recs, id).recs == recs[..i] + recs[i + 1..];
    CutRec(recs, i, DeleteSpec(recs, id).recs);
    CutRecUnique(recs, i, DeleteSpec(recs, id).recs);
  }

  lemma CutRec(recs: seq<Rec>, i: int, after: seq<Rec>)
    requires UniqueIds(recs) && 0 <= i < |recs|
    requires after == recs[..i] + recs[i + 1..]
    ensures |after| == |recs| - 1
    ensures forall x :: x in after <==> x in recs && x.id != recs[i].id
  {
    forall x | x in after ensures x in recs && x.id != recs[i].id {
      var k :| 0 <= k < |after| && after[k] == x;
      if k < i { assert after[k] == recs[k]; } else { assert after[k] == recs[k + 1]; }
    }
    forall x | x in recs && x.id != recs[i].id ensures x in after {
      var k :| 0 <= k < |recs| && recs[k] == x;
      if k < i { assert after[k] == x; } else { assert after[k - 1] == x; }
    }
  }

  lemma CutRecUnique(recs: seq<Rec>, i: int, after: seq<Rec>)
    requires UniqueIds(recs) && 0 <= i < |recs|
    requires after == recs[..i] + recs[i + 1..]
    ensures UniqueIds(after)
  {
    forall a, b | 0 <= a < b < |after| ensures after[a].id != after[b].id {
      var a' := if a < i then a else a + 1;
      var b' := if b < i then b else b + 1;
      assert after[a] == recs[a'] && after[b] == recs[b'];
    }
  }

  /** The query fields of getAllSuppliers; a present value is the given string. */
  datatype Query = Query(status: Option<string>, search: Option<string>)

  /** The repository call a query selects. */
  datatype Lookup = BySearch(text: string) | ByStatus(status: string) | All

  /** getAllSuppliers: a search wins over a status; with neither, every supplier. */
  function Dispatch(q: Query): (l: Lookup)
    ensures Truthy(q.search) ==> l == BySearch(q.search.value)
    ensures !Truthy(q.search) && Truthy(q.status) ==> l == ByStatus(q.status.value)
    ensures l == All <==> !Truthy(q.search) && !Truthy(q.status)
  {
    if Truthy(q.search) then BySearch(q.search.value)
    else if Truthy(q.status) then ByStatus(q.status.value)
    else All
  }

  /** Whether a lookup returns a record; `matchesSearch` is the case-insensitive regex search. */
  predicate Selects(l: Lookup, x: Rec, matchesSearch: (Rec, string) -> bool)
  {
    match l
    case BySearch(text) => matchesSearch(x, text)
    case ByStatus(s) => x.status == s
    case All => true
  }

  /** The records a lookup returns, in stored order. */
  function Run(recs: seq<Rec>, l: Lookup, matchesSearch: (Rec, string) -> bool): (r: seq<Rec>)
    ensures forall x :: x in r <==> x in recs && Selects(l, x, matchesSearch)
    ensures l == All ==> r == recs
  {
    if l == All then recs else Filter(recs, (x: Rec) => Selects(l, x, matchesSearch))
  }

  class SupplierService {
    var recs: seq<Rec>

    predicate Valid()
      reads this
    {
      UniqueIds(recs)
    }

    constructor ()
      ensures Valid() && recs == []
    {
      recs := [];
    }

    method CreateSupplier(data: Rec, userId: string) returns (r: Result<Rec>)
      requires Valid() && IndexOfId(recs, data.id) < 0
      modifies this
      ensures Valid()
      ensures Outcome(r, recs) == CreateSpec(old(recs), data, userId)
    {
      if IndexOfEmail(recs, data.email) >= 0 {
        return Fail(AppError(400, MSG_EMAIL_EXISTS));
      }
      var created := data.(createdBy := Some(userId));
      recs := recs + [created];
      r := Ok(created);
    }

    method UpdateSupplier(id: string, p: Patch, userId: string) returns (r: Result<Rec>)
      requires Valid()
      modifies this
      ensures Valid()
      ensures Outcome(r, recs) == UpdateSpec(old(recs), id, p, userId)
    {
      var i := IndexOfId(recs, id);
      if i < 0 {
        return Fail(AppError(404, MSG_NOT_FOUND));
      }
      if Truthy(p.email) && p.email.value != recs[i].email {
        if IndexOfEmail(recs, p.email.value) >= 0 {
          return Fail(AppError(400, MSG_EMAIL_EXISTS));
        }
      }
      var u := ApplyPatch(recs[i], p, userId);
      recs := recs[i := u];
      r := Ok(u);
    }

    method DeleteSupplier(id: string) returns (r: Result<string>)
      requires Valid()
      modifies this
      ensures Valid()
      ensures Outcome(r, recs) == DeleteSpec(old(recs), id)
    {
      var i := IndexOfId(recs, id);
      if i < 0 {
        return Fail(AppError(404, MSG_NOT_FOUND));
      }
      CutRecUnique(recs, i, recs[..i] + recs[i + 1..]);
      recs := recs[..i] + recs[i + 1..];
      r := Ok(MSG_DELETED);
    }

    method GetSupplier(id: string) returns (r: Result<Rec>)
      ensures r.Ok? <==> exists k :: 0 <= k < |recs| && recs[k].id == id
      ensures r.Ok? ==> r.value in recs && r.value.id == id
      ensures r.Fail? ==> r == Fail(AppError(404, MSG_NOT_FOUND))
    {
      var i := IndexOfId(recs, id);
      if i < 0 {
        return Fail(AppError(404, MSG_NOT_FOUND));
      }
      r := Ok(recs[i]);
    }

    method GetAllSuppliers(q: Query, matchesSearch: (Rec, string) -> bool) returns (r: seq<Rec>)
      ensures r == Run(recs, Dispatch(q), matchesSearch)
    {
      r := Run(recs, Dispatch(q), matchesSearch);
    }

    /** updateSupplierStatus: 404, else the status and updatedBy are written. */
    method UpdateSupplierStatus(id: string, status: string, userId: string) returns (r: Result<Rec>)
      requires Valid()
      modifies this
      ensures Valid()
      ensures IndexOfId(old(recs), id) < 0 ==> r == Fail(AppError(404, MSG_NOT_FOUND)) && recs == old(recs)
      ensures IndexOfId(old(recs), id) >= 0 ==>
                var i := IndexOfId(old(recs), id);
                var u := old(recs)[i].(status := status, updatedBy := Some(userId));
                r == Ok(u) && recs == old(recs)[i := u]
    {
      var i := IndexOfId(recs, id);
      if i < 0 {
        return Fail(AppError(404, MSG_NOT_FOUND));
      }
      var u := recs[i].(status := status, updatedBy := Some(userId));
      recs := recs[i := u];
      r := Ok(u);
    }

    /** getActiveSuppliers. */
    method GetActiveSuppliers() returns (r: seq<Rec>)
      ensures forall x :: x in r <==> x in recs && x.status == "active"
    {
      r := Filter(recs, (x: Rec) => x.status == "active");
    }
  }
}
