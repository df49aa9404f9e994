/*
 * models/address/address.model.js: setAsDefault, verify, archive and the
 * statics getDefaultAddress and getUserAddresses, over the address
 * collection. A document method acts on the stored address at index `i`,
 * loaded just before the call; `save` writes the paths whose value the
 * method changed, as Mongoose does.
 */
module Addresses {
  import opened Common

  datatype Address = Address(id: string, user: string, kind: string, isDefault: bool, isVerified: bool,
                             status: string, createdAt: int)

  /** At most one default address per user and type. */
  predicate OneDefaultPerPair(addrs: seq<Address>)
  {
    forall j, k :: 0 <= j < k < |addrs| && addrs[j].user == addrs[k].user && addrs[j].kind == addrs[k].kind ==>
      !(addrs[j].isDefault && addrs[k].isDefault)
  }

  /** The updateMany of setAsDefault: isDefault cleared on every address of that user and type. */
  function ClearDefaults(addrs: seq<Address>, user: string, kind: string): (r: seq<Address>)
    ensures |r| == |addrs|
    ensures forall k :: 0 <= k < |r| ==>
              r[k] == if addrs[k].user == user && addrs[k].kind == kind then addrs[k].(isDefault := false) else addrs[k]
  {
    if addrs == [] then []
    else
      var a := addrs[|addrs| - 1];
      ClearDefaults(addrs[..|addrs| - 1], user, kind) +
      [if a.user == user && a.kind == kind then a.(isDefault := false) else a]
  }

  /** setAsDefault with the flag written in any case. */
  function SetAsDefaultSpec(addrs: seq<Address>, i: int): seq<Address>
    requires 0 <= i < |addrs|
  {
    ClearDefaults(addrs, addrs[i].user, addrs[i].kind)[i := addrs[i].(isDefault := true)]
  }

  /**
   * setAsDefault as written: when the loaded address is already the
   * default, `this.isDefault = true` is no change, `save` writes nothing,
   * and the updateMany has cleared the flag in the collection.
   */
  function SetAsDefaultAsWritten(addrs: seq<Address>, i: int): seq<Address>
    requires 0 <= i < |addrs|
  {
    if addrs[i].isDefault then ClearDefaults(addrs, addrs[i].user, addrs[i].kind)
    else SetAsDefaultSpec(addrs, i)
  }

  /**
   * After setAsDefault the address is the only default of its user and
   * type; every other address keeps everything but that flag, and addresses
   * of other users or other types are untouched.
   */
  lemma SetAsDefaultEffect(addrs: seq<Address>, i: int)
    requires 0 <= i < |addrs|
    ensures var r := SetAsDefaultSpec(addrs, i);
            |r| == |addrs| && r[i] == addrs[i].(isDefault := true) &&
            (forall k :: 0 <= k < |r| && k != i && r[k].user == addrs[i].user && r[k].kind == addrs[i].kind ==>
                           !r[k].isDefault) &&
            (forall k :: 0 <= k < |r| && k != i ==> r[k].(isDefault := addrs[k].isDefault) == addrs[k]) &&
            (forall k :: 0 <= k < |r| && (addrs[k].user != addrs[i].user || addrs[k].kind != addrs[i].kind) ==>
                           r[k] == addrs[k])
    ensures OneDefaultPerPair(addrs) ==> OneDefaultPerPair(SetAsDefaultSpec(addrs, i))
  {
  }

  /**
   * As written, setting the default address again leaves its user and type
   * with no default at all; on an address that is not yet the default it
   * behaves as intended.
   */
  lemma RepeatedSetAsDefaultClearsAsWritten(addrs: seq<Address>, i: int)
    requires 0 <= i < |addrs|
    ensures !addrs[i].isDefault ==> SetAsDefaultAsWritten(addrs, i) == SetAsDefaultSpec(addrs, i)
    ensures addrs[i].isDefault ==>
              var r := SetAsDefaultAsWritten(addrs, i);
              forall k :: 0 <= k < |r| && r[k].user == addrs[i].user && r[k].kind == addrs[i].kind ==> !r[k].isDefault
    ensures addrs[i].isDefault && addrs[i].status == "active" ==>
              DefaultAddress(SetAsDefaultAsWritten(addrs, i), addrs[i].user, addrs[i].kind).None? &&
              DefaultAddress(SetAsDefaultSpec(addrs, i), addrs[i].user, addrs[i].kind) ==
                Some(SetAsDefaultSpec(addrs, i)[i])
  {
    var a := addrs[i];
    if a.isDefault && a.status == "active" {
      DefaultAfterSetAsDefault(addrs, i);
    }
  }

  /** verify */
  function VerifySpec(addrs: seq<Address>, i: int): seq<Address>
    requires 0 <= i < |addrs|
  {
    addrs[i := addrs[i].(isVerified := true)]
  }

  /** archive */
  function ArchiveSpec(addrs: seq<Address>, i: int): seq<Address>
    requires 0 <= i < |addrs|
  {
    addrs[i := addrs[i].(status := "archived")]
  }

  predicate IsDefaultFor(a: Address, user: string, kind: string)
  {
    a.user == user && a.kind == kind && a.isDefault && a.status == "active"
  }

  /** getDefaultAddress: the first active default address of the user and type. */
  function DefaultAddress(addrs: seq<Address>, user: string, kind: string): (r: Option<Address>)
    ensures r.Some? <==> exists k :: 0 <= k < |addrs| && IsDefaultFor(addrs[k], user, kind)
    ensures r.Some? ==> r.value in addrs && IsDefaultFor(r.value, user, kind)
    ensures OneDefaultPerPair(addrs) ==> forall k :: 0 <= k < |addrs| && IsDefaultFor(addrs[k], user, kind) ==> r == Some(addrs[k])
  {
    var i := FindIndex(addrs, (a: Address) => IsDefaultFor(a, user, kind));
    if i < 0 then None else Some(addrs[i])
  }

  /** Once an active address is made the default, getDefaultAddress returns it. */
  lemma DefaultAfterSetAsDefault(addrs: seq<Address>, i: int)
    requires 0 <= i < |addrs| && addrs[i].status == "active"
    ensures DefaultAddress(SetAsDefaultSpec(addrs, i), addrs[i].user, addrs[i].kind) == Some(SetAsDefaultSpec(addrs, i)[i])
  {
    var r := SetAsDefaultSpec(addrs, i);
    SetAsDefaultEffect(addrs, i);
    assert IsDefaultFor(r[i], addrs[i].user, addrs[i].kind);
    var d := DefaultAddress(r, addrs[i].user, addrs[i].kind);
    var k :| 0 <= k < |r| && r[k] == d.value;
    assert k == i;
  }

  /** Archiving the default address leaves its user and type without one. */
  lemma ArchiveRemovesDefault(addrs: seq<Address>, i: int)
    requires 0 <= i < |addrs| && OneDefaultPerPair(addrs) && addrs[i].isDefault
    ensures DefaultAddress(ArchiveSpec(addrs, i), addrs[i].user, addrs[i].kind).None?
    ensures OneDefaultPerPair(ArchiveSpec(addrs, i)) && OneDefaultPerPair(VerifySpec(addrs, i))
  {
  }

  /** `if (type)`: the type filter, present only for a non-empty type. */
  function TypeFilter(kind: Option<string>): (f: Option<string>)
    ensures f.Some? <==> kind.Some? && kind.value != ""
    ensures f.Some? ==> f == kind
  {
    if Truthy(kind) then kind else None
  }

  /** The selection of getUserAddresses: active, of the user, and of the filtered type if any. */
  predicate Listed(a: Address, user: string, filter: Option<string>)
  {
    a.user == user && a.status == "active" && (filter.Some? ==> a.kind == filter.value)
  }

  /** The sort { isDefault: -1, createdAt: -1 }. */
  predicate DefaultThenNewer(a: Address, b: Address)
  {
    (a.isDefault && !b.isDefault) || (a.isDefault == b.isDefault && a.createdAt >= b.createdAt)
  }

  /** getUserAddresses */
  function UserAddresses(addrs: seq<Address>, user: string, kind: Option<string>): seq<Address>
  {
    assert TotalPreorder(DefaultThenNewer);
    SortBy(Filter(addrs, (a: Address) => Listed(a, user, TypeFilter(kind))), DefaultThenNewer)
  }

  /**
   * The list holds exactly the user's active addresses of the type (of any
   * type when none is given), each as often as stored, defaults first and
   * newest first within each group.
   */
  lemma UserAddressesExact(addrs: seq<Address>, user: string, kind: Option<string>)
    ensures var r := UserAddresses(addrs, user, kind);
            (forall a :: multiset(r)[a] == if Listed(a, user, TypeFilter(kind)) then multiset(addrs)[a] else 0) &&
            (forall a :: a in r <==> a in addrs && Listed(a, user, TypeFilter(kind))) &&
            (forall j, k :: 0 <= j < k < |r| && !r[j].isDefault ==> !r[k].isDefault) &&
            (forall j, k :: 0 <= j < k < |r| && r[j].isDefault == r[k].isDefault ==> r[j].createdAt >= r[k].createdAt)
  {
    var r := UserAddresses(addrs, user, kind);
    FilterMultiset(addrs, (a: Address) => Listed(a, user, TypeFilter(kind)));
    forall a ensures a in r <==> a in addrs && Listed(a, user, TypeFilter(kind)) {
      assert a in r <==> a in multiset(r);
      assert a in addrs <==> a in multiset(addrs);
    }
  }

  /** An empty type string is no filter, like a missing one. */
  lemma EmptyTypeIsNoFilter(addrs: seq<Address>, user: string)
    ensures UserAddresses(addrs, user, Some("")) == UserAddresses(addrs, user, None)
  {
  }

  /** The address collection. */
  class AddressCollection {
    var addrs: seq<Address>

    constructor (initial: seq<Address>)
      ensures addrs == initial
    {
      addrs := initial;
    }

    method SetAsDefault(i: int) returns (saved: Address)
      requires 0 <= i < |addrs|
      modifies this
      ensures addrs == SetAsDefaultSpec(old(addrs), i) && saved == addrs[i]
    {
      addrs := ClearDefaults(addrs, addrs[i].user, addrs[i].kind)[i := addrs[i].(isDefault := true)];
      saved := addrs[i];
    }

    method Verify(i: int) returns (saved: Address)
      requires 0 <= i < |addrs|
      modifies this
      ensures addrs == VerifySpec(old(addrs), i) && saved == addrs[i]
    {
      addrs := addrs[i := addrs[i].(isVerified := true)];
      saved := addrs[i];
    }

    method Archive(i: int) returns (saved: Address)
      requires 0 <= i < |addrs|
      modifies this
      ensures addrs == ArchiveSpec(old(addrs), i) && saved == addrs[i]
    {
      addrs := addrs[i := addrs[i].(status := "archived")];
      saved := addrs[i];
    }

    method GetDefaultAddress(user: string, kind: string) returns (r: Option<Address>)
      ensures r == DefaultAddress(addrs, user, kind)
    {
      r := DefaultAddress(addrs, user, kind);
    }

    method GetUserAddresses(user: string, kind: Option<string>) returns (r: seq<Address>)
      ensures r == UserAddresses(addrs, user, kind)
    {
      r := UserAddresses(addrs, user, kind);
    }
  }
}
