/** The addresses route: GET lists the session user's addresses, defaults
    first and then newest first; POST validates the fields, clears the
    user's other defaults of the same type when the new address is to be the
    default, and inserts it. */
module AddressesApi {
  import opened Common
  import opened Db

  const FieldsRequired: string := "All address fields are required"
  const CreateFailed: string := "Failed to create address"

  // ---------------------------------------------------------------------
  // GET

  predicate OwnedBy(userId: Id, a: Address) { a.userId == userId }

  function Owner(userId: Id): Address -> bool
  {
    (a: Address) => OwnedBy(userId, a)
  }

  /** `orderBy: [{ isDefault: "desc" }, { createdAt: "desc" }]`. */
  predicate DefaultThenNewest(a: Address, b: Address)
  {
    (a.isDefault && !b.isDefault) || (a.isDefault == b.isDefault && a.createdAt >= b.createdAt)
  }

  lemma DefaultThenNewestIsTotal()
    ensures TotalPreorder(DefaultThenNewest)
  {
  }

  /** The session user's addresses: every one of them once and no other
      user's; the defaults come before the others, and within each group
      newer addresses come first; 401 without a session user. */
  function ListAddresses(addresses: seq<Address>, session: Option<Id>): (r: Reply<seq<Address>>)
    ensures r.Failure? <==> session.None?
    ensures r.Failure? ==> r == Failure(401, Unauthorized)
    ensures r.Success? ==> r.status == 200
    ensures r.Success? ==> multiset(r.value) == multiset(Filter(addresses, Owner(session.value)))
    ensures r.Success? ==> forall a :: a in r.value <==> a in addresses && a.userId == session.value
    ensures r.Success? ==> forall i, j :: 0 <= i < j < |r.value| && r.value[j].isDefault ==> r.value[i].isDefault
    ensures r.Success? ==> forall i, j :: 0 <= i < j < |r.value| && r.value[i].isDefault == r.value[j].isDefault ==>
      r.value[i].createdAt >= r.value[j].createdAt
  {
    match session
    case None => Failure(401, Unauthorized)
    case Some(u) =>
      var mine := Filter(addresses, Owner(u));
      DefaultThenNewestIsTotal();
      SortBySorted(mine, DefaultThenNewest);
      var sorted := SortBy(mine, DefaultThenNewest);
      DefaultsFirstNewestFirst(sorted);
      SortedOwnRows(addresses, u, sorted);
      Success(200, sorted)
  }

  /** A reordering of the user's rows holds exactly the user's addresses. */
  lemma SortedOwnRows(addresses: seq<Address>, u: Id, sorted: seq<Address>)
    requires multiset(sorted) == multiset(Filter(addresses, Owner(u)))
    ensures forall a :: a in sorted <==> a in addresses && a.userId == u
  {
    var mine := Filter(addresses, Owner(u));
    forall a
      ensures a in sorted <==> a in addresses && a.userId == u
    {
      assert a in sorted <==> a in multiset(sorted);
      assert a in mine <==> a in multiset(mine);
      assert a in mine <==> a in addresses && Owner(u)(a);
    }
  }

  /** Rows in this order have the defaults first and, within each group,
      newer rows first. */
  lemma DefaultsFirstNewestFirst(s: seq<Address>)
    requires SortedBy(s, DefaultThenNewest)
    ensures forall i, j :: 0 <= i < j < |s| && s[j].isDefault ==> s[i].isDefault
    ensures forall i, j :: 0 <= i < j < |s| && s[i].isDefault == s[j].isDefault ==> s[i].createdAt >= s[j].createdAt
  {
    forall i, j | 0 <= i < j < |s|
      ensures DefaultThenNewest(s[i], s[j])
    {
    }
  }

  // ---------------------------------------------------------------------
  // POST

  /** The fields of the request body; a missing text field is "". */
  datatype AddressInput = AddressInput(addressType: AddressType, firstName: string, lastName: string,
                                       phone: string, address: string, city: string, state: string,
                                       country: string, zipCode: string, isDefault: bool)

  /** Every text field is truthy. */
  predicate AllFieldsGiven(input: AddressInput)
  {
    && input.firstName != "" && input.lastName != "" && input.phone != "" && input.address != ""
    && input.city != "" && input.state != "" && input.country != "" && input.zipCode != ""
  }

  /** The row `address.create` inserts. */
  function NewAddress(id: Id, userId: Id, input: AddressInput, now: int): Address
  {
    Address(id, userId, input.addressType, input.firstName, input.lastName, input.phone, input.address,
            input.city, input.state, input.country, input.zipCode, input.isDefault, now)
  }

  /** Whether `updateMany({ where: { userId, type } })` touches a row. */
  predicate SameSlot(a: Address, userId: Id, t: AddressType)
  {
    a.userId == userId && a.addressType == t
  }

  /** `updateMany({ where: { userId, type }, data: { isDefault: false } })`. */
  function ClearDefaults(addresses: seq<Address>, userId: Id, t: AddressType): (r: seq<Address>)
    ensures |r| == |addresses|
    ensures forall i :: 0 <= i < |r| ==>
      r[i] == if SameSlot(addresses[i], userId, t) then addresses[i].(isDefault := false) else addresses[i]
  {
    if addresses == [] then []
    else
      var a := addresses[0];
      [if SameSlot(a, userId, t) then a.(isDefault := false) else a] + ClearDefaults(addresses[1..], userId, t)
  }

  /** After clearing, the (user, type) slot holds no default, and no row of
      another user or type has changed. */
  lemma ClearDefaultsEmptiesSlot(addresses: seq<Address>, userId: Id, t: AddressType)
    ensures forall a :: a in ClearDefaults(addresses, userId, t) && SameSlot(a, userId, t) ==> !a.isDefault
    ensures forall a :: a in addresses && !SameSlot(a, userId, t) ==> a in ClearDefaults(addresses, userId, t)
    ensures forall a :: a in ClearDefaults(addresses, userId, t) && !SameSlot(a, userId, t) ==> a in addresses
  {
    var r := ClearDefaults(addresses, userId, t);
    forall a | a in addresses && !SameSlot(a, userId, t) ensures a in r {
      var i :| 0 <= i < |addresses| && addresses[i] == a;
      assert r[i] == a;
    }
    forall a | a in r && !SameSlot(a, userId, t) ensures a in addresses {
      var i :| 0 <= i < |r| && r[i] == a;
      assert r[i] == addresses[i];
    }
  }

  /** Clearing only removes defaults, so it keeps at most one default per slot. */
  lemma ClearDefaultsKeepsUnique(addresses: seq<Address>, userId: Id, t: AddressType)
    requires DefaultsUnique(addresses)
    ensures DefaultsUnique(ClearDefaults(addresses, userId, t))
  {
    var r := ClearDefaults(addresses, userId, t);
    forall i, j | 0 <= i < j < |r| && r[i].isDefault && r[j].isDefault
      ensures (r[i].userId, r[i].addressType) != (r[j].userId, r[j].addressType)
    {
      assert r[i] == addresses[i] && r[j] == addresses[j];
    }
  }

  /** A user without rows loses nothing to the clearing. */
  lemma ClearDefaultsOfStranger(addresses: seq<Address>, userId: Id, t: AddressType)
    requires forall a :: a in addresses ==> a.userId != userId
    ensures ClearDefaults(addresses, userId, t) == addresses
  {
    var r := ClearDefaults(addresses, userId, t);
    assert forall i :: 0 <= i < |r| ==> r[i] == addresses[i];
  }

  /** Clearing defaults keeps every row's owner and id. */
  lemma ClearDefaultsKeepsOwners(users: seq<User>, addresses: seq<Address>, userId: Id, t: AddressType, nextId: nat)
    requires AddressesValid(users, addresses, nextId)
    ensures AddressesValid(users, ClearDefaults(addresses, userId, t), nextId)
  {
    var r := ClearDefaults(addresses, userId, t);
    forall a | a in r ensures a.userId in UserIds(users) && a.id < nextId {
      var i :| 0 <= i < |r| && r[i] == a;
      assert addresses[i] in addresses;
    }
  }

  /** A row of a registered user inserted under the next id keeps the addresses valid. */
  lemma InsertKeepsOwners(users: seq<User>, addresses: seq<Address>, a: Address, nextId: nat)
    requires AddressesValid(users, addresses, nextId)
    requires a.userId in UserIds(users) && a.id == nextId
    ensures AddressesValid(users, addresses + [a], nextId + 1)
  {
  }

  /** A new row keeps defaults unique when it is not a default, or when its
      slot holds no default. */
  lemma InsertKeepsUnique(addresses: seq<Address>, a: Address)
    requires DefaultsUnique(addresses)
    requires a.isDefault ==> forall b :: b in addresses && SameSlot(b, a.userId, a.addressType) ==> !b.isDefault
    ensures DefaultsUnique(addresses + [a])
  {
    var r := addresses + [a];
    forall i, j | 0 <= i < j < |r| && r[i].isDefault && r[j].isDefault
      ensures (r[i].userId, r[i].addressType) != (r[j].userId, r[j].addressType)
    {
      if j == |addresses| {
        assert r[i] in addresses;
      }
    }
  }

  /** Creating an address. Without a session user 401; with an empty field
      400; when the address is to be the default, the user's defaults of
      that type are cleared first; a session user that is not a registered
      user fails the foreign key with 500 (no rows of such a user exist, so
      the clearing changed nothing); otherwise the row is inserted with 201. */
  method CreateAddress(db: Database, session: Option<Id>, input: AddressInput, now: int) returns (r: Reply<Address>)
    requires db.Valid()
    modifies db`addresses, db`nextId
    ensures db.Valid()
    ensures session.None? ==> r == Failure(401, Unauthorized)
    ensures session.Some? && !AllFieldsGiven(input) ==> r == Failure(400, FieldsRequired)
    ensures session.Some? && AllFieldsGiven(input) && session.value !in UserIds(db.users) ==> r == Failure(500, CreateFailed)
    ensures r.Success? <==> session.Some? && AllFieldsGiven(input) && session.value in UserIds(db.users)
    ensures r.Failure? ==> db.addresses == old(db.addresses) && db.nextId == old(db.nextId)
    ensures r.Success? ==>
      && r.status == 201
      && r.value == NewAddress(old(db.nextId), session.value, input, now)
      && db.nextId == old(db.nextId) + 1
      && db.addresses == (if input.isDefault then ClearDefaults(old(db.addresses), session.value, input.addressType)
                          else old(db.addresses)) + [r.value]
    ensures r.Success? && input.isDefault ==>
      forall a :: a in db.addresses && SameSlot(a, session.value, input.addressType) && a.isDefault ==> a == r.value
    ensures r.Success? ==>
      forall i :: 0 <= i < |old(db.addresses)| && !SameSlot(old(db.addresses)[i], session.value, input.addressType) ==>
        db.addresses[i] == old(db.addresses)[i]
  {
    if session.None? {
      return Failure(401, Unauthorized);
    }
    var userId := session.value;
    if !AllFieldsGiven(input) {
      return Failure(400, FieldsRequired);
    }
    if input.isDefault {
      ClearDefaultsKeepsUnique(db.addresses, userId, input.addressType);
      ClearDefaultsKeepsOwners(db.users, db.addresses, userId, input.addressType, db.nextId);
      ClearDefaultsEmptiesSlot(db.addresses, userId, input.addressType);
      if userId !in UserIds(db.users) {
        ClearDefaultsOfStranger(db.addresses, userId, input.addressType);
      }
      db.addresses := ClearDefaults(db.addresses, userId, input.addressType);
    }
    if userId !in UserIds(db.users) {
      return Failure(500, CreateFailed);
    }
    var before := db.addresses;
    var id := db.NewId();
    var row := NewAddress(id, userId, input, now);
    InsertKeepsUnique(before, row);
    InsertKeepsOwners(db.users, before, row, id);
    CounterGrows(db.users, db.carts, id, db.nextId);
    db.addresses := before + [row];
    r := Success(201, row);
  }
}
