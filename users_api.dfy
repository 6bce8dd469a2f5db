/** The registration endpoint. POST needs a name, an email and a password,
    refuses an email that is already registered, inserts the user as a
    CUSTOMER without storing the password, and creates the new user's cart. */
module UsersApi {
  import opened Common
  import opened Db
  import CartApi

  const FieldsRequired: string := "Name, email, and password are required"
  const EmailTaken: string := "User with this email already exists"

  /** The fields of the request body; an absent field is None. */
  datatype Registration = Registration(name: Option<string>, email: Option<string>, phone: Option<string>,
                                       password: Option<string>)

  /** `!name || !email || !password` is false. */
  predicate FieldsGiven(req: Registration)
  {
    TruthyString(req.name) && TruthyString(req.email) && TruthyString(req.password)
  }

  /** `user.findUnique({ where: { email } })`. */
  function UserByEmail(users: seq<User>, email: string): (r: Option<User>)
    ensures r.Some? <==> exists u :: u in users && u.email == email
    ensures r.Some? ==> r.value in users && r.value.email == email
  {
    if users == [] then None
    else if users[0].email == email then Some(users[0])
    else UserByEmail(users[1..], email)
  }

  /** The row `user.create` inserts: the password is not part of it. */
  function NewUser(id: Id, req: Registration, now: int): User
    requires FieldsGiven(req)
  {
    User(id, req.name.value, req.email.value, req.phone, None, Customer, now)
  }

  /** The reply of a POST and the tables it leaves. */
  datatype RegisterOutcome = RegisterOutcome(reply: Reply<User>, users: seq<User>, carts: seq<Cart>, nextId: Id)

  /** The POST handler on table values: the validation, then the user row, then
      the user's cart. */
  function Register(users: seq<User>, carts: seq<Cart>, nextId: Id, req: Registration, now: int): RegisterOutcome
  {
    if !FieldsGiven(req) then RegisterOutcome(Failure(400, FieldsRequired), users, carts, nextId)
    else if UserByEmail(users, req.email.value).Some? then RegisterOutcome(Failure(400, EmailTaken), users, carts, nextId)
    else
      var user := NewUser(nextId, req, now);
      RegisterOutcome(Success(201, user), users + [user], carts + [Cart(nextId + 1, nextId)], nextId + 2)
  }

  /** A missing name, email or password, or a registered email, is refused
      with 400 and nothing is inserted; nothing else fails. */
  lemma RegisterRefusals(users: seq<User>, carts: seq<Cart>, nextId: Id, req: Registration, now: int)
    ensures var o := Register(users, carts, nextId, req, now);
      && (o.reply.Failure? <==> !FieldsGiven(req) || exists u :: u in users && u.email == req.email.value)
      && (o.reply.Failure? ==> o.users == users && o.carts == carts && o.nextId == nextId)
      && (!FieldsGiven(req) ==> o.reply == Failure(400, FieldsRequired))
      && (FieldsGiven(req) && (exists u :: u in users && u.email == req.email.value) ==>
            o.reply == Failure(400, EmailTaken))
  {
  }

  /** A registration inserts one CUSTOMER with a fresh id, the given name,
      email and phone and no stored password, and the users stay valid. */
  lemma RegisterCreatesCustomer(users: seq<User>, carts: seq<Cart>, nextId: Id, req: Registration, now: int)
    requires UsersValid(users, nextId)
    requires FieldsGiven(req) && forall u :: u in users ==> u.email != req.email.value
    ensures var o := Register(users, carts, nextId, req, now);
      var user := o.reply.value;
      && o.reply.Success? && o.reply.status == 201
      && user.id !in UserIds(users) && o.users == users + [user]
      && user.role == Customer && user.password.None?
      && user.name == req.name.value && user.email == req.email.value && user.phone == req.phone
      && UsersValid(o.users, o.nextId)
  {
    var o := Register(users, carts, nextId, req, now);
    forall i, j | 0 <= i < j < |o.users| ensures o.users[i].email != o.users[j].email {
      if j == |users| {
        assert o.users[i] in users;
      }
    }
  }

  /** A registration adds exactly one cart, the new user's only cart, and
      keeps one cart per user. */
  lemma RegisterCreatesOneCart(users: seq<User>, carts: seq<Cart>, nextId: Id, req: Registration, now: int)
    requires UsersValid(users, nextId) && CartsValid(users, carts, nextId)
    requires FieldsGiven(req) && forall u :: u in users ==> u.email != req.email.value
    ensures var o := Register(users, carts, nextId, req, now);
      && o.reply.Success?
      && |o.carts| == |carts| + 1 && CartsOf(o.carts, o.reply.value.id) == [o.carts[|carts|]]
      && CartsValid(o.users, o.carts, o.nextId)
  {
    var o := Register(users, carts, nextId, req, now);
    var cart := Cart(nextId + 1, nextId);
    assert o.carts == carts + [cart];
    assert CartOf(carts, nextId).None?;
    FilterKeepsNone(carts, OfUser(nextId));
    FilterAppend(carts, [cart], OfUser(nextId));
    forall i, j | 0 <= i < j < |o.carts| ensures o.carts[i].userId != o.carts[j].userId {
      if j == |carts| {
        assert o.carts[i] in carts;
      }
    }
    assert UserIds(users) <= UserIds(o.users);
  }

  /** Adding a user whose email is new keeps the tables that refer to users valid. */
  lemma UserAddedKeepsValid(users: seq<User>, carts: seq<Cart>, addresses: seq<Address>, nextId: Id, user: User)
    requires UsersValid(users, nextId) && CartsValid(users, carts, nextId) && AddressesValid(users, addresses, nextId)
    requires user.id == nextId && forall u :: u in users ==> u.email != user.email
    ensures UsersValid(users + [user], nextId + 1) && CartsValid(users + [user], carts, nextId + 1)
    ensures AddressesValid(users + [user], addresses, nextId + 1)
    ensures CartOf(carts, user.id).None?
  {
    var r := users + [user];
    forall i, j | 0 <= i < j < |r| ensures r[i].email != r[j].email {
      if j == |users| {
        assert r[i] in users;
      }
    }
    assert UserIds(users) <= UserIds(r);
  }

  /** `user.create`: the new user row under the next id. */
  method InsertUser(db: Database, user: User)
    requires db.Valid() && user.id == db.nextId && forall u :: u in db.users ==> u.email != user.email
    modifies db`users, db`nextId
    ensures db.Valid()
    ensures db.users == old(db.users) + [user] && db.nextId == old(db.nextId) + 1
    ensures CartOf(db.carts, user.id).None? && user.id in UserIds(db.users)
  {
    UserAddedKeepsValid(db.users, db.carts, db.addresses, db.nextId, user);
    var id := db.NewId();
    db.users := db.users + [user];
    assert user in db.users;
  }

  /** The POST handler on the database. */
  method RegisterUser(db: Database, req: Registration, now: int) returns (r: Reply<User>)
    requires db.Valid()
    modifies db`users, db`carts, db`nextId
    ensures db.Valid()
    ensures RegisterOutcome(r, db.users, db.carts, db.nextId) == Register(old(db.users), old(db.carts), old(db.nextId), req, now)
  {
    if !FieldsGiven(req) {
      return Failure(400, FieldsRequired);
    }
    var existing := UserByEmail(db.users, req.email.value);
    if existing.Some? {
      return Failure(400, EmailTaken);
    }
    var user := NewUser(db.nextId, req, now);
    InsertUser(db, user);
    var cart := CartApi.CreateCart(db, user.id);
    r := Success(201, user);
  }
}
