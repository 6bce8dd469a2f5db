/** The sign-in configuration: a credentials check against a fixed list of
    two accounts, and the two callbacks that carry the user's role from the
    sign-in into the token and from the token into the session. */
module AuthConfig {
  import opened Common

  /** An entry of the built-in account list. */
  datatype Account = Account(id: string, email: string, name: string, role: string, password: string)

  /** What `authorize` returns: the account without its password. */
  datatype SignedIn = SignedIn(id: string, email: string, name: string, role: string)

  /** The submitted form; an absent field is None. */
  datatype Credentials = Credentials(email: Option<string>, password: Option<string>)

  const Accounts: seq<Account> := [
    Account("1", "customer@example.com", "Ahmed Mohammed", "CUSTOMER", "password123"),
    Account("2", "admin@example.com", "Admin User", "ADMIN", "password123")
  ]

  /** `users.find(u => u.email === email)`: the first account with that email. */
  function FindAccount(accounts: seq<Account>, email: string): (r: Option<nat>)
    ensures r.Some? ==> r.value < |accounts| && accounts[r.value].email == email
    ensures r.Some? ==> forall i :: 0 <= i < r.value ==> accounts[i].email != email
    ensures r.None? ==> forall i :: 0 <= i < |accounts| ==> accounts[i].email != email
  {
    if accounts == [] then None
    else if accounts[0].email == email then Some(0)
    else match FindAccount(accounts[1..], email)
      case None => None
      case Some(k) => Some(k + 1)
  }

  function WithoutPassword(a: Account): SignedIn
  {
    SignedIn(a.id, a.email, a.name, a.role)
  }

  /** `authorize(credentials)` over a given account list. */
  function AuthorizeIn(accounts: seq<Account>, credentials: Option<Credentials>): (r: Option<SignedIn>)
    ensures credentials.None? || !TruthyString(credentials.value.email) || !TruthyString(credentials.value.password)
      ==> r.None?
    ensures r.Some? ==>
      exists i :: 0 <= i < |accounts| && r.value == WithoutPassword(accounts[i]) &&
        accounts[i].email == credentials.value.email.value && accounts[i].password == credentials.value.password.value
  {
    if credentials.None? || !TruthyString(credentials.value.email) || !TruthyString(credentials.value.password) then
      None
    else
      match FindAccount(accounts, credentials.value.email.value)
      case None => None
      case Some(k) =>
        if accounts[k].password != credentials.value.password.value then None
        else Some(WithoutPassword(accounts[k]))
  }

  /** `authorize` of the configuration. */
  function Authorize(credentials: Option<Credentials>): Option<SignedIn>
  {
    AuthorizeIn(Accounts, credentials)
  }

  /** With account emails distinct, sign-in succeeds exactly for an account's
      own email and password, and returns that account without its password. */
  lemma AuthorizeExactly(accounts: seq<Account>, email: string, password: string)
    requires forall i, j :: 0 <= i < j < |accounts| ==> accounts[i].email != accounts[j].email
    requires email != "" && password != ""
    ensures forall i :: 0 <= i < |accounts| && accounts[i].email == email ==>
      (AuthorizeIn(accounts, Some(Credentials(Some(email), Some(password)))).Some? <==>
        accounts[i].password == password)
    ensures forall i :: 0 <= i < |accounts| && accounts[i].email == email && accounts[i].password == password ==>
      AuthorizeIn(accounts, Some(Credentials(Some(email), Some(password)))) == Some(WithoutPassword(accounts[i]))
    ensures (forall i :: 0 <= i < |accounts| ==> accounts[i].email != email) ==>
      AuthorizeIn(accounts, Some(Credentials(Some(email), Some(password)))).None?
  {
    var k := FindAccount(accounts, email);
    if k.Some? {
      assert forall i :: 0 <= i < |accounts| && accounts[i].email == email ==> i == k.value;
    }
  }

  /** The two built-in accounts sign in with their own password and no other. */
  lemma BuiltInAccounts(password: string)
    requires password != ""
    ensures Authorize(Some(Credentials(Some("customer@example.com"), Some(password)))).Some? <==> password == "password123"
    ensures Authorize(Some(Credentials(Some("admin@example.com"), Some(password)))).Some? <==> password == "password123"
    ensures Authorize(Some(Credentials(Some("admin@example.com"), Some("password123"))))
      == Some(SignedIn("2", "admin@example.com", "Admin User", "ADMIN"))
  {
    AuthorizeExactly(Accounts, "customer@example.com", password);
    AuthorizeExactly(Accounts, "admin@example.com", password);
    AuthorizeExactly(Accounts, "admin@example.com", "password123");
  }

  /** The JWT: `sub` is the signed-in user's id, set by the library. */
  class Token {
    var sub: Option<string>
    var role: Option<string>

    constructor (sub: Option<string>)
      ensures this.sub == sub && role.None?
    {
      this.sub := sub;
      role := None;
    }
  }

  /** The session object handed to the pages. */
  class Session {
    var userId: Option<string>
    var userRole: Option<string>

    constructor ()
      ensures userId.None? && userRole.None?
    {
      userId := None;
      userRole := None;
    }
  }

  /** The `jwt` callback: copies the role of a user who has just signed in. */
  method JwtCallback(token: Token, user: Option<SignedIn>) returns (t: Token)
    modifies token`role
    ensures t == token && token.sub == old(token.sub)
    ensures user.Some? ==> token.role == Some(user.value.role)
    ensures user.None? ==> token.role == old(token.role)
  {
    if user.Some? {
      token.role := Some(user.value.role);
    }
    t := token;
  }

  /** The `session` callback: the session user takes the token's subject as
      id and the token's role. */
  method SessionCallback(session: Session, token: Token?) returns (s: Session)
    modifies session
    ensures s == session
    ensures token != null ==> session.userId == token.sub && session.userRole == token.role
    ensures token == null ==> session.userId == old(session.userId) && session.userRole == old(session.userRole)
  {
    if token != null {
      session.userId := token.sub;
      session.userRole := token.role;
    }
    s := session;
  }

  /** A sign-in followed by the two callbacks: the session carries the id and
      role of the account whose credentials were given. */
  method SignIn(credentials: Option<Credentials>) returns (session: Session, user: Option<SignedIn>)
    ensures user == Authorize(credentials)
    ensures user.Some? ==> session.userId == Some(user.value.id) && session.userRole == Some(user.value.role)
    ensures user.None? ==> session.userId.None? && session.userRole.None?
  {
    user := Authorize(credentials);
    session := new Session();
    if user.Some? {
      var token := new Token(Some(user.value.id));
      token := JwtCallback(token, user);
      session := SessionCallback(session, token);
    }
  }
}
