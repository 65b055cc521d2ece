/** Sign-in against the two demo accounts, and the role gate in front of
    the protected endpoints (login and require_roles in
    backend/app/api/routes.py). */
module Auth {
  import opened Common
  import opened Text

  /** The string keys of the posted login body that the handler reads;
      a missing or null key is None. */
  datatype LoginBody = LoginBody(
    identifier: Option<string>,
    username: Option<string>,
    email: Option<string>,
    phone: Option<string>,
    password: Option<string>)

  datatype User = User(username: string, email: string, phone: string, password: string, role: string)

  /** The static accounts of the demo. */
  const DemoUsers: seq<User> := [
    User("admin", "admin@example.com", "+911234567890", "admin123", "admin"),
    User("officer", "officer@example.com", "+919876543210", "officer123", "officer")
  ]

  /** The identity placed in the tokens. */
  datatype Identity = Identity(username: string, role: string)

  /** The profile returned to the client (everything but the password). */
  datatype Profile = Profile(username: string, email: string, phone: string, role: string)

  datatype LoginResult =
    | SignedIn(identity: Identity, user: Profile)
    | InvalidCredentials
  {
    function Status(): int {
      if SignedIn? then 200 else 401
    }
  }

  /** Python's `a or b or ... or ""` over optional strings: the first
      truthy one, else the empty string. */
  function FirstTruthy(opts: seq<Option<string>>): (r: string)
    ensures (forall i :: 0 <= i < |opts| ==> !Truthy(opts[i])) ==> r == []
    ensures forall i :: 0 <= i < |opts| && Truthy(opts[i]) && (forall j :: 0 <= j < i ==> !Truthy(opts[j]))
              ==> r == opts[i].value
  {
    if opts == [] then []
    else if Truthy(opts[0]) then opts[0].value
    else FirstTruthy(opts[1..])
  }

  /** The identifier the user typed: identifier, else username, else
      email, else phone, stripped. */
  function LoginIdentifier(b: LoginBody): string {
    Strip(FirstTruthy([b.identifier, b.username, b.email, b.phone]))
  }

  /** The password, stripped; empty when missing. */
  function LoginPassword(b: LoginBody): string {
    Strip(FirstTruthy([b.password]))
  }

  /** match_user: the identifier, lower-cased, is one of the user's
      lower-cased username, email and phone. */
  predicate MatchUser(identifier: string, u: User) {
    Lower(identifier) in {Lower(u.username), Lower(u.email), Lower(u.phone)}
  }

  predicate Accepts(u: User, identifier: string, password: string) {
    MatchUser(identifier, u) && password == u.password
  }

  /** `next(u for u in users if ...)`: the first user that accepts the
      credentials. */
  function FindUser(users: seq<User>, identifier: string, password: string): (r: Option<User>)
    ensures r.None? <==> forall i :: 0 <= i < |users| ==> !Accepts(users[i], identifier, password)
    ensures r.Some? ==> exists i :: 0 <= i < |users| && users[i] == r.value
                         && Accepts(users[i], identifier, password)
                         && forall j :: 0 <= j < i ==> !Accepts(users[j], identifier, password)
  {
    if users == [] then None
    else if Accepts(users[0], identifier, password) then Some(users[0])
    else
      var r := FindUser(users[1..], identifier, password);
      assert r.Some? ==> (exists i :: 1 <= i < |users| && users[i] == r.value
                           && Accepts(users[i], identifier, password)
                           && forall j :: 0 <= j < i ==> !Accepts(users[j], identifier, password)) by {
        if r.Some? {
          var k :| 0 <= k < |users| - 1 && users[1..][k] == r.value
                   && Accepts(users[1..][k], identifier, password)
                   && forall j :: 0 <= j < k ==> !Accepts(users[1..][j], identifier, password);
          assert forall j :: 1 <= j < k + 1 ==> users[j] == users[1..][j - 1];
        }
      }
      r
  }

  /** The outcome for a resolved identifier and password. */
  function SignIn(id: string, pw: string): LoginResult {
    match FindUser(DemoUsers, id, pw)
    case None => InvalidCredentials
    case Some(u) => SignedIn(Identity(u.username, u.role), Profile(u.username, u.email, u.phone, u.role))
  }

  /** The /auth/login handler, without the token minting: 401 exactly when
      no demo account accepts the resolved credentials; a sign-in hands out
      an identity that agrees with the returned profile and has one of the
      two roles. */
  function Login(b: LoginBody): (r: LoginResult)
    ensures r.Status() == 401 <==> FindUser(DemoUsers, LoginIdentifier(b), LoginPassword(b)).None?
    ensures r.SignedIn? ==> r.identity == Identity(r.user.username, r.user.role)
    ensures r.SignedIn? ==> r.user.role in {"admin", "officer"}
  {
    var id, pw := LoginIdentifier(b), LoginPassword(b);
    DemoFind(id, pw);
    SignIn(id, pw)
  }

  /** The search over the two demo accounts, written out. */
  lemma DemoFind(id: string, pw: string)
    ensures FindUser(DemoUsers, id, pw) ==
      if Accepts(DemoUsers[0], id, pw) then Some(DemoUsers[0])
      else if Accepts(DemoUsers[1], id, pw) then Some(DemoUsers[1])
      else None
  {
    assert DemoUsers[1..] == [DemoUsers[1]] && DemoUsers[1..][1..] == [];
  }

  /** A sign-in succeeds exactly when some demo account accepts the
      resolved identifier and password, and it then signs in as the first
      such account. */
  lemma LoginIff(b: LoginBody)
    ensures Login(b).SignedIn? <==>
      exists i :: 0 <= i < |DemoUsers| && Accepts(DemoUsers[i], LoginIdentifier(b), LoginPassword(b))
    ensures Login(b).SignedIn? ==>
      exists i :: 0 <= i < |DemoUsers| && Accepts(DemoUsers[i], LoginIdentifier(b), LoginPassword(b))
        && Login(b).identity == Identity(DemoUsers[i].username, DemoUsers[i].role)
        && forall j :: 0 <= j < i ==> !Accepts(DemoUsers[j], LoginIdentifier(b), LoginPassword(b))
    ensures Login(b).Status() == 401 <==> Login(b).InvalidCredentials?
  {
    SignInIff(LoginIdentifier(b), LoginPassword(b));
  }

  lemma SignInIff(id: string, pw: string)
    ensures SignIn(id, pw).SignedIn? <==>
      exists i :: 0 <= i < |DemoUsers| && Accepts(DemoUsers[i], id, pw)
    ensures SignIn(id, pw).SignedIn? ==>
      exists i :: 0 <= i < |DemoUsers| && Accepts(DemoUsers[i], id, pw)
        && SignIn(id, pw).identity == Identity(DemoUsers[i].username, DemoUsers[i].role)
        && forall j :: 0 <= j < i ==> !Accepts(DemoUsers[j], id, pw)
    ensures SignIn(id, pw).Status() == 401 <==> SignIn(id, pw).InvalidCredentials?
  {
  }

  /** Every identity handed out carries one of the two roles. */
  lemma SignedInRole(b: LoginBody)
    requires Login(b).SignedIn?
    ensures Login(b).identity.role in {"admin", "officer"}
    ensures Login(b).identity.role == Login(b).user.role
  {
    SignInRole(LoginIdentifier(b), LoginPassword(b));
  }

  lemma SignInRole(id: string, pw: string)
    requires SignIn(id, pw).SignedIn?
    ensures SignIn(id, pw).identity.role in {"admin", "officer"}
    ensures SignIn(id, pw).identity.role == SignIn(id, pw).user.role
  {
    DemoFind(id, pw);
  }

  /** The identifier is matched case-insensitively: any casing of the
      identifier gives the same outcome. */
  lemma CaseInsensitive(b: LoginBody, b': LoginBody)
    requires Lower(LoginIdentifier(b)) == Lower(LoginIdentifier(b'))
    requires LoginPassword(b) == LoginPassword(b')
    ensures Login(b) == Login(b')
  {
    assert forall u :: MatchUser(LoginIdentifier(b), u) == MatchUser(LoginIdentifier(b'), u);
    FindUserSame(DemoUsers, LoginIdentifier(b), LoginIdentifier(b'), LoginPassword(b));
  }

  lemma {:induction false} FindUserSame(users: seq<User>, id: string, id': string, pw: string)
    requires forall u :: MatchUser(id, u) == MatchUser(id', u)
    ensures FindUser(users, id, pw) == FindUser(users, id', pw)
  {
    if users != [] {
      FindUserSame(users[1..], id, id', pw);
    }
  }

  /** Each demo account signs in with its own password and any of its
      username, email or phone, in any casing and with surrounding
      whitespace, under whichever key of the body it is sent. */
  lemma EachDemoUserSignsIn(b: LoginBody, i: nat)
    requires i < |DemoUsers|
    requires MatchUser(LoginIdentifier(b), DemoUsers[i])
    requires LoginPassword(b) == DemoUsers[i].password
    ensures Login(b) == SignedIn(Identity(DemoUsers[i].username, DemoUsers[i].role),
                                 Profile(DemoUsers[i].username, DemoUsers[i].email, DemoUsers[i].phone, DemoUsers[i].role))
  {
    DemoUserSignsIn(LoginIdentifier(b), LoginPassword(b), i);
  }

  lemma DemoUserSignsIn(id: string, pw: string, i: nat)
    requires i < |DemoUsers|
    requires MatchUser(id, DemoUsers[i]) && pw == DemoUsers[i].password
    ensures FindUser(DemoUsers, id, pw) == Some(DemoUsers[i])
  {
    DemoFind(id, pw);
    if i == 1 {
      assert pw != DemoUsers[0].password;
      assert !Accepts(DemoUsers[0], id, pw);
    }
  }

  /** A wrong password never signs in, whatever the identifier. */
  lemma WrongPasswordRejected(b: LoginBody)
    requires LoginPassword(b) != "admin123" && LoginPassword(b) != "officer123"
    ensures Login(b) == InvalidCredentials
  {
    var id, pw := LoginIdentifier(b), LoginPassword(b);
    DemoFind(id, pw);
    assert FindUser(DemoUsers, id, pw) == None;
  }

  // ----- require_roles -----

  /** What get_jwt_identity() returned: a dict (with or without a
      string "role"), or any other JSON value. */
  datatype JwtIdentity = Dict(role: Option<string>) | NotDict

  datatype Gate = Pass | Forbidden(role: Option<string>, allowed: seq<string>)
  {
    function Status(): int {
      if Pass? then 200 else 403
    }
  }

  /** The role the wrapper reads: only a dict identity has one. */
  function RoleOf(identity: JwtIdentity): Option<string> {
    if identity.Dict? then identity.role else None
  }

  /** The wrapper of require_roles(*allowed): with no role listed every
      caller passes; otherwise the identity's role must be listed, else
      403 with the role seen and the allowed list. */
  function RequireRoles(allowed: seq<string>, identity: JwtIdentity): (r: Gate)
    ensures allowed == [] ==> r == Pass
    ensures allowed != [] && identity.NotDict? ==> r.Forbidden?
    ensures r.Forbidden? ==> r.Status() == 403 && r.role == RoleOf(identity) && r.allowed == allowed
  {
    var role := RoleOf(identity);
    if allowed != [] && !(role.Some? && role.value in allowed) then Forbidden(role, allowed)
    else Pass
  }

  /** The gate passes exactly when no role is required or the identity is a
      dict whose role is listed; a refusal reports the role and the list. */
  lemma GateIff(allowed: seq<string>, identity: JwtIdentity)
    ensures RequireRoles(allowed, identity) == Pass <==>
      allowed == [] || (identity.Dict? && identity.role.Some? && identity.role.value in allowed)
    ensures RequireRoles(allowed, identity).Forbidden? ==>
      RequireRoles(allowed, identity) == Forbidden(RoleOf(identity), allowed)
        && RequireRoles(allowed, identity).Status() == 403
  {
  }

  /** The roles each protected endpoint lists. */
  const OfficerOrAdmin: seq<string> := ["officer", "admin"]
  const AdminOnly: seq<string> := ["admin"]

  /** The identity a sign-in puts in the tokens, as the gate later sees it. */
  function TokenIdentity(i: Identity): JwtIdentity {
    Dict(Some(i.role))
  }

  /** Any signed-in demo user passes the officer-or-admin endpoints; only
      the admin passes /ai/insights. */
  lemma SignedInPasses(b: LoginBody)
    requires Login(b).SignedIn?
    ensures RequireRoles(OfficerOrAdmin, TokenIdentity(Login(b).identity)) == Pass
    ensures RequireRoles(AdminOnly, TokenIdentity(Login(b).identity)) == Pass
            <==> Login(b).identity.role == "admin"
  {
    SignedInRole(b);
    RoleGate(Login(b).identity.role);
  }

  lemma RoleGate(role: string)
    requires role in {"admin", "officer"}
    ensures RequireRoles(OfficerOrAdmin, TokenIdentity(Identity("", role))) == Pass
    ensures RequireRoles(AdminOnly, TokenIdentity(Identity("", role))) == Pass <==> role == "admin"
  {
  }
}
