/** Accounts and tokens: the token a login issues and its seven-day check, the
    `requireAuth` and `requireAdmin` gates, and the `/signup`, `/login` and
    `/admin-login` handlers over the `users` table.

    The token is an unsigned, self-describing encoding of its payload. The source
    uses base64 over JSON; here it is a plain text form with the same content and the
    same property the routes rely on: decoding an issued token gives its payload back.
    Password hashing (SHA-256) is a function the handlers receive. */
module Auth {
  import opened Wrappers
  import opened Text

  /** Seven days, in milliseconds. */
  const TOKEN_LIFETIME: int := 7 * 24 * 60 * 60 * 1000

  const MIN_PASSWORD_LENGTH: nat := 6

  datatype TokenPayload = TokenPayload(userId: nat, email: string, isAdmin: bool, timestamp: nat)

  // --------------------------------------------------------------- token codec

  function DigitChar(d: nat): (c: char)
    requires d < 10
    ensures IsDigit(c) && DigitValue(c) == d
  {
    ('0' as int + d) as char
  }

  /** The decimal numeral of `n`, without leading zeros. */
  function NatText(n: nat): (s: string)
    ensures |s| > 0 && AllDigits(s)
    decreases n
  {
    if n < 10 then [DigitChar(n)] else NatText(n / 10) + [DigitChar(n % 10)]
  }

  lemma {:induction false} NatTextValue(n: nat)
    ensures DigitsValue(NatText(n)) == n
    decreases n
  {
    var s := NatText(n);
    if n < 10 {
      assert s[..|s| - 1] == [];
    } else {
      NatTextValue(n / 10);
      assert s[..|s| - 1] == NatText(n / 10);
    }
  }

  /** `generateToken`'s encoding: a role letter, the user id, the timestamp and the
      e-mail, the two numbers each closed by a colon. */
  function Encode(p: TokenPayload): string {
    [if p.isAdmin then 'A' else 'U'] + NatText(p.userId) + [':'] + NatText(p.timestamp) + [':'] + p.email
  }

  /** The decoding step of `verifyToken`: `None` for any text that is not an encoding. */
  function Decode(t: string): Option<TokenPayload> {
    if |t| == 0 || (t[0] != 'A' && t[0] != 'U') then None
    else
      var a := RunEnd(t, 1, IsDigit);
      if a == 1 || a == |t| || t[a] != ':' then None
      else
        var b := RunEnd(t, a + 1, IsDigit);
        if b == a + 1 || b == |t| || t[b] != ':' then None
        else
          assert AllDigits(t[1..a]) && AllDigits(t[a + 1..b]);
          Some(TokenPayload(DigitsValue(t[1..a]), t[b + 1..], t[0] == 'A', DigitsValue(t[a + 1..b])))
  }

  /** Decoding an issued token gives back exactly its payload. */
  lemma TokenRoundTrip(p: TokenPayload)
    ensures Decode(Encode(p)) == Some(p)
  {
    var t := Encode(p);
    var u, s := NatText(p.userId), NatText(p.timestamp);
    var a := 1 + |u|;
    var b := a + 1 + |s|;
    assert t[1..a] == u;
    assert t[a] == ':';
    assert t[a + 1..b] == s;
    assert t[b] == ':';
    assert t[b + 1..] == p.email;
    RunEndOfRun(t, 1, a, IsDigit);
    RunEndOfRun(t, a + 1, b, IsDigit);
    NatTextValue(p.userId);
    NatTextValue(p.timestamp);
  }

  /** `generateToken(userId, email, isAdmin)` at time `now`. */
  function GenerateToken(userId: nat, email: string, isAdmin: bool, now: nat): string {
    Encode(TokenPayload(userId, email, isAdmin, now))
  }

  /** `verifyToken` at time `now`: the payload, unless the text does not decode or
      the token is more than seven days old. */
  function VerifyToken(token: string, now: int): Option<TokenPayload> {
    match Decode(token)
    case None => None
    case Some(p) => if now - p.timestamp > TOKEN_LIFETIME then None else Some(p)
  }

  /** A token verifies, to the payload it was issued with, for exactly seven days. */
  lemma VerifyIssuedToken(userId: nat, email: string, isAdmin: bool, issued: nat, now: int)
    ensures VerifyToken(GenerateToken(userId, email, isAdmin, issued), now) ==
      if now - issued <= TOKEN_LIFETIME then Some(TokenPayload(userId, email, isAdmin, issued)) else None
  {
    TokenRoundTrip(TokenPayload(userId, email, isAdmin, issued));
  }

  /** Where the parts of a token lie in `t`: a role letter, the id's digits up to
      the colon at `a`, the timestamp's digits up to the colon at `b`, the e-mail. */
  predicate TokenShape(t: string, a: nat, b: nat) {
    1 < a && a + 1 < b < |t| && (t[0] == 'A' || t[0] == 'U') &&
    AllDigits(t[1..a]) && t[a] == ':' && AllDigits(t[a + 1..b]) && t[b] == ':'
  }

  /** The payload a text of that shape spells out. */
  function ShapePayload(t: string, a: nat, b: nat): TokenPayload
    requires TokenShape(t, a, b)
  {
    TokenPayload(DigitsValue(t[1..a]), t[b + 1..], t[0] == 'A', DigitsValue(t[a + 1..b]))
  }

  /** Decoding accepts exactly the texts of token shape and reads the payload off them. */
  lemma DecodeIff(t: string)
    ensures Decode(t).Some? <==> exists a: nat, b: nat :: TokenShape(t, a, b)
    ensures forall a: nat, b: nat :: TokenShape(t, a, b) ==> Decode(t) == Some(ShapePayload(t, a, b))
  {
    if Decode(t).Some? {
      var a := RunEnd(t, 1, IsDigit);
      var b := RunEnd(t, a + 1, IsDigit);
      assert TokenShape(t, a, b);
    }
    forall a: nat, b: nat | TokenShape(t, a, b)
      ensures Decode(t) == Some(ShapePayload(t, a, b))
    {
      assert forall k :: 1 <= k < a ==> IsDigit(t[k]) by {
        forall k | 1 <= k < a ensures IsDigit(t[k]) { assert t[1..a][k - 1] == t[k]; }
      }
      assert forall k :: a + 1 <= k < b ==> IsDigit(t[k]) by {
        forall k | a + 1 <= k < b ensures IsDigit(t[k]) { assert t[a + 1..b][k - a - 1] == t[k]; }
      }
      RunEndOfRun(t, 1, a, IsDigit);
      RunEndOfRun(t, a + 1, b, IsDigit);
    }
  }

  /** `verifyToken` accepts exactly the texts of token shape whose timestamp is at most
      seven days before `now`, and returns the payload they spell out; everything
      else, the empty text included, is refused without an error. */
  lemma VerifyTokenIff(token: string, now: int)
    ensures VerifyToken(token, now).Some? <==>
      exists a: nat, b: nat :: TokenShape(token, a, b) && now - ShapePayload(token, a, b).timestamp <= TOKEN_LIFETIME
    ensures forall a: nat, b: nat :: TokenShape(token, a, b) && now - ShapePayload(token, a, b).timestamp <= TOKEN_LIFETIME ==>
      VerifyToken(token, now) == Some(ShapePayload(token, a, b))
  {
    DecodeIff(token);
  }

  // --------------------------------------------------------------------- gates

  /** What a gate does: hand over to the next handler, or answer with an error. */
  datatype Gate = Next | Deny(status: int, error: string)

  /** `requireAuth`'s decision on the `Authorization` header. */
  function Authenticate(header: Option<string>, now: int): (Gate, Option<TokenPayload>) {
    match header
    case None => (Deny(401, "Authentication required"), None)
    case Some(h) =>
      if !StartsWith(h, "Bearer ") then (Deny(401, "Authentication required"), None)
      else match VerifyToken(h[7..], now)
        case None => (Deny(401, "Invalid or expired token"), None)
        case Some(p) => (Next, Some(p))
  }

  /** `requireAdmin`'s decision on `req.user`. */
  function AdminGate(user: Option<TokenPayload>): Gate {
    if user.Some? && user.value.isAdmin then Next else Deny(403, "Admin access required")
  }

  /** The request object the two gates share. */
  class Request {
    var user: Option<TokenPayload>

    constructor()
      ensures user == None
    {
      user := None;
    }

    /** `requireAuth`: on success `req.user` is set to the payload; on denial it is untouched. */
    method RequireAuth(header: Option<string>, now: int) returns (gate: Gate)
      modifies this
      ensures (gate, if gate.Next? then user else None) == Authenticate(header, now)
      ensures gate.Deny? ==> user == old(user)
    {
      if header.None? || !StartsWith(header.value, "Bearer ") {
        return Deny(401, "Authentication required");
      }
      var token := header.value[7..];
      var payload := VerifyToken(token, now);
      if payload.None? {
        return Deny(401, "Invalid or expired token");
      }
      user := payload;
      gate := Next;
    }

    method RequireAdmin() returns (gate: Gate)
      ensures gate == AdminGate(user)
    {
      if user.None? || !user.value.isAdmin {
        return Deny(403, "Admin access required");
      }
      gate := Next;
    }
  }

  /** The header passes `requireAuth` exactly when it is "Bearer " followed by a token
      that verifies; a missing or differently prefixed header is a 401 asking for
      authentication, a bad or stale token a 401 saying so. */
  lemma AuthenticateIff(header: Option<string>, now: int)
    ensures Authenticate(header, now).0.Next? <==>
      header.Some? && StartsWith(header.value, "Bearer ") && VerifyToken(header.value[7..], now).Some?
    ensures Authenticate(header, now).0.Next? ==> Authenticate(header, now).1 == VerifyToken(header.value[7..], now)
    ensures (header.None? || !StartsWith(header.value, "Bearer ")) ==>
      Authenticate(header, now).0 == Deny(401, "Authentication required")
  {
  }

  /** A request gets past both gates exactly when it carries "Bearer " and a token,
      issued as an admin token, at most seven days old. */
  lemma AdminAccessIff(userId: nat, email: string, isAdmin: bool, issued: nat, now: int)
    ensures var a := Authenticate(Some("Bearer " + GenerateToken(userId, email, isAdmin, issued)), now);
      (a.0.Next? && AdminGate(a.1).Next?) <==> (isAdmin && now - issued <= TOKEN_LIFETIME)
  {
    var h := "Bearer " + GenerateToken(userId, email, isAdmin, issued);
    assert h[..7] == "Bearer ";
    assert h[7..] == GenerateToken(userId, email, isAdmin, issued);
    VerifyIssuedToken(userId, email, isAdmin, issued, now);
  }

  // ----------------------------------------------------------------- the users

  datatype User = User(id: nat, fullName: string, email: string, passwordHash: string, isAdmin: bool)

  /** The `user` object of a reply. */
  datatype UserView = UserView(id: nat, fullName: string, email: string, isAdmin: bool)

  datatype AuthReply = Issued(token: string, user: UserView) | Rejected(status: int, error: string)

  /** A request body field: `None` when absent; JavaScript treats "" as absent too. */
  predicate Given(field: Option<string>) {
    field.Some? && |field.value| > 0
  }

  /** No two users share an e-mail address. */
  predicate UniqueEmails(users: seq<User>) {
    forall i, j :: 0 <= i < j < |users| ==> users[i].email != users[j].email
  }

  predicate EmailTaken(users: seq<User>, email: string) {
    exists i :: 0 <= i < |users| && users[i].email == email
  }

  /** `db.get` of the first user with this e-mail and password hash (and, for the
      admin login, the admin flag). */
  function FindUser(users: seq<User>, email: string, passwordHash: string, adminOnly: bool): (r: Option<User>)
    ensures r.Some? ==> r.value in users && r.value.email == email && r.value.passwordHash == passwordHash
                        && (adminOnly ==> r.value.isAdmin)
    decreases |users|
  {
    if |users| == 0 then None
    else if users[0].email == email && users[0].passwordHash == passwordHash && (!adminOnly || users[0].isAdmin) then Some(users[0])
    else FindUser(users[1..], email, passwordHash, adminOnly)
  }

  lemma {:induction false} FindUserFinds(users: seq<User>, k: nat, email: string, passwordHash: string)
    requires k < |users| && users[k].email == email && users[k].passwordHash == passwordHash
    requires forall i :: 0 <= i < k ==> users[i].email != email
    ensures FindUser(users, email, passwordHash, false) == Some(users[k])
    decreases k
  {
    if k > 0 {
      FindUserFinds(users[1..], k - 1, email, passwordHash);
    }
  }

  /** The signup validation, in the handler's order; `None` when the body passes. */
  function SignupError(users: seq<User>, fullName: Option<string>, email: Option<string>, password: Option<string>): Option<AuthReply> {
    if !Given(fullName) || !Given(email) || !Given(password) then Some(Rejected(400, "All fields are required"))
    else if |password.value| < MIN_PASSWORD_LENGTH then Some(Rejected(400, "Password must be at least 6 characters long"))
    else if EmailTaken(users, ToLower(email.value)) then Some(Rejected(400, "Email already registered"))
    else None
  }

  function LoginReply(u: User, isAdmin: bool, now: nat): AuthReply {
    Issued(GenerateToken(u.id, u.email, isAdmin, now), UserView(u.id, u.fullName, u.email, isAdmin))
  }

  /** The `users` table and its autoincrement counter. */
  class UserTable {
    var users: seq<User>
    var nextId: nat

    constructor()
      ensures users == [] && nextId == 1
    {
      users, nextId := [], 1;
    }

    /** `POST /signup`: validate, then insert the user with the lowercased e-mail, the
        hashed password and no admin rights; the token carries the e-mail as typed. */
    method Signup(fullName: Option<string>, email: Option<string>, password: Option<string>, now: nat, hash: string -> string)
      returns (reply: AuthReply)
      modifies this
      ensures var err := SignupError(old(users), fullName, email, password);
        if err.Some? then reply == err.value && users == old(users) && nextId == old(nextId)
        else
          var u := User(old(nextId), fullName.value, ToLower(email.value), hash(password.value), false);
          users == old(users) + [u] && nextId == old(nextId) + 1 &&
          reply == Issued(GenerateToken(u.id, email.value, false, now), UserView(u.id, u.fullName, u.email, false))
    {
      var err := SignupError(users, fullName, email, password);
      if err.Some? {
        return err.value;
      }
      var u := User(nextId, fullName.value, ToLower(email.value), hash(password.value), false);
      users := users + [u];
      nextId := nextId + 1;
      reply := Issued(GenerateToken(u.id, email.value, false, now), UserView(u.id, u.fullName, u.email, false));
    }

    /** `POST /login`: a token is issued exactly when both fields are given and a row
        has the lowercased e-mail and the password's hash; the token and the reply then
        carry that row's id, e-mail and admin flag. A missing field is a 400, a
        credential that matches no row a 401. */
    function Login(email: Option<string>, password: Option<string>, now: nat, hash: string -> string): (r: AuthReply)
      reads this
      ensures r.Issued? <==>
        Given(email) && Given(password) && FindUser(users, ToLower(email.value), hash(password.value), false).Some?
      ensures !Given(email) || !Given(password) ==> r == Rejected(400, "Email and password are required")
      ensures Given(email) && Given(password) && FindUser(users, ToLower(email.value), hash(password.value), false).None? ==>
        r == Rejected(401, "Invalid email or password")
      ensures r.Issued? ==>
        exists u :: u in users && u.email == ToLower(email.value) && u.passwordHash == hash(password.value) &&
          r.user == UserView(u.id, u.fullName, u.email, u.isAdmin) &&
          Decode(r.token) == Some(TokenPayload(u.id, u.email, u.isAdmin, now))
    {
      if !Given(email) || !Given(password) then Rejected(400, "Email and password are required")
      else match FindUser(users, ToLower(email.value), hash(password.value), false)
        case None => Rejected(401, "Invalid email or password")
        case Some(u) =>
          TokenRoundTrip(TokenPayload(u.id, u.email, u.isAdmin, now));
          LoginReply(u, u.isAdmin, now)
    }

    /** `POST /admin-login`: a token is issued exactly when both fields are given and an
        ADMIN row has the lowercased e-mail and the password's hash; it always says
        admin. Any other credential, a non-admin's correct one included, is a 401. */
    function AdminLogin(email: Option<string>, password: Option<string>, now: nat, hash: string -> string): (r: AuthReply)
      reads this
      ensures r.Issued? <==>
        Given(email) && Given(password) && FindUser(users, ToLower(email.value), hash(password.value), true).Some?
      ensures !Given(email) || !Given(password) ==> r == Rejected(400, "Email and password are required")
      ensures Given(email) && Given(password) && FindUser(users, ToLower(email.value), hash(password.value), true).None? ==>
        r == Rejected(401, "Invalid admin credentials")
      ensures r.Issued? ==>
        exists u :: u in users && u.isAdmin && u.email == ToLower(email.value) && u.passwordHash == hash(password.value) &&
          r.user == UserView(u.id, u.fullName, u.email, true) &&
          Decode(r.token) == Some(TokenPayload(u.id, u.email, true, now))
    {
      if !Given(email) || !Given(password) then Rejected(400, "Email and password are required")
      else match FindUser(users, ToLower(email.value), hash(password.value), true)
        case None => Rejected(401, "Invalid admin credentials")
        case Some(u) =>
          TokenRoundTrip(TokenPayload(u.id, u.email, true, now));
          LoginReply(u, true, now)
    }
  }

  lemma LowerCharIdempotent(c: char)
    ensures LowerChar(LowerChar(c)) == LowerChar(c)
  {
  }

  lemma ToLowerIdempotent(s: string)
    ensures ToLower(ToLower(s)) == ToLower(s)
  {
    forall i | 0 <= i < |s|
      ensures ToLower(ToLower(s))[i] == ToLower(s)[i]
    {
      LowerCharIdempotent(s[i]);
    }
  }

  /** Signup keeps e-mail addresses unique, as it rejects an address already taken. */
  lemma SignupKeepsEmailsUnique(users: seq<User>, u: User, fullName: Option<string>, email: Option<string>, password: Option<string>)
    requires UniqueEmails(users)
    requires SignupError(users, fullName, email, password).None? && u.email == ToLower(email.value)
    ensures UniqueEmails(users + [u])
  {
    forall i, j | 0 <= i < j < |users + [u]|
      ensures (users + [u])[i].email != (users + [u])[j].email
    {
      if j == |users| {
        assert (users + [u])[i] == users[i];
      }
    }
  }

  /** After a signup, logging in with the same e-mail (in any letter case that lowers
      to the same address) and password finds the new account, without admin rights. */
  lemma SignupThenLogin(users: seq<User>, u: User, fullName: Option<string>, email: Option<string>, password: Option<string>,
                        hash: string -> string, email2: string, now: nat)
    requires UniqueEmails(users)
    requires SignupError(users, fullName, email, password).None?
    requires u == User(u.id, fullName.value, ToLower(email.value), hash(password.value), false)
    requires ToLower(email2) == ToLower(email.value)
    ensures FindUser(users + [u], ToLower(email2), hash(password.value), false) == Some(u)
  {
    var all := users + [u];
    forall i | 0 <= i < |users|
      ensures all[i].email != ToLower(email2)
    {
      assert all[i] == users[i];
    }
    FindUserFinds(all, |users|, ToLower(email2), hash(password.value));
  }
}
