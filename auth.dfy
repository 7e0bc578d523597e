/**
 * Sessions and administrator accounts.  A login stores its signed token in
 * the active-token collection; the Express middleware of server.js admits a
 * request only when its token is active and verifies; a one-time register
 * token lets one administrator sign up; the super administrator may delete
 * administrators; and the serverless API copies legacy `Admin` documents
 * into the `User` collection.  JWT signing and verification and bcrypt are
 * foreign code: which tokens verify, and what they decode to, are inputs.
 */
module Auth {
  import opened Js
  import opened Http

  // ---------------------------------------------------------------------
  // Reading the token out of the `Authorization` header

  /** api/index.js: `(header || '').startsWith('Bearer ') ? header.slice(7) : ''` */
  function BearerToken(header: Option<string>): (token: string)
    ensures token != "" ==> header == Some("Bearer " + token)
    ensures header.Some? && StartsWith(header.value, "Bearer ") ==> "Bearer " + token == header.value
  {
    var h := if header.Some? then header.value else "";
    if StartsWith(h, "Bearer ") then
      assert h == "Bearer " + h[7..];
      h[7..]
    else ""
  }

  /** server.js: `header.split(" ")[1]`, which is `undefined` when the
      header has no space. */
  function SecondWord(header: string): Option<string> {
    var parts := Split(header, ' ');
    if |parts| > 1 then Some(parts[1]) else None
  }

  /** For `Bearer ` and a token without spaces the two readings agree. */
  lemma BearerReadingsAgree(token: string)
    requires token != "" && ' ' !in token
    ensures BearerToken(Some("Bearer " + token)) == token
    ensures SecondWord("Bearer " + token) == Some(token)
  {
    assert "Bearer " + token == "Bearer" + [' '] + token;
    SplitAfterPiece("Bearer", token, ' ');
    SplitWithoutSeparator(token, ' ');
  }

  /** They differ otherwise: server.js takes the second word whatever the
      scheme ... */
  lemma OtherSchemeReadingsDiffer()
    ensures BearerToken(Some("Token abc")) == "" && SecondWord("Token abc") == Some("abc")
  {
    assert "Token abc" == "Token" + [' '] + "abc";
    assert !StartsWith("Token abc", "Bearer ") by {
      assert "Token abc"[0] != "Bearer "[0];
    }
    SplitAfterPiece("Token", "abc", ' ');
    SplitWithoutSeparator("abc", ' ');
  }

  /** ... and a doubled space leaves it the empty string. */
  lemma DoubleSpaceReadingsDiffer()
    ensures BearerToken(Some("Bearer  abc")) == " abc" && SecondWord("Bearer  abc") == Some("")
  {
    var rest := " abc";
    assert rest == "" + [' '] + "abc";
    SplitAfterPiece("", "abc", ' ');
    SplitWithoutSeparator("abc", ' ');
    assert Split(rest, ' ') == ["", "abc"];
    var h := "Bearer" + [' '] + rest;
    SplitAfterPiece("Bearer", rest, ' ');
    assert Split(h, ' ') == ["Bearer", "", "abc"];
    assert h == "Bearer  abc";
    assert h[..7] == "Bearer " && h[7..] == rest;
  }

  // ---------------------------------------------------------------------
  // The admission checks

  /** `requireActiveToken` followed by the active-token lookup, as the
      appointment list and delete routes of api/index.js use them: `None`
      lets the request through. `verifies` is the set of tokens
      `jwt.verify` accepts. */
  function ActiveTokenGate(header: Option<string>, verifies: set<string>, active: multiset<string>): (r: Option<Reply>)
    ensures r.None? <==> BearerToken(header) != "" && BearerToken(header) in verifies && BearerToken(header) in active
    ensures r.Some? ==> r == Some(Json(401, 0, "Unauthorized"))
  {
    var token := BearerToken(header);
    if token == "" || token !in verifies || token !in active then Some(Json(401, 0, "Unauthorized")) else None
  }

  /** What the server.js middleware decides: the request goes on with the
      decoded claims, or it is answered 401. */
  datatype Access = Granted(token: string, claims: Record) | Denied(reply: Reply)

  /** `authMiddleware`: a missing header, a missing second word, a token
      that is not active, and one that does not verify are each refused
      with their own message.  `decoded` maps each token `jwt.verify`
      accepts to its payload. */
  function AuthMiddleware(header: Option<string>, active: multiset<string>, decoded: map<string, Record>): (r: Access)
    ensures r.Granted? ==> header.Some? && SecondWord(header.value) == Some(r.token)
    ensures r.Granted? ==> r.token in active && r.token in decoded && r.claims == decoded[r.token]
    ensures (&& header.Some? && header.value != "" && SecondWord(header.value).Some? && SecondWord(header.value).value != ""
             && SecondWord(header.value).value in active && SecondWord(header.value).value in decoded) ==> r.Granted?
    ensures r.Denied? ==> r.reply.Bare? && r.reply.code == 401
    ensures header.None? || header.value == "" ==> r == Denied(Bare(401, "Access denied"))
    ensures header.Some? && header.value != "" && (SecondWord(header.value).None? || SecondWord(header.value) == Some("")) ==>
              r == Denied(Bare(401, "Invalid token"))
    ensures (&& header.Some? && header.value != "" && SecondWord(header.value).Some? && SecondWord(header.value).value != ""
             && SecondWord(header.value).value !in active) ==> r == Denied(Bare(401, "Token expired or logged out"))
    ensures (&& header.Some? && header.value != "" && SecondWord(header.value).Some? && SecondWord(header.value).value != ""
             && SecondWord(header.value).value in active && SecondWord(header.value).value !in decoded) ==>
              r == Denied(Bare(401, "Unauthorized"))
  {
    if header.None? || header.value == "" then Denied(Bare(401, "Access denied"))
    else
      match SecondWord(header.value)
      case None => Denied(Bare(401, "Invalid token"))
      case Some(token) =>
        if token == "" then Denied(Bare(401, "Invalid token"))
        else if token !in active then Denied(Bare(401, "Token expired or logged out"))
        else if token !in decoded then Denied(Bare(401, "Unauthorized"))
        else Granted(token, decoded[token])
  }

  /** A token that is not in the active set never gets through. */
  lemma InactiveTokenRejected(header: string, token: string, active: multiset<string>, decoded: map<string, Record>)
    requires SecondWord(header) == Some(token) && token !in active
    ensures AuthMiddleware(Some(header), active, decoded).Denied?
  {
  }

  /** `superAdminMiddleware`: anything but the `superadmin` role is 403. */
  function SuperAdminGate(claims: Record): (r: Option<Reply>)
    ensures r.None? <==> Field(claims, "role") == Str("superadmin")
    ensures r.Some? ==> r.value == Bare(403, "Access forbidden")
  {
    if Field(claims, "role") != Str("superadmin") then Some(Bare(403, "Access forbidden")) else None
  }

  /** Both middlewares in a row, as on the super-administrator routes:
      `None` lets the handler run. */
  function SuperAdminAccess(header: Option<string>, active: multiset<string>, decoded: map<string, Record>): (r: Option<Reply>)
    ensures r.None? <==> && AuthMiddleware(header, active, decoded).Granted?
                         && Field(AuthMiddleware(header, active, decoded).claims, "role") == Str("superadmin")
    ensures AuthMiddleware(header, active, decoded).Denied? ==> r == Some(AuthMiddleware(header, active, decoded).reply)
    ensures AuthMiddleware(header, active, decoded).Granted? && r.Some? ==> r == Some(Bare(403, "Access forbidden"))
  {
    match AuthMiddleware(header, active, decoded)
    case Denied(reply) => Some(reply)
    case Granted(_, claims) => SuperAdminGate(claims)
  }

  // ---------------------------------------------------------------------
  // Logout

  /** `ActiveToken.deleteOne({ token })`: one stored copy goes. */
  function LogoutAsWritten(active: multiset<string>, token: string): (r: multiset<string>)
    ensures r[token] == (if active[token] == 0 then 0 else active[token] - 1)
    ensures forall t :: t != token ==> r[t] == active[t]
  {
    active - multiset{token}
  }

  /** The same account logging in twice within one second is issued the
      same token twice, and after logging out once that token still gets
      through. */
  lemma LogoutLeavesDuplicate(token: string, decoded: map<string, Record>)
    requires token != "" && ' ' !in token && token in decoded
    ensures var after := LogoutAsWritten(multiset{token, token}, token);
            AuthMiddleware(Some("Bearer " + token), after, decoded).Granted?
  {
    BearerReadingsAgree(token);
    assert LogoutAsWritten(multiset{token, token}, token)[token] == 1;
  }

  /** Logout that revokes the token however often it was issued. */
  function Revoke(active: multiset<string>, token: string): (r: multiset<string>)
    ensures token !in r
    ensures forall t :: t != token ==> r[t] == active[t]
  {
    active[token := 0]
  }

  /** After `Revoke`, every later request carrying the token is refused. */
  lemma RevokedTokenRejected(header: string, active: multiset<string>, decoded: map<string, Record>)
    requires SecondWord(header).Some?
    ensures AuthMiddleware(Some(header), Revoke(active, SecondWord(header).value), decoded).Denied?
  {
  }

  /** With a single copy, the logout as written already revokes. */
  lemma SingleLogoutRejects(header: string, active: multiset<string>, decoded: map<string, Record>)
    requires SecondWord(header).Some? && active[SecondWord(header).value] <= 1
    ensures AuthMiddleware(Some(header), LogoutAsWritten(active, SecondWord(header).value), decoded).Denied?
  {
  }

  // ---------------------------------------------------------------------
  // Accounts and register tokens

  datatype Account = Account(id: nat, username: string, password: string, role: string, createdAt: int)

  datatype RegisterToken = RegisterToken(token: string, used: bool)

  /** A document of the legacy `Admin` collection. */
  datatype LegacyAdmin = LegacyAdmin(username: string, password: string, createdAt: Option<int>)

  function Usernames(accounts: seq<Account>): set<string> {
    set a | a in accounts :: a.username
  }

  /** The unique index on `username`. */
  predicate DistinctUsernames(accounts: seq<Account>) {
    forall i, j :: 0 <= i < j < |accounts| ==> accounts[i].username != accounts[j].username
  }

  /** The first register token equal to `token`, as `findOne` answers. */
  function FirstToken(tokens: seq<RegisterToken>, token: string): (r: Option<nat>)
    ensures r.Some? ==> r.value < |tokens| && tokens[r.value].token == token
    ensures r.Some? ==> forall j :: 0 <= j < r.value ==> tokens[j].token != token
    ensures r.None? ==> forall j :: 0 <= j < |tokens| ==> tokens[j].token != token
    decreases |tokens|
  {
    if |tokens| == 0 then None
    else if tokens[0].token == token then Some(0)
    else match FirstToken(tokens[1..], token)
      case None => None
      case Some(k) => Some(k + 1)
  }

  datatype TokenStatus = Missing | AlreadyUsed | Usable(index: nat)

  /** The register-token checks, in order: the token must be stored, then
      unused.  A header without a second word looks up nothing. */
  function CheckRegisterToken(tokens: seq<RegisterToken>, token: Option<string>): (r: TokenStatus)
    ensures r.Usable? ==> token.Some? && FirstToken(tokens, token.value) == Some(r.index) && !tokens[r.index].used
    ensures r.AlreadyUsed? ==> token.Some? && FirstToken(tokens, token.value).Some? && tokens[FirstToken(tokens, token.value).value].used
    ensures r.Missing? <==> token.None? || FirstToken(tokens, token.value).None?
  {
    if token.None? then Missing
    else match FirstToken(tokens, token.value)
      case None => Missing
      case Some(k) => if tokens[k].used then AlreadyUsed else Usable(k)
  }

  /** Once a registration has marked its token used, the same token is
      refused with `Token already used`. */
  lemma UsedTokenRejected(tokens: seq<RegisterToken>, token: string, k: nat)
    requires CheckRegisterToken(tokens, Some(token)) == Usable(k)
    ensures CheckRegisterToken(tokens[k := tokens[k].(used := true)], Some(token)) == AlreadyUsed
  {
    var after := tokens[k := tokens[k].(used := true)];
    var first := FirstToken(after, token);
    assert after[k].token == token;
    assert forall j :: 0 <= j < k ==> after[j].token == tokens[j].token;
  }

  /** The legacy administrators `reconcileAdmins` creates users for, in
      order: those whose username no user has, and no earlier legacy
      administrator had. */
  function LegacyNames(legacy: seq<LegacyAdmin>): set<string> {
    set a | a in legacy :: a.username
  }

  function MissingAdmins(taken: set<string>, legacy: seq<LegacyAdmin>): (r: seq<LegacyAdmin>)
    ensures |r| <= |legacy|
    decreases |legacy|
  {
    if legacy == [] then []
    else
      var prefix := legacy[..|legacy| - 1];
      var last := legacy[|legacy| - 1];
      if last.username in taken + LegacyNames(prefix) then MissingAdmins(taken, prefix)
      else MissingAdmins(taken, prefix) + [last]
  }

  /** Only legacy administrators whose usernames are free are created. */
  lemma {:induction false} MissingAdminsFree(taken: set<string>, legacy: seq<LegacyAdmin>)
    ensures forall a :: a in MissingAdmins(taken, legacy) ==> a in legacy && a.username !in taken
    decreases |legacy|
  {
    if legacy != [] {
      var prefix := legacy[..|legacy| - 1];
      MissingAdminsFree(taken, prefix);
      assert legacy == prefix + [legacy[|legacy| - 1]];
    }
  }

  predicate DistinctLegacyNames(admins: seq<LegacyAdmin>) {
    forall i, j :: 0 <= i < j < |admins| ==> admins[i].username != admins[j].username
  }

  /** No username is created twice. */
  lemma {:induction false} MissingAdminsDistinct(taken: set<string>, legacy: seq<LegacyAdmin>)
    ensures DistinctLegacyNames(MissingAdmins(taken, legacy))
    decreases |legacy|
  {
    if legacy != [] {
      var prefix := legacy[..|legacy| - 1];
      var last := legacy[|legacy| - 1];
      var init := MissingAdmins(taken, prefix);
      MissingAdminsDistinct(taken, prefix);
      if last.username !in taken + LegacyNames(prefix) {
        MissingAdminsFree(taken, prefix);
        var r := init + [last];
        assert MissingAdmins(taken, legacy) == r;
        forall i, j | 0 <= i < j < |r|
          ensures r[i].username != r[j].username
        {
          assert r[i] == init[i] && init[i] in init;
          assert init[i] in prefix;
          assert init[i].username in LegacyNames(prefix);
          if j < |init| {
            assert r[j] == init[j];
          } else {
            assert r[j] == last;
          }
        }
      } else {
        assert MissingAdmins(taken, legacy) == init;
      }
    }
  }

  /** Afterwards every legacy username is taken. */
  lemma {:induction false} MissingAdminsCover(taken: set<string>, legacy: seq<LegacyAdmin>)
    ensures taken + LegacyNames(MissingAdmins(taken, legacy)) == taken + LegacyNames(legacy)
    decreases |legacy|
  {
    if legacy != [] {
      var prefix := legacy[..|legacy| - 1];
      var last := legacy[|legacy| - 1];
      var init := MissingAdmins(taken, prefix);
      MissingAdminsCover(taken, prefix);
      assert legacy == prefix + [last];
      LegacyNamesSnoc(prefix, last);
      if last.username !in taken + LegacyNames(prefix) {
        LegacyNamesSnoc(init, last);
      }
    }
  }

  lemma LegacyNamesSnoc(legacy: seq<LegacyAdmin>, a: LegacyAdmin)
    ensures LegacyNames(legacy + [a]) == LegacyNames(legacy) + {a.username}
  {
    assert forall b :: b in legacy + [a] <==> b in legacy || b == a;
  }

  /** One more legacy administrator: created exactly when its username is
      neither taken nor an earlier legacy one. */
  lemma MissingAdminsSnoc(taken: set<string>, legacy: seq<LegacyAdmin>, a: LegacyAdmin)
    ensures MissingAdmins(taken, legacy + [a])
            == if a.username in taken + LegacyNames(legacy) then MissingAdmins(taken, legacy)
               else MissingAdmins(taken, legacy) + [a]
  {
    var l := legacy + [a];
    assert l[..|l| - 1] == legacy && l[|l| - 1] == a;
  }

  /** Running the reconciliation again creates nobody: every legacy
      username is now taken. */
  lemma MissingAdminsAfterwards(taken: set<string>, legacy: seq<LegacyAdmin>)
    ensures MissingAdmins(taken + LegacyNames(legacy), legacy) == []
  {
    NothingMissing(taken + LegacyNames(legacy), legacy);
  }

  /** Nobody is missing when every legacy username is taken. */
  lemma {:induction false} NothingMissing(taken: set<string>, legacy: seq<LegacyAdmin>)
    requires LegacyNames(legacy) <= taken
    ensures MissingAdmins(taken, legacy) == []
    decreases |legacy|
  {
    if legacy != [] {
      var prefix := legacy[..|legacy| - 1];
      var last := legacy[|legacy| - 1];
      assert legacy == prefix + [last];
      assert LegacyNames(legacy) == LegacyNames(prefix) + {last.username};
      NothingMissing(taken, prefix);
    }
  }

  /** The new users the reconciliation appended, field by field. */
  predicate CreatedFrom(created: seq<Account>, admins: seq<LegacyAdmin>, now: int) {
    && |created| == |admins|
    && forall i :: 0 <= i < |created| ==>
         && created[i].username == admins[i].username
         && created[i].password == admins[i].password
         && created[i].role == "admin"
         && created[i].createdAt == (if admins[i].createdAt.Some? then admins[i].createdAt.value else now)
  }

  function AccountFor(a: LegacyAdmin, id: nat, now: int): Account {
    Account(id, a.username, a.password, "admin", if a.createdAt.Some? then a.createdAt.value else now)
  }

  /** The first account with that `_id` and the role `admin`, as
      `findOneAndDelete({ _id, role: 'admin' })` picks it. */
  function FirstAdminWithId(accounts: seq<Account>, id: nat): (r: Option<nat>)
    ensures r.Some? ==> r.value < |accounts| && accounts[r.value].id == id && accounts[r.value].role == "admin"
    ensures r.None? ==> forall j :: 0 <= j < |accounts| ==> accounts[j].id != id || accounts[j].role != "admin"
    decreases |accounts|
  {
    if |accounts| == 0 then None
    else if accounts[0].id == id && accounts[0].role == "admin" then Some(0)
    else match FirstAdminWithId(accounts[1..], id)
      case None => None
      case Some(k) => Some(k + 1)
  }

  // ---------------------------------------------------------------------
  // The collections

  class AuthStore {
    var accounts: seq<Account>
    var registerTokens: seq<RegisterToken>
    var active: multiset<string>
    /** The next `_id` to hand out. */
    var nextId: nat

    constructor (accounts0: seq<Account>, tokens0: seq<RegisterToken>, active0: multiset<string>, nextId0: nat)
      ensures accounts == accounts0 && registerTokens == tokens0 && active == active0 && nextId == nextId0
    {
      accounts, registerTokens, active, nextId := accounts0, tokens0, active0, nextId0;
    }

    /** A successful login stores its token as active. */
    method RecordLogin(token: string)
      modifies this
      ensures active == old(active) + multiset{token}
      ensures accounts == old(accounts) && registerTokens == old(registerTokens) && nextId == old(nextId)
    {
      active := active + multiset{token};
    }

    /** `POST /api/auth/logout`: behind the middleware, one stored copy of
        the token is deleted. */
    method Logout(header: Option<string>, decoded: map<string, Record>) returns (reply: Reply)
      modifies this
      ensures accounts == old(accounts) && registerTokens == old(registerTokens) && nextId == old(nextId)
      ensures match AuthMiddleware(header, old(active), decoded)
              case Denied(r) => reply == r && active == old(active)
              case Granted(token, _) => reply == Json(200, 1, "Logged out successfully") && active == LogoutAsWritten(old(active), token)
    {
      var access := AuthMiddleware(header, active, decoded);
      if access.Denied? {
        return access.reply;
      }
      active := LogoutAsWritten(active, access.token);
      reply := Json(200, 1, "Logged out successfully");
    }

    /** `POST /api/auth/register` with a one-time token.  The token must be
        stored and unused, then verify; the password hash is `None` when
        hashing throws; a username already taken breaks the unique index.
        Only after the user is saved is the token marked used. */
    method Register(header: Option<string>, username: string, passwordHash: Option<string>, verifies: set<string>, now: int)
      returns (reply: Reply)
      modifies this
      ensures active == old(active)
      ensures header.None? || header.value == "" ==>
                reply == Json(401, 0, "Token required") && unchanged(this)
      ensures header.Some? && header.value != "" ==>
                match CheckRegisterToken(old(registerTokens), SecondWord(header.value))
                case Missing => reply == Json(401, 0, "Invalid or expired token") && unchanged(this)
                case AlreadyUsed => reply == Json(401, 0, "Token already used") && unchanged(this)
                case Usable(k) =>
                  if SecondWord(header.value).value !in verifies || passwordHash.None? || username in Usernames(old(accounts)) then
                    reply == Json(500, 0, "Registration error") && unchanged(this)
                  else
                    && reply == Json(200, 1, "Admin registered successfully")
                    && accounts == old(accounts) + [Account(old(nextId), username, passwordHash.value, "admin", now)]
                    && nextId == old(nextId) + 1
                    && registerTokens == old(registerTokens)[k := old(registerTokens)[k].(used := true)]
      ensures DistinctUsernames(old(accounts)) ==> DistinctUsernames(accounts)
    {
      if header.None? || header.value == "" {
        return Json(401, 0, "Token required");
      }
      var token := SecondWord(header.value);
      var status := CheckRegisterToken(registerTokens, token);
      if status.Missing? {
        return Json(401, 0, "Invalid or expired token");
      }
      if status.AlreadyUsed? {
        return Json(401, 0, "Token already used");
      }
      if token.value !in verifies || passwordHash.None? || username in Usernames(accounts) {
        return Json(500, 0, "Registration error");
      }
      var k := status.index;
      accounts := accounts + [Account(nextId, username, passwordHash.value, "admin", now)];
      nextId := nextId + 1;
      registerTokens := registerTokens[k := registerTokens[k].(used := true)];
      reply := Json(200, 1, "Admin registered successfully");
    }

    /** `DELETE /api/admins/:id` behind both middlewares: only an account
        with that `_id` and the role `admin` goes.  `id` is `None` when the
        path segment is not an object ID, which makes the query throw. */
    method DeleteAdmin(header: Option<string>, decoded: map<string, Record>, id: Option<nat>) returns (reply: Reply)
      modifies this
      ensures active == old(active) && registerTokens == old(registerTokens) && nextId == old(nextId)
      ensures SuperAdminAccess(header, old(active), decoded).Some? ==>
                reply == SuperAdminAccess(header, old(active), decoded).value && accounts == old(accounts)
      ensures SuperAdminAccess(header, old(active), decoded).None? ==>
                if id.None? then reply == Json(500, 0, "Error deleting admin") && accounts == old(accounts)
                else match FirstAdminWithId(old(accounts), id.value)
                  case None => reply == Json(404, 0, "Admin not found") && accounts == old(accounts)
                  case Some(k) => reply == Json(200, 1, "Admin deleted successfully") && accounts == old(accounts)[..k] + old(accounts)[k + 1..]
    {
      var gate := SuperAdminAccess(header, active, decoded);
      if gate.Some? {
        return gate.value;
      }
      if id.None? {
        return Json(500, 0, "Error deleting admin");
      }
      var k := FirstAdminWithId(accounts, id.value);
      if k.None? {
        return Json(404, 0, "Admin not found");
      }
      accounts := accounts[..k.value] + accounts[k.value + 1..];
      reply := Json(200, 1, "Admin deleted successfully");
    }

    /** One iteration of `reconcileAdmins`: create the user unless the
        username is taken. */
    method Admit(a: LegacyAdmin, now: int)
      modifies this
      ensures accounts == AfterLegacy(old(accounts), a, old(nextId), now)
      ensures active == old(active) && registerTokens == old(registerTokens)
    {
      if a.username !in Usernames(accounts) {
        accounts := accounts + [AccountFor(a, nextId, now)];
        nextId := nextId + 1;
      }
    }

    /** `reconcileAdmins` of api/index.js: each legacy administrator whose
        username no user has becomes a user with the role `admin`.  Existing
        users are never touched, and distinct usernames stay distinct. */
    method ReconcileAdmins(legacy: seq<LegacyAdmin>, now: int)
      modifies this
      ensures active == old(active) && registerTokens == old(registerTokens)
      ensures Reconciled(old(accounts), accounts, Usernames(old(accounts)), legacy, now)
    {
      ghost var taken := Usernames(accounts);
      ReconciledAtStart(accounts, now);
      assert legacy[..0] == [];
      var i := 0;
      while i < |legacy|
        invariant 0 <= i <= |legacy|
        invariant active == old(active) && registerTokens == old(registerTokens)
        invariant Reconciled(old(accounts), accounts, taken, legacy[..i], now)
      {
        ReconcileAdvance(old(accounts), accounts, taken, legacy, i, nextId, now);
        Admit(legacy[i], now);
        i := i + 1;
      }
      assert legacy[..i] == legacy;
    }
  }

  /** The loop invariant of `ReconcileAdmins` after the legacy
      administrators `done`: the original users first, then one new user
      per missing administrator, and every username accounted for. */
  predicate Reconciled(original: seq<Account>, accounts: seq<Account>, taken: set<string>, done: seq<LegacyAdmin>, now: int) {
    && |accounts| >= |original| && accounts[..|original|] == original
    && CreatedFrom(accounts[|original|..], MissingAdmins(taken, done), now)
    && Usernames(accounts) == taken + LegacyNames(done)
    && (DistinctUsernames(original) ==> DistinctUsernames(accounts))
  }

  lemma ReconciledAtStart(accounts: seq<Account>, now: int)
    ensures Reconciled(accounts, accounts, Usernames(accounts), [], now)
  {
    assert LegacyNames([]) == {};
    assert accounts[|accounts|..] == [];
  }

  /** The users after handling one more legacy administrator. */
  function AfterLegacy(accounts: seq<Account>, a: LegacyAdmin, id: nat, now: int): seq<Account> {
    if a.username in Usernames(accounts) then accounts else accounts + [AccountFor(a, id, now)]
  }

  lemma ReconcileAdvance(original: seq<Account>, accounts: seq<Account>, taken: set<string>, legacy: seq<LegacyAdmin>,
                         i: nat, id: nat, now: int)
    requires i < |legacy|
    requires Reconciled(original, accounts, taken, legacy[..i], now)
    ensures Reconciled(original, AfterLegacy(accounts, legacy[i], id, now), taken, legacy[..i + 1], now)
  {
    var done, a := legacy[..i], legacy[i];
    assert legacy[..i + 1] == done + [a];
    if a.username in Usernames(accounts) {
      ReconcileSkip(original, accounts, taken, done, a, now);
    } else {
      ReconcileAdd(original, accounts, taken, done, a, id, now);
    }
  }

  /** A legacy administrator whose username exists changes nothing. */
  lemma ReconcileSkip(original: seq<Account>, accounts: seq<Account>, taken: set<string>, done: seq<LegacyAdmin>,
                      a: LegacyAdmin, now: int)
    requires Reconciled(original, accounts, taken, done, now)
    requires a.username in Usernames(accounts)
    ensures Reconciled(original, accounts, taken, done + [a], now)
  {
    assert MissingAdmins(taken, done + [a]) == MissingAdmins(taken, done) by {
      MissingAdminsSnoc(taken, done, a);
    }
    assert Usernames(accounts) == taken + LegacyNames(done + [a]) by {
      LegacyNamesSnoc(done, a);
    }
  }

  /** A legacy administrator with a new username becomes the last user. */
  lemma ReconcileAdd(original: seq<Account>, accounts: seq<Account>, taken: set<string>, done: seq<LegacyAdmin>,
                     a: LegacyAdmin, id: nat, now: int)
    requires Reconciled(original, accounts, taken, done, now)
    requires a.username !in Usernames(accounts)
    ensures Reconciled(original, accounts + [AccountFor(a, id, now)], taken, done + [a], now)
  {
    var after := accounts + [AccountFor(a, id, now)];
    var created := MissingAdmins(taken, done);
    ReconcileStep(accounts, |original|, created, a, id, now);
    assert MissingAdmins(taken, done + [a]) == created + [a] by {
      MissingAdminsSnoc(taken, done, a);
    }
    assert Usernames(after) == taken + LegacyNames(done + [a]) by {
      LegacyNamesSnoc(done, a);
    }
  }

  /** One step of the reconciliation loop: the appended account extends
      the created suffix and keeps the usernames distinct. */
  lemma ReconcileStep(accounts: seq<Account>, n: nat, created: seq<LegacyAdmin>, a: LegacyAdmin, id: nat, now: int)
    requires n <= |accounts|
    requires CreatedFrom(accounts[n..], created, now)
    requires a.username !in Usernames(accounts)
    ensures var after := accounts + [AccountFor(a, id, now)];
            && after[..n] == accounts[..n]
            && CreatedFrom(after[n..], created + [a], now)
            && Usernames(after) == Usernames(accounts) + {a.username}
            && (DistinctUsernames(accounts) ==> DistinctUsernames(after))
  {
    var after := accounts + [AccountFor(a, id, now)];
    assert after[n..] == accounts[n..] + [AccountFor(a, id, now)];
    forall i | 0 <= i < |accounts|
      ensures accounts[i].username != a.username
    {
      assert accounts[i] in accounts;
    }
  }
}
