/**
 * Registration, password login, organization-role checks and the session
 * token's expiry. Users and organizations share one name space: every user
 * gets a personal organization named after them.
 */
module AuthService {
  import opened Wrappers
  import opened Stores

  /** A character allowed in a user name: `[a-zA-Z0-9-_]`. */
  predicate IsNameChar(c: char) {
    ('a' <= c <= 'z') || ('A' <= c <= 'Z') || ('0' <= c <= '9') || c == '-' || c == '_'
  }

  /**
   * The user-name pattern `^[a-zA-Z0-9-_]{1,50}$`. An accepted name is never
   * empty, so the truthiness tests on a found record's name are existence tests.
   */
  predicate CheckNameAvailable(name: string)
    ensures CheckNameAvailable(name) ==> name != ""
  {
    1 <= |name| <= 50 && forall i | 0 <= i < |name| :: IsNameChar(name[i])
  }

  /** The store lookup `getUserByName`. */
  function UserByName(users: map<string, User>, username: string): (data: Option<User>)
    ensures data.Some? <==> username in users
    ensures data.Some? ==> data.value == users[username]
  {
    if username in users then Some(users[username]) else None
  }

  /** A digest as `md5Encrypt` produces it: never the empty string. */
  type Hash = s: string | s != [] witness "0"

  /**
   * Registers `username`: checks the name pattern and that neither a user nor
   * an owner organization holds the name, then creates the user and after it
   * the personal organization. `userId` and `orgId` are the ids the stores
   * allocate for the two new rows; the user store keeps the digest
   * `md5Encrypt(password)`, the value login compares against.
   */
  method InitUser(db: Backend, md5Encrypt: string -> Hash, username: string, password: string,
                  userId: Id, orgId: Id)
    returns (r: Result<(Id, Id)>)
    requires db.Valid()
    requires forall name | name in db.users :: db.users[name].id != userId
    requires forall o | o in db.orgs :: o.id != orgId
    modifies db
    ensures db.Valid()
    ensures db.apps == old(db.apps) && db.tasks == old(db.tasks)
    ensures db.tokens == old(db.tokens) && db.webhooks == old(db.webhooks)
    ensures r.Err? <==>
      || !CheckNameAvailable(username)
      || username in old(db.users)
      || exists o | o in old(db.orgs) :: o.name == username && o.role == Owner
    ensures r.Err? ==>
      && r.error == ValidationError
      && db.users == old(db.users) && db.orgs == old(db.orgs) && db.trace == old(db.trace)
    ensures r.Ok? ==>
      && r.value == (userId, orgId)
      && db.users == old(db.users)[username := User(userId, username, md5Encrypt(password))]
      && db.orgs == old(db.orgs) + [OrgRow(orgId, userId, username, Owner)]
      && db.trace == old(db.trace) + [UserCreated(userId), OrgCreated(orgId)]
    ensures r.Ok? ==> username in db.users && FindOrg(db.orgs, OwnerOrgNamed(username)).Some?
    ensures r.Ok? ==> LoginWithPassword(db.users, md5Encrypt, username, password) == Ok(userId)
    ensures OwnerNamesUnique(old(db.orgs)) ==> OwnerNamesUnique(db.orgs)
    ensures (forall name | name in old(db.users) :: FindOrg(old(db.orgs), OwnerOrgNamed(name)).Some?) ==>
      forall name | name in db.users :: FindOrg(db.orgs, OwnerOrgNamed(name)).Some?
  {
    if !CheckNameAvailable(username) {
      return Err(ValidationError);
    }
    var data := UserByName(db.users, username);
    if data.Some? && data.value.username != "" {
      return Err(ValidationError);
    }
    var orgData := FindOrg(db.orgs, OwnerOrgNamed(username));
    if orgData.Some? && orgData.value.name != "" {
      return Err(ValidationError);
    }
    db.users := db.users[username := User(userId, username, md5Encrypt(password))];
    db.trace := db.trace + [UserCreated(userId)];
    var row := OrgRow(orgId, userId, username, Owner);
    db.orgs := db.orgs + [row];
    db.trace := db.trace + [OrgCreated(orgId)];
    assert row in db.orgs;
    RegisteredUserLogsIn(old(db.users), md5Encrypt, username, password, userId);
    r := Ok((userId, orgId));
  }

  /**
   * Logs in with a password: succeeds with the user's id exactly when the user
   * exists and its stored password is the digest of `password`. The lookup
   * defaults a missing user's stored password to the empty string, which no
   * digest equals, so an unknown user and a wrong password fail alike.
   */
  function LoginWithPassword(users: map<string, User>, md5Encrypt: string -> Hash,
                             username: string, password: string): (r: Result<Id>)
    ensures r.Ok? <==> username in users && users[username].password == md5Encrypt(password)
    ensures r.Ok? ==> r.value == users[username].id
    ensures r.Err? ==> r.error == ValidationError
  {
    var data := UserByName(users, username);
    var stored := if data.Some? then data.value.password else "";
    if stored != md5Encrypt(password) then Err(ValidationError)
    else if data.Some? then Ok(data.value.id)
    else assert false; Err(ValidationError)
  }

  /** A user registered with the digest of `password` logs in with `password`. */
  lemma RegisteredUserLogsIn(users: map<string, User>, md5Encrypt: string -> Hash,
                             username: string, password: string, userId: Id)
    ensures LoginWithPassword(users[username := User(userId, username, md5Encrypt(password))],
                              md5Encrypt, username, password) == Ok(userId)
  {
  }

  /** The default role list of `checkOrganizationRole`: the admin-class roles. */
  const ADMIN_ROLE_KEYS: seq<Role> := [Owner, Admin]

  /**
   * Checks the membership record `orgId`: no record raises NoAuthError; a
   * record answers whether its role is one of `orgRoleKeys`.
   */
  function CheckOrganizationRole(orgs: seq<OrgRow>, orgId: Id, orgRoleKeys: seq<Role> := ADMIN_ROLE_KEYS)
    : (r: Result<bool>)
    ensures r.Err? <==> forall o | o in orgs :: o.id != orgId
    ensures r.Err? ==> r.error == NoAuthError
    ensures r == Ok(true) ==> exists o | o in orgs :: o.id == orgId && o.role in orgRoleKeys
    ensures r == Ok(false) ==> exists o | o in orgs :: o.id == orgId && o.role !in orgRoleKeys
  {
    var orgConfig := FindOrg(orgs, WithId(orgId));
    if orgConfig.None? then Err(NoAuthError)
    else Ok(orgConfig.value.role in orgRoleKeys)
  }

  /** With the default roles, owners and admins pass, plain members get false, strangers an error. */
  lemma DefaultRolesAreAdminClass(orgs: seq<OrgRow>, row: OrgRow)
    requires row in orgs
    requires forall o | o in orgs && o.id == row.id :: o == row
    ensures CheckOrganizationRole(orgs, row.id) == Ok(row.role != Member)
  {
  }

  /** The claims signed into the session token. */
  datatype Claims = Claims(userId: Id, exp: int)

  /** The session cookie; the token is shown by the claims it carries, signing is abstract. */
  datatype Cookie = Cookie(name: string, token: Claims, maxAge: int, httpOnly: bool)

  /**
   * The token's expiry in whole seconds: the current time (milliseconds) and
   * the session lifetime (milliseconds), each floored to seconds, added.
   */
  function SessionExp(now: int, sessionExpiration: int): (exp: int)
    ensures 1000 * exp <= now + sessionExpiration < 1000 * exp + 2000
    ensures sessionExpiration >= 0 ==> exp >= now / 1000
  {
    now / 1000 + sessionExpiration / 1000
  }

  /**
   * The cookie `setJwt` writes for `userId` at time `now`: an HTTP-only `jwt`
   * cookie whose max-age is the session lifetime, carrying the user id and an
   * expiry that falls within two seconds before the cookie's own expiry.
   */
  function SetJwt(userId: Id, now: int, sessionExpiration: int): (c: Cookie)
    ensures c.name == "jwt" && c.httpOnly && c.maxAge == sessionExpiration
    ensures c.token.userId == userId
    ensures 1000 * c.token.exp <= now + c.maxAge < 1000 * c.token.exp + 2000
  {
    Cookie("jwt", Claims(userId, SessionExp(now, sessionExpiration)), sessionExpiration, true)
  }
}
