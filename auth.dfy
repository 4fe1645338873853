/**
 * The staff authentication middleware (backend/src/middleware/auth.ts): reading the bearer
 * token, `protect` and `authorize`. Token verification is a parameter returning the user id
 * it carries, or `None` where `jwt.verify` throws.
 */
module Auth {
  import opened Wrappers
  import opened Strings
  import opened Models

  /** The fields of a staff user that the middleware reads. */
  datatype User = User(id: Id, role: string, isActive: bool)

  /** What a middleware does with the request: pass it on, or answer with a status code. */
  datatype Gate = Next | Reject(code: int)

  /**
   * The token of an Authorization header: present only when the header starts with "Bearer",
   * and then the second space-separated field, if there is one.
   */
  function BearerToken(header: Option<string>): (r: Option<string>)
    ensures r.Some? ==>
      && header.Some? && StartsWith(header.value, "Bearer")
      && |Split(header.value, ' ')| >= 2 && r.value == Split(header.value, ' ')[1]
    ensures header.Some? && StartsWith(header.value, "Bearer") && |Split(header.value, ' ')| >= 2 ==> r.Some?
  {
    if header.Some? && StartsWith(header.value, "Bearer") then
      var fields := Split(header.value, ' ');
      if |fields| >= 2 then Some(fields[1]) else None
    else None
  }

  /** The header a client builds, "Bearer " and the token, gives that token back when it holds no space. */
  lemma BearerRoundTrip(token: string)
    requires ' ' !in token
    ensures BearerToken(Some("Bearer " + token)) == Some(token)
  {
    var h := "Bearer " + token;
    assert h == "Bearer" + [' '] + token;
    SplitPiece("Bearer", ' ', token);
    SplitNoSep(token, ' ');
    assert StartsWith(h, "Bearer") by { assert h[..6] == "Bearer"; }
  }

  /** The request object, whose `user` `protect` sets. */
  class Request {
    var user: Option<User>

    constructor()
      ensures user == None
    {
      user := None;
    }
  }

  /**
   * `protect`: no usable token is 401; a token that fails verification is 401; a user who is
   * unknown or inactive is 401. Otherwise the user is attached to the request and the next
   * handler runs. A refused request is left untouched.
   */
  method Protect(req: Request, header: Option<string>, verify: string -> Option<Id>, users: map<Id, User>)
    returns (gate: Gate)
    modifies req
    ensures gate.Reject? ==> gate.code == 401 && req.user == old(req.user)
    ensures (BearerToken(header).None? || BearerToken(header).value == "") ==> gate == Reject(401)
    ensures BearerToken(header).Some? && BearerToken(header).value != "" && verify(BearerToken(header).value).None? ==>
      gate == Reject(401)
    ensures gate == Next <==>
      && BearerToken(header).Some? && BearerToken(header).value != ""
      && verify(BearerToken(header).value).Some?
      && verify(BearerToken(header).value).value in users
      && users[verify(BearerToken(header).value).value].isActive
    ensures gate == Next ==> req.user == Some(users[verify(BearerToken(header).value).value])
  {
    var token := BearerToken(header);
    if token.None? || token.value == "" {
      return Reject(401);
    }
    var decoded := verify(token.value);
    if decoded.None? {
      return Reject(401);
    }
    if decoded.value !in users || !users[decoded.value].isActive {
      return Reject(401);
    }
    req.user := Some(users[decoded.value]);
    return Next;
  }

  /** `authorize(...roles)`: 403 unless there is a user whose role is one of `roles`. */
  function Authorize(roles: seq<string>, user: Option<User>): (gate: Gate)
    ensures gate == Next <==> user.Some? && user.value.role in roles
    ensures gate != Next ==> gate == Reject(403)
  {
    if user.None? || user.value.role !in roles then Reject(403) else Next
  }

  /** The role lists of the staff routes: kitchen and status update for admin and kitchen, the rest admin only. */
  const KITCHEN_ROLES: seq<string> := ["admin", "kitchen"]
  const ADMIN_ROLES: seq<string> := ["admin"]

  /** Kitchen staff reach the kitchen routes but none of the admin-only ones; admins reach both. */
  lemma StaffScopes(u: User)
    ensures u.role == "kitchen" ==> Authorize(KITCHEN_ROLES, Some(u)) == Next && Authorize(ADMIN_ROLES, Some(u)) == Reject(403)
    ensures u.role == "admin" ==> Authorize(KITCHEN_ROLES, Some(u)) == Next && Authorize(ADMIN_ROLES, Some(u)) == Next
  {
    if u.role == "kitchen" {
      assert u.role != ADMIN_ROLES[0];
    }
  }
}
