/**
 * The session store shared by every screen: the bearer token persisted under
 * the storage key 'token' and the identity decoded from it. The token decoder
 * is a partial function supplied from outside; `None` stands for a decode that throws.
 */
module Session {
  import opened Base

  /** A decoded token payload; `others` holds the claims the client ignores (issue and expiry times). */
  datatype Claims = Claims(userId: string, username: string, role: string, others: map<string, string>)

  /** `{ userId: decoded.userId, username: decoded.username, role: decoded.role }`. */
  function UserOf(c: Claims): User {
    User(c.userId, c.username, c.role)
  }

  /** The identity a stored token yields at startup: a decode failure gives the anonymous session. */
  function Restore(decode: string -> Option<Claims>, token: string): (u: Option<User>)
    ensures u.None? <==> decode(token).None?
    ensures u.Some? ==> u.value == UserOf(decode(token).value)
  {
    match decode(token)
    case None => None
    case Some(c) => Some(UserOf(c))
  }

  class AuthStore {
    /** The token decoder. */
    const decode: string -> Option<Claims>
    /** The storage entry 'token'. */
    var stored: Option<string>
    /** The signed-in identity, null when anonymous. */
    var user: Option<User>

    /** The provider as mounted: whatever storage already holds, and no identity yet. */
    constructor (decode: string -> Option<Claims>, persisted: Option<string>)
      ensures this.decode == decode && stored == persisted && user == None
    {
      this.decode := decode;
      stored := persisted;
      user := None;
    }

    /** The mount effect: a truthy stored token is decoded; a missing one leaves the identity as it is. */
    method Startup()
      modifies this
      ensures stored == old(stored)
      ensures user == if Truthy(stored) then Restore(decode, stored.value) else old(user)
    {
      if Truthy(stored) {
        var decoded := decode(stored.value);
        if decoded.Some? {
          user := Some(UserOf(decoded.value));
        } else {
          user := None;
        }
      }
    }

    /**
     * `login(token)`: the token is persisted first, then decoded; when decoding
     * throws, `threw` is true, the identity is unchanged and the token stays stored.
     */
    method Login(token: string) returns (threw: bool)
      modifies this
      ensures stored == Some(token)
      ensures threw <==> decode(token).None?
      ensures user == if threw then old(user) else Some(UserOf(decode(token).value))
    {
      stored := Some(token);
      var decoded := decode(token);
      if decoded.None? {
        return true;
      }
      user := Some(UserOf(decoded.value));
      threw := false;
    }

    /** `logout()`: the new state does not depend on the old one, so a second logout changes nothing. */
    method Logout()
      modifies this
      ensures stored == None && user == None
    {
      stored := None;
      user := None;
    }
  }

  /**
   * A reload after `login(token)` sees the identity that login left behind:
   * the decoded user after a successful login, and the anonymous session after
   * a login whose decode threw (the undecodable token is stored but restores nothing).
   */
  method ReloadAfterLogin(decode: string -> Option<Claims>, token: string)
    returns (afterLogin: Option<User>, afterReload: Option<User>)
    requires token != ""
    ensures afterLogin == afterReload
    ensures afterReload == Restore(decode, token)
  {
    var first := new AuthStore(decode, None);
    first.Startup();
    var _ := first.Login(token);
    afterLogin := first.user;
    var second := new AuthStore(decode, first.stored);
    second.Startup();
    afterReload := second.user;
  }
}
