// lib/auth-storage.ts: the login session kept under two keys of the
// browser's key-value storage. Every write emits one auth-change event; with
// no browser window nothing is read, written or emitted. JSON encoding and
// decoding of the user are supplied by the caller.
module AuthStorage {
  import opened Wrappers

  const TokenKey := "smartfarm.authToken"
  const UserKey := "smartfarm.authUser"

  datatype AuthUser = AuthUser(id: int, name: string, email: string)

  /** What `JSON.parse` does with a stored string: throw, or give a value that is `null` or a user. */
  datatype Parsed = Throws | Value(user: Option<AuthUser>)

  /** `localStorage` with the count of dispatched auth-change events. */
  class Store {
    var items: map<string, string>
    var events: nat
    /** `typeof window !== "undefined"` */
    const hasWindow: bool

    constructor (hasWindow: bool, items: map<string, string>)
      ensures this.hasWindow == hasWindow && this.items == items && events == 0
    {
      this.hasWindow := hasWindow;
      this.items := items;
      events := 0;
    }

    /** `getAuthToken()` */
    function GetAuthToken(): (r: Option<string>)
      reads this
      ensures r.Some? <==> hasWindow && TokenKey in items
      ensures r.Some? ==> r.value == items[TokenKey]
    {
      if !hasWindow then None
      else if TokenKey in items then Some(items[TokenKey])
      else None
    }

    /** `setAuthSession(user, token)`: both keys written, one event; nothing at all without a window. */
    method SetAuthSession(user: AuthUser, token: string, stringify: AuthUser -> string)
      modifies this
      ensures !hasWindow ==> items == old(items) && events == old(events)
      ensures hasWindow ==> items == old(items)[TokenKey := token][UserKey := stringify(user)]
      ensures hasWindow ==> events == old(events) + 1
      ensures hasWindow ==> GetAuthToken() == Some(token)
    {
      if !hasWindow {
        return;
      }
      items := items[TokenKey := token];
      items := items[UserKey := stringify(user)];
      events := events + 1;
    }

    /** `clearAuthSession()`: both keys removed, one event; nothing at all without a window. */
    method ClearAuthSession()
      modifies this
      ensures !hasWindow ==> items == old(items) && events == old(events)
      ensures hasWindow ==> items == old(items) - {TokenKey, UserKey}
      ensures hasWindow ==> events == old(events) + 1
      ensures GetAuthToken() == None
      ensures hasWindow ==> UserKey !in items
    {
      if !hasWindow {
        return;
      }
      items := items - {TokenKey};
      items := items - {UserKey};
      events := events + 1;
    }

    /**
     * `getAuthUser()`: `None` without a window or for a missing or empty
     * stored value; a value whose parse throws is removed, and only it; a
     * value that parses is returned as parsed, `null` included, and kept.
     */
    method GetAuthUser(parse: string -> Parsed) returns (r: Option<AuthUser>)
      modifies this
      ensures events == old(events)
      ensures r == StoredUser(hasWindow, old(items), parse)
      ensures hasWindow && UserKey in old(items) && old(items)[UserKey] != "" && parse(old(items)[UserKey]).Throws?
        ==> items == old(items) - {UserKey}
      ensures !(hasWindow && UserKey in old(items) && old(items)[UserKey] != "" && parse(old(items)[UserKey]).Throws?)
        ==> items == old(items)
    {
      if !hasWindow {
        return None;
      }
      if UserKey !in items || items[UserKey] == "" {
        return None;
      }
      var raw := items[UserKey];
      var parsed := parse(raw);
      if parsed.Throws? {
        items := items - {UserKey};
        return None;
      }
      return parsed.user;
    }
  }

  /** The user `getAuthUser` reports for a storage state. */
  function StoredUser(hasWindow: bool, items: map<string, string>, parse: string -> Parsed): (r: Option<AuthUser>)
    ensures r.Some? ==> hasWindow && UserKey in items && items[UserKey] != "" && parse(items[UserKey]) == Value(r)
    ensures hasWindow && UserKey in items && items[UserKey] != "" && parse(items[UserKey]).Value? ==>
      r == parse(items[UserKey]).user
  {
    if !hasWindow || UserKey !in items || items[UserKey] == "" then None
    else match parse(items[UserKey])
      case Throws => None
      case Value(u) => u
  }

  /** A user stored by `setAuthSession` is read back when the decoder inverts the encoder. */
  lemma StoredUserRoundTrip(items: map<string, string>, user: AuthUser, token: string,
                            stringify: AuthUser -> string, parse: string -> Parsed)
    requires stringify(user) != "" && parse(stringify(user)) == Value(Some(user))
    ensures StoredUser(true, items[TokenKey := token][UserKey := stringify(user)], parse) == Some(user)
  {
  }

  /** A stored `"null"` parses without throwing: no user is reported and, per `GetAuthUser`, the key is kept. */
  lemma StoredNullIsNoUser(items: map<string, string>, parse: string -> Parsed)
    requires parse("null") == Value(None)
    ensures StoredUser(true, items[UserKey := "null"], parse) == None
    ensures !parse(items[UserKey := "null"][UserKey]).Throws?
  {
  }

  /** After `clearAuthSession`, or with no window, no user is reported. */
  lemma NoStoredUser(items: map<string, string>, parse: string -> Parsed)
    ensures StoredUser(true, items - {TokenKey, UserKey}, parse) == None
    ensures StoredUser(false, items, parse) == None
  {
  }

  /** The two keys are distinct, so writing the user never overwrites the token. */
  lemma KeysDistinct(items: map<string, string>, token: string, userText: string)
    ensures items[TokenKey := token][UserKey := userText][TokenKey] == token
    ensures items[TokenKey := token][UserKey := userText][UserKey] == userText
  {
    assert TokenKey != UserKey by {
      assert TokenKey[10] == 'a' && UserKey[10] == 'a';
      assert TokenKey[14] != UserKey[14];
    }
  }
}
