/**
  The session store: the signed-in user held in memory by the auth
  provider, mirrored in one durable storage slot, 'currentUser'.
 */
module Session {
  import opened Domain

  /** The storage slot the session lives in. */
  const SESSION_KEY := "currentUser"

  /** Durable browser storage: a map from key to the (parsed) record stored there. */
  class BrowserStorage {
    var items: map<string, User>

    constructor (initial: map<string, User>)
      ensures items == initial
    {
      items := initial;
    }

    method SetItem(key: string, value: User)
      modifies this
      ensures items == old(items)[key := value]
    {
      items := items[key := value];
    }

    method RemoveItem(key: string)
      modifies this
      ensures items == old(items) - {key}
    {
      items := items - {key};
    }
  }

  /** The session a fresh page load starts from: the record under 'currentUser', if any. */
  function StoredSession(items: map<string, User>): (s: Option<User>)
    ensures s.Some? <==> SESSION_KEY in items
    ensures s.Some? ==> s.value == items[SESSION_KEY]
  {
    if SESSION_KEY in items then Some(items[SESSION_KEY]) else None
  }

  /** The request interceptor's header: "Bearer <token>" exactly when the stored
      session has a non-empty token, and no header otherwise. It reads storage,
      not the in-memory user. */
  function AuthorizationHeader(items: map<string, User>): (h: Option<string>)
    ensures h.Some? <==> SESSION_KEY in items && items[SESSION_KEY].token.Some? && items[SESSION_KEY].token.value != ""
    ensures h.Some? ==> h.value == "Bearer " + items[SESSION_KEY].token.value
  {
    match StoredSession(items)
    case Some(u) =>
      if u.token.Some? && u.token.value != "" then Some("Bearer " + u.token.value) else None
    case None => None
  }

  /** The server's answer to /auth/login or /auth/register. */
  datatype AuthReply = Accepted(data: User) | Rejected(message: Option<JsValue>)

  /** How `login`/`register` end for the caller: a returned user or a thrown value. */
  datatype AuthOutcome = Returned(user: User) | Threw(error: JsValue)

  const LOGIN_FALLBACK := "Login failed"
  const REGISTER_FALLBACK := "Registration failed"

  class AuthProvider {
    const storage: BrowserStorage
    var user: Option<User>
    var loading: bool
    /** Requests this provider has sent to the API, oldest first. */
    var sent: seq<Request>

    /** `useState(null)` and `useState(true)`. */
    constructor (storage: BrowserStorage)
      ensures this.storage == storage
      ensures user == None && loading && sent == []
    {
      this.storage := storage;
      user := None;
      loading := true;
      sent := [];
    }

    /** The mount effect: adopt the stored session if there is one; loading ends either way. */
    method Mount()
      modifies this
      ensures user == (if SESSION_KEY in storage.items then StoredSession(storage.items) else old(user))
      ensures !loading && sent == old(sent)
    {
      if SESSION_KEY in storage.items {
        user := Some(storage.items[SESSION_KEY]);
      }
      loading := false;
    }

    /** The common shape of `login` and `register`: on acceptance the response
        record becomes both the in-memory user and the stored session and is
        returned; on rejection nothing changes and the server message (or the
        fallback) is thrown. */
    method Authenticate(request: Request, reply: AuthReply, fallback: string) returns (r: AuthOutcome)
      requires fallback != ""
      modifies this, storage
      ensures sent == old(sent) + [request] && loading == old(loading)
      ensures reply.Accepted? ==>
        && r == Returned(reply.data)
        && user == Some(reply.data)
        && storage.items == old(storage.items)[SESSION_KEY := reply.data]
      ensures reply.Rejected? ==>
        && r == Threw(OrFallback(reply.message, fallback))
        && user == old(user)
        && storage.items == old(storage.items)
    {
      sent := sent + [request];
      match reply
      case Accepted(data) =>
        user := Some(data);
        storage.SetItem(SESSION_KEY, data);
        r := Returned(data);
      case Rejected(message) =>
        r := Threw(OrFallback(message, fallback));
    }

    method Login(email: string, password: string, reply: AuthReply) returns (r: AuthOutcome)
      modifies this, storage
      ensures sent == old(sent) + [PostLogin(email, password)] && loading == old(loading)
      ensures reply.Accepted? ==>
        && r == Returned(reply.data)
        && user == Some(reply.data)
        && storage.items == old(storage.items)[SESSION_KEY := reply.data]
      ensures reply.Rejected? ==>
        && r == Threw(OrFallback(reply.message, LOGIN_FALLBACK))
        && user == old(user)
        && storage.items == old(storage.items)
    {
      r := Authenticate(PostLogin(email, password), reply, LOGIN_FALLBACK);
    }

    method Register(fields: map<string, string>, reply: AuthReply) returns (r: AuthOutcome)
      modifies this, storage
      ensures sent == old(sent) + [PostRegister(fields)] && loading == old(loading)
      ensures reply.Accepted? ==>
        && r == Returned(reply.data)
        && user == Some(reply.data)
        && storage.items == old(storage.items)[SESSION_KEY := reply.data]
      ensures reply.Rejected? ==>
        && r == Threw(OrFallback(reply.message, REGISTER_FALLBACK))
        && user == old(user)
        && storage.items == old(storage.items)
    {
      r := Authenticate(PostRegister(fields), reply, REGISTER_FALLBACK);
    }

    /** Clears the in-memory user and the stored session; never fails and sends nothing. */
    method Logout()
      modifies this, storage
      ensures user == None
      ensures storage.items == old(storage.items) - {SESSION_KEY}
      ensures StoredSession(storage.items) == None
      ensures sent == old(sent) && loading == old(loading)
    {
      user := None;
      storage.RemoveItem(SESSION_KEY);
    }
  }

  /** Logging out twice leaves exactly the state one logout leaves. */
  method LogoutTwice(auth: AuthProvider)
    modifies auth, auth.storage
    ensures auth.user == None
    ensures auth.storage.items == old(auth.storage.items) - {SESSION_KEY}
    ensures auth.sent == old(auth.sent) && auth.loading == old(auth.loading)
  {
    auth.Logout();
    ghost var once := auth.storage.items;
    auth.Logout();
    assert auth.storage.items == once;
  }

  /** After a successful login, a reload starts from the session the login stored. */
  method LoginSurvivesReload(auth: AuthProvider, email: string, password: string, u: User)
    returns (reloaded: AuthProvider)
    modifies auth, auth.storage
    ensures reloaded.user == Some(u) && !reloaded.loading
  {
    var r := auth.Login(email, password, Accepted(u));
    reloaded := new AuthProvider(auth.storage);
    reloaded.Mount();
  }
}
