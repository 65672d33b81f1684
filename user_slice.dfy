/**
 * The user session container: the current user, the authentication flag, a
 * loading flag and the last error message; the four asynchronous operations
 * (register, login, fetch the logged-in user, update the profile); and the
 * reducers, including the synchronous logout that also clears the stored
 * session.
 */
module UserSlice {
  import opened Wrappers
  import opened Records
  import opened Remote
  import opened Async
  import opened Storage

  const EMAIL_TAKEN := "Email already registered"
  const REGISTRATION_FAILED := "Registration failed"
  const USER_NOT_FOUND := "User not found"
  const INVALID_PASSWORD := "Invalid password"
  const LOGIN_FAILED := "Login failed"
  const NOT_LOGGED_IN := "No user logged in"
  const FETCH_USER_FAILED := "Failed to fetch user"
  const UPDATE_PROFILE_FAILED := "Failed to update profile"

  /**
   * The record registration stores, `{ id: generatedId, ...data, createdAt }`:
   * an id the caller supplies wins over the generated one, while the creation
   * time always comes from the clock.
   */
  function NewUser(data: UserData, generatedId: UserId, createdAt: string): (u: User)
    ensures u.createdAt == createdAt
    ensures data.id.None? ==> u.id == generatedId
    ensures data.id.Some? ==> u.id == data.id.value
    ensures u.fullName == data.fullName && u.email == data.email
    ensures u.password == data.password && u.bio == data.bio
  {
    User(data.id.GetOr(generatedId), data.fullName, data.email, data.password, data.bio, createdAt)
  }

  /** The session token a login stores: `token_<id>_<now>`. */
  function SessionToken(id: UserId, now: string): (token: string)
    ensures |token| == 7 + |id| + |now|
    ensures token[..6] == "token_" && token[6..6 + |id|] == id
    ensures token[6 + |id|] == '_' && token[7 + |id|..] == now
  {
    "token_" + id + "_" + now
  }

  /**
   * registerUser: refuses an email some stored user already has, without
   * creating anything; otherwise stores the new record and fulfils with it.
   */
  function RegisterUser(s: Server, data: UserData, generatedId: UserId, createdAt: string): (c: Completion<User>)
    ensures s.fault.Some? ==> c == Completion(Rejected(RejectionMessage(s.fault.value, REGISTRATION_FAILED)), s)
    ensures s.fault.None? && (exists u :: u in s.users && u.email == data.email) ==>
      c == Completion(Rejected(EMAIL_TAKEN), s)
    ensures s.fault.None? && (forall u :: u in s.users ==> u.email != data.email) ==>
      var u := NewUser(data, generatedId, createdAt);
      c == Completion(Fulfilled(u), s.(users := s.users + [u]))
  {
    match GetUsersByEmail(s, data.email)
    case Err(f) => Completion(Rejected(RejectionMessage(f, REGISTRATION_FAILED)), s)
    case Ok(existing) =>
      if |existing| > 0 then
        assert existing[0] in existing;
        Completion(Rejected(EMAIL_TAKEN), s)
      else
        var (reply, after) := PostUser(s, NewUser(data, generatedId, createdAt));
        match reply
        case Ok(u) => Completion(Fulfilled(u), after)
        case Err(f) => Completion(Rejected(RejectionMessage(f, REGISTRATION_FAILED)), after)
  }

  /**
   * The decision loginUser makes before it touches the session store: the
   * first user with that email, if the passwords are the same string.
   */
  function LoginUser(s: Server, email: string, password: string): (r: Settled<User>)
    ensures s.fault.Some? ==> r == Rejected(RejectionMessage(s.fault.value, LOGIN_FAILED))
    ensures s.fault.None? && (forall u :: u in s.users ==> u.email != email) ==> r == Rejected(USER_NOT_FOUND)
    ensures s.fault.None? && UsersWithEmail(s.users, email) != [] ==>
      var first := UsersWithEmail(s.users, email)[0];
      r == if first.password == password then Fulfilled(first) else Rejected(INVALID_PASSWORD)
    ensures r.Fulfilled? ==> r.payload in s.users && r.payload.email == email && r.payload.password == password
  {
    match GetUsersByEmail(s, email)
    case Err(f) => Rejected(RejectionMessage(f, LOGIN_FAILED))
    case Ok(found) =>
      if found == [] then Rejected(USER_NOT_FOUND)
      else if found[0].password != password then Rejected(INVALID_PASSWORD)
      else Fulfilled(found[0])
  }

  /**
   * fetchCurrentUser, given what the session store holds under `userId`:
   * with no stored id (absent or empty) it rejects before asking the store;
   * otherwise it fetches that user.
   */
  function FetchCurrentUser(s: Server, storedId: Option<string>): (r: Settled<User>)
    ensures storedId.None? || storedId.value == "" ==> r == Rejected(NOT_LOGGED_IN)
    ensures storedId.Some? && storedId.value != "" ==>
      (r.Fulfilled? <==> s.fault.None? && exists u :: u in s.users && u.id == storedId.value)
    ensures r.Fulfilled? ==> storedId.Some? && r.payload in s.users && r.payload.id == storedId.value
    ensures storedId.Some? && storedId.value != "" && s.fault.Some? ==>
      r == Rejected(RejectionMessage(s.fault.value, FETCH_USER_FAILED))
    ensures storedId.Some? && storedId.value != "" && s.fault.None? && r.Rejected? ==>
      r.message == FETCH_USER_FAILED
  {
    match storedId
    case None => Rejected(NOT_LOGGED_IN)
    case Some(id) =>
      if id == "" then Rejected(NOT_LOGGED_IN)
      else
        match GetUser(s, id)
        case Ok(u) => Fulfilled(u)
        case Err(f) => Rejected(RejectionMessage(f, FETCH_USER_FAILED))
  }

  /** updateUserProfile: the stored user merged with the patch, in its place in the store. */
  function UpdateUserProfile(s: Server, id: UserId, patch: UserPatch): (c: Completion<User>)
    ensures c.outcome.Fulfilled? <==> s.fault.None? && exists u :: u in s.users && u.id == id
    ensures c.outcome.Fulfilled? ==>
      var k := FindUserIndex(s.users, id);
      && c.outcome.payload == MergeUser(s.users[k], patch)
      && c.outcome.payload.id == id
      && c.server == s.(users := s.users[k := c.outcome.payload])
    ensures c.outcome.Rejected? ==> c.server == s
    ensures s.fault.Some? ==> c.outcome == Rejected(RejectionMessage(s.fault.value, UPDATE_PROFILE_FAILED))
    ensures s.fault.None? && c.outcome.Rejected? ==> c.outcome.message == UPDATE_PROFILE_FAILED
  {
    var (reply, after) := PatchUser(s, id, patch);
    match reply
    case Ok(u) => Completion(Fulfilled(u), after)
    case Err(f) => Completion(Rejected(RejectionMessage(f, UPDATE_PROFILE_FAILED)), after)
  }

  // ---------------------------------------------------------------------------
  // What the operations promise when run one after another against the store.

  /** The users with an email, listed after one more user is appended. */
  lemma {:induction false} UsersWithEmailAppend(users: seq<User>, u: User)
    ensures UsersWithEmail(users + [u], u.email) == UsersWithEmail(users, u.email) + [u]
  {
    if users == [] {
      assert UsersWithEmail([u], u.email) == [u] + UsersWithEmail([], u.email);
    } else {
      assert (users + [u])[1..] == users[1..] + [u];
      UsersWithEmailAppend(users[1..], u);
    }
  }

  /** Right after a successful registration, logging in with the same email and password succeeds. */
  lemma RegisteredUserCanLogIn(s: Server, data: UserData, generatedId: UserId, createdAt: string)
    requires RegisterUser(s, data, generatedId, createdAt).outcome.Fulfilled?
    ensures LoginUser(RegisterUser(s, data, generatedId, createdAt).server, data.email, data.password)
         == Fulfilled(NewUser(data, generatedId, createdAt))
  {
    var u := NewUser(data, generatedId, createdAt);
    UsersWithEmailAppend(s.users, u);
    assert UsersWithEmail(s.users, data.email) == [];
  }

  /** A second registration with the same email is refused. */
  lemma EmailCannotRegisterTwice(s: Server, data: UserData, id1: UserId, id2: UserId, t1: string, t2: string)
    requires RegisterUser(s, data, id1, t1).outcome.Fulfilled?
    ensures RegisterUser(RegisterUser(s, data, id1, t1).server, data, id2, t2)
         == Completion(Rejected(EMAIL_TAKEN), RegisterUser(s, data, id1, t1).server)
  {
    var after := RegisterUser(s, data, id1, t1).server;
    assert NewUser(data, id1, t1) in after.users;
  }

  // ---------------------------------------------------------------------------
  // The container and its reducers.

  class UserState {
    var user: Option<User>
    var isAuthenticated: bool
    var loading: bool
    var error: Option<string>

    /** The authentication flag is only ever raised together with a user record. */
    predicate Valid()
      reads this
    {
      isAuthenticated ==> user.Some?
    }

    /** The initial state: no user, not authenticated, not loading, no error. */
    constructor ()
      ensures Valid()
      ensures user == None && !isAuthenticated && !loading && error == None
    {
      user := None;
      isAuthenticated := false;
      loading := false;
      error := None;
    }

    /** Forgets the user and removes the three session keys; touches neither `loading` nor `error`. */
    method Logout(storage: LocalStorage)
      requires Valid()
      modifies this, storage
      ensures Valid()
      ensures user == None && !isAuthenticated
      ensures loading == old(loading) && error == old(error)
      ensures storage.items == old(storage.items) - {AUTH_TOKEN, USER_ID, USER_NAME}
    {
      user := None;
      isAuthenticated := false;
      storage.RemoveItem(AUTH_TOKEN);
      storage.RemoveItem(USER_ID);
      storage.RemoveItem(USER_NAME);
    }

    method ClearError()
      requires Valid()
      modifies this
      ensures Valid()
      ensures error == None
      ensures user == old(user) && isAuthenticated == old(isAuthenticated) && loading == old(loading)
    {
      error := None;
    }

    /** The pending case of registerUser and loginUser. */
    method Pending()
      requires Valid()
      modifies this
      ensures Valid()
      ensures loading && error == None
      ensures user == old(user) && isAuthenticated == old(isAuthenticated)
    {
      loading := true;
      error := None;
    }

    /** The fulfilled case of registerUser, loginUser and fetchCurrentUser. */
    method Authenticated(payload: User)
      requires Valid()
      modifies this
      ensures Valid()
      ensures !loading && user == Some(payload) && isAuthenticated
      ensures error == old(error)
    {
      loading := false;
      user := Some(payload);
      isAuthenticated := true;
    }

    /** The rejected case of registerUser and loginUser. */
    method Reject(message: string)
      requires Valid()
      modifies this
      ensures Valid()
      ensures !loading && error == Some(message)
      ensures user == old(user) && isAuthenticated == old(isAuthenticated)
    {
      loading := false;
      error := Some(message);
    }

    /** The pending case of fetchCurrentUser: it does not clear `error`. */
    method FetchCurrentUserPending()
      requires Valid()
      modifies this
      ensures Valid()
      ensures loading
      ensures user == old(user) && isAuthenticated == old(isAuthenticated) && error == old(error)
    {
      loading := true;
    }

    /**
     * The rejected case of fetchCurrentUser: it drops the authentication flag,
     * keeps the user record and ignores the rejection message.
     */
    method FetchCurrentUserRejected()
      requires Valid()
      modifies this
      ensures Valid()
      ensures !loading && !isAuthenticated
      ensures user == old(user) && error == old(error)
    {
      loading := false;
      isAuthenticated := false;
    }

    /** The only case updateUserProfile has: it replaces the user and nothing else. */
    method UpdateUserProfileFulfilled(payload: User)
      requires Valid()
      modifies this
      ensures Valid()
      ensures user == Some(payload)
      ensures isAuthenticated == old(isAuthenticated) && loading == old(loading) && error == old(error)
    {
      user := Some(payload);
    }

    // -------------------------------------------------------------------------
    // Each operation as one step: the pending case, the request, then the
    // fulfilled or rejected case.

    method DispatchRegisterUser(server: Server, data: UserData, generatedId: UserId, createdAt: string)
      returns (after: Server)
      requires Valid()
      modifies this
      ensures Valid()
      ensures after == RegisterUser(server, data, generatedId, createdAt).server
      ensures !loading
      ensures match RegisterUser(server, data, generatedId, createdAt).outcome
              case Fulfilled(u) => user == Some(u) && isAuthenticated && error == None
              case Rejected(m) => user == old(user) && isAuthenticated == old(isAuthenticated) && error == Some(m)
    {
      Pending();
      var c := RegisterUser(server, data, generatedId, createdAt);
      after := c.server;
      match c.outcome {
        case Fulfilled(u) => Authenticated(u);
        case Rejected(m) => Reject(m);
      }
    }

    /**
     * loginUser: on success writes exactly the three session keys, then
     * authenticates; on failure leaves the session store untouched.
     */
    method DispatchLoginUser(server: Server, storage: LocalStorage, email: string, password: string, now: string)
      requires Valid()
      modifies this, storage
      ensures Valid()
      ensures !loading
      ensures match LoginUser(server, email, password)
              case Fulfilled(u) =>
                && user == Some(u) && isAuthenticated && error == None
                && storage.items == old(storage.items)[AUTH_TOKEN := SessionToken(u.id, now)]
                                                      [USER_ID := u.id][USER_NAME := u.fullName]
              case Rejected(m) =>
                && user == old(user) && isAuthenticated == old(isAuthenticated) && error == Some(m)
                && storage.items == old(storage.items)
    {
      Pending();
      match LoginUser(server, email, password) {
        case Fulfilled(u) =>
          storage.SetItem(AUTH_TOKEN, SessionToken(u.id, now));
          storage.SetItem(USER_ID, u.id);
          storage.SetItem(USER_NAME, u.fullName);
          Authenticated(u);
        case Rejected(m) =>
          Reject(m);
      }
    }

    method DispatchFetchCurrentUser(server: Server, storage: LocalStorage)
      requires Valid()
      modifies this
      ensures Valid()
      ensures !loading && error == old(error)
      ensures match FetchCurrentUser(server, storage.GetItem(USER_ID))
              case Fulfilled(u) => user == Some(u) && isAuthenticated
              case Rejected(_) => user == old(user) && !isAuthenticated
    {
      FetchCurrentUserPending();
      match FetchCurrentUser(server, storage.GetItem(USER_ID)) {
        case Fulfilled(u) => Authenticated(u);
        case Rejected(_) => FetchCurrentUserRejected();
      }
    }

    /** No pending or rejected case: a failed update leaves the container as it was. */
    method DispatchUpdateUserProfile(server: Server, id: UserId, patch: UserPatch) returns (after: Server)
      requires Valid()
      modifies this
      ensures Valid()
      ensures after == UpdateUserProfile(server, id, patch).server
      ensures isAuthenticated == old(isAuthenticated) && loading == old(loading) && error == old(error)
      ensures match UpdateUserProfile(server, id, patch).outcome
              case Fulfilled(u) => user == Some(u)
              case Rejected(_) => user == old(user)
    {
      var c := UpdateUserProfile(server, id, patch);
      after := c.server;
      if c.outcome.Fulfilled? {
        UpdateUserProfileFulfilled(c.outcome.payload);
      }
    }
  }

  /** Logging out twice leaves the same state and store as logging out once. */
  method LogoutTwice(state: UserState, storage: LocalStorage)
    requires state.Valid()
    modifies state, storage
    ensures state.Valid() && state.user == None && !state.isAuthenticated
    ensures state.loading == old(state.loading) && state.error == old(state.error)
    ensures storage.items == old(storage.items) - {AUTH_TOKEN, USER_ID, USER_NAME}
  {
    state.Logout(storage);
    state.Logout(storage);
  }

  /**
   * A wrong password is refused and leaves the session empty; the right one
   * authenticates and stores the session; logging out empties it again.
   */
  method LoginScenario() {
    var alice := User("7", "Alice", "a@x", "pw", None, "t0");
    var server := Server([alice], [], None);
    var state := new UserState();
    var storage := new LocalStorage(map[]);
    assert UsersWithEmail([alice], "a@x") == [alice];
    state.DispatchLoginUser(server, storage, "a@x", "nope", "100");
    assert state.error == Some(INVALID_PASSWORD) && !state.isAuthenticated && storage.items == map[];
    state.DispatchLoginUser(server, storage, "a@x", "pw", "100");
    assert state.isAuthenticated && state.user == Some(alice) && state.error == None;
    assert SessionToken("7", "100") == "token_7_100";
    assert storage.items == map[AUTH_TOKEN := "token_7_100", USER_ID := "7", USER_NAME := "Alice"];
    state.Logout(storage);
    assert storage.items == map[] && !state.isAuthenticated;
  }
}
