/**
 * The `auth` slice: the session (user, token, role), the admin's user list,
 * and the loading/error flags, with one method per reducer case. Async
 * thunks are reduced to what they deliver to the reducers; the one thunk
 * whose client-side logic matters, `updateUserProfile`, is modelled whole.
 */
module AuthSlice {
  import opened Wrappers
  import opened Entities
  import JsArrays

  const AUTH_REQUIRED := "Authentication required"
  const UPDATE_FAILED := "Update failed"

  /** The thunks whose lifecycle actions this slice handles. */
  datatype AuthThunk = LoginUser | RegisterUser | UpdateUserProfile | GetAllUsers | DeleteUser

  /** The body of a successful login. */
  datatype LoginPayload = LoginPayload(token: string, user: User)

  /** The body of a successful registration (the reducer reads its `user`). */
  datatype RegisterPayload = RegisterPayload(user: User)

  /** The fields the profile screen sends. */
  datatype ProfileUpdate = ProfileUpdate(name: string, email: string, phone: string)

  /** The body of a successful profile update; the thunk returns its `user`. */
  datatype ProfileBody = ProfileBody(user: User)

  /** What running a thunk did: the request it issued, if any, and how it settled. */
  datatype ThunkRun<B, T> = ThunkRun(request: Option<Request<B>>, result: ThunkResult<T>)

  /** The `updateUserProfile` thunk, given the token in the store and what the
      server would reply. Without a token it rejects with "Authentication
      required" before any request; otherwise it sends the profile with the
      token and settles on the reply, falling back to "Update failed" when a
      failed response carries no message. */
  function UpdateUserProfileThunk(token: Option<string>, userData: ProfileUpdate, reply: HttpReply<ProfileBody>)
    : (run: ThunkRun<ProfileUpdate, User>)
    ensures run.request.None? <==> !Truthy(token)
    ensures !Truthy(token) ==> run.result == Rejected(AUTH_REQUIRED)
    ensures run.request.Some? ==>
      run.request.value == Request("PUT", BASE_URL + "/users/profile", token.value, Some(userData))
    ensures run.result.Fulfilled? <==> Truthy(token) && reply.Success?
    ensures run.result.Fulfilled? ==> run.result.value == reply.body.user
    ensures Truthy(token) && reply.ErrorStatus? ==>
      run.result.payload == if reply.message != "" then reply.message else UPDATE_FAILED
    ensures Truthy(token) && reply.NetworkFailure? ==> run.result == Rejected(reply.message)
  {
    if !Truthy(token) then
      ThunkRun(None, Rejected(AUTH_REQUIRED))
    else
      var request := Request("PUT", BASE_URL + "/users/profile", token.value, Some(userData));
      match reply
      case NetworkFailure(m) => ThunkRun(Some(request), Rejected(m))
      case ErrorStatus(_, m) => ThunkRun(Some(request), Rejected(if m != "" then m else UPDATE_FAILED))
      case Success(body) => ThunkRun(Some(request), Fulfilled(body.user))
  }

  class AuthState {
    var user: Option<User>
    var users: seq<User>
    var token: Option<string>
    var role: Option<string>
    var loading: bool
    var error: Option<string>

    /** The slice's `initialState`. */
    constructor ()
      ensures user == None && users == [] && token == None && role == None
      ensures !loading && error == None
    {
      user, users, token, role := None, [], None, None;
      loading, error := false, None;
    }

    /** `setCredentials`: user and token from the payload, role from the user
        (missing when the user is). */
    method SetCredentials(newUser: Option<User>, newToken: Option<string>)
      modifies this`user, this`token, this`role
      ensures user == newUser && token == newToken
      ensures role == if newUser.Some? then newUser.value.role else None
    {
      user := newUser;
      token := newToken;
      role := if newUser.Some? then newUser.value.role else None;
    }

    /** `logout`: ends the session and resets the flags; the user list stays. */
    method Logout()
      modifies this`user, this`token, this`role, this`loading, this`error
      ensures user == None && token == None && role == None
      ensures !loading && error == None
    {
      user, token, role := None, None, None;
      loading, error := false, None;
    }

    /** `clearError`: only the error is touched. */
    method ClearError()
      modifies this`error
      ensures error == None
    {
      error := None;
    }

    /** The `pending` case of a thunk: every thunk with a pending case starts
        loading and clears the error; `deleteUser` has none, so its pending
        action changes nothing. */
    method Pending(thunk: AuthThunk)
      modifies this`loading, this`error
      ensures thunk != DeleteUser ==> loading && error == None
      ensures thunk == DeleteUser ==> loading == old(loading) && error == old(error)
    {
      if thunk != DeleteUser {
        loading := true;
        error := None;
      }
    }

    /** The `rejected` case of a thunk: loading stops and the error is the
        rejection payload; `deleteUser` has no rejected case. The session
        (token, user, role) is never touched. */
    method Rejected(thunk: AuthThunk, payload: string)
      modifies this`loading, this`error
      ensures thunk != DeleteUser ==> !loading && error == Some(payload)
      ensures thunk == DeleteUser ==> loading == old(loading) && error == old(error)
    {
      if thunk != DeleteUser {
        loading := false;
        error := Some(payload);
      }
    }

    /** `loginUser.fulfilled`: the session comes from the payload. */
    method LoginFulfilled(payload: LoginPayload)
      modifies this`loading, this`user, this`token, this`role
      ensures !loading
      ensures user == Some(payload.user) && token == Some(payload.token)
      ensures role == payload.user.role
    {
      loading := false;
      user := Some(payload.user);
      token := Some(payload.token);
      role := payload.user.role;
    }

    /** `registerUser.fulfilled`: user and role are set, the token is not. */
    method RegisterFulfilled(payload: RegisterPayload)
      modifies this`loading, this`user, this`role
      ensures !loading
      ensures user == Some(payload.user) && role == payload.user.role
    {
      loading := false;
      user := Some(payload.user);
      role := payload.user.role;
    }

    /** `updateUserProfile.fulfilled`: the user is replaced; token and role stay. */
    method UpdateProfileFulfilled(updated: User)
      modifies this`loading, this`user
      ensures !loading && user == Some(updated)
    {
      loading := false;
      user := Some(updated);
    }

    /** `getAllUsers.fulfilled`: the user list is replaced wholesale. */
    method GetAllUsersFulfilled(all: seq<User>)
      modifies this`loading, this`users
      ensures !loading && users == all
    {
      loading := false;
      users := all;
    }

    /** `deleteUser.fulfilled`: exactly the users with the deleted id leave
        the list; the others stay, in their order and with their multiplicity.
        Nothing else changes, not even `loading`. */
    method DeleteUserFulfilled(deletedId: string)
      modifies this`users
      ensures users == JsArrays.Filter((u: User) => u.id != deletedId, old(users))
      ensures forall u :: u in users <==> u in old(users) && u.id != deletedId
      ensures JsArrays.IsSubsequence(users, old(users))
    {
      var keep := (u: User) => u.id != deletedId;
      JsArrays.FilterIsSubsequence(keep, users);
      JsArrays.FilterSpec(keep, users);
      users := JsArrays.Filter(keep, users);
    }
  }
}
