/** The signed-in session store: the reducers of the `user` slice, the token
    expiry check done when a sign-in succeeds, and the check done when the
    persisted state is rehydrated. */
module UserSlice {
  import opened JsValues

  datatype User = User(id: string, username: string, email: string)

  /** `currentUser`: the user and the token; the token may be missing or empty. */
  datatype Session = Session(user: User, token: Option<string>)

  datatype UserState = UserState(currentUser: Option<Session>, error: Option<string>, loading: bool)

  const InitialState := UserState(None, None, false)

  /** `jwtDecode` as seen by the store: `None` when decoding throws, otherwise
      the `exp` claim (in seconds), which may be missing. */
  type Decoder = string -> Option<Option<int>>

  /** The result of `getTokenExpirationTime`: null, NaN (from a missing `exp`),
      or a time in milliseconds. */
  datatype ExpTime = NoTime | NotANumber | At(ms: int)

  /** `getTokenExpirationTime`: `exp * 1000`, or null when decoding throws
      (a missing token is not a string and cannot be decoded). */
  function GetTokenExpirationTime(decode: Decoder, token: Option<string>): (t: ExpTime)
    ensures token.None? ==> t == NoTime
    ensures token.Some? && decode(token.value).None? ==> t == NoTime
    ensures token.Some? && decode(token.value) == Some(None) ==> t == NotANumber
    ensures token.Some? && decode(token.value).Some? && decode(token.value).value.Some? ==>
      t == At(decode(token.value).value.value * 1000)
  {
    if token.None? then NoTime
    else match decode(token.value)
      case None => NoTime
      case Some(None) => NotANumber
      case Some(Some(exp)) => At(exp * 1000)
  }

  /** `if (expTime)`: null, NaN and 0 are falsy. */
  predicate ExpTruthy(t: ExpTime) {
    t.At? && t.ms != 0
  }

  /** `handleTokenExpiration` with no time left: the callback clears the user at once.
      A positive remaining time only arms a timer. */
  predicate ExpiredAtSignIn(t: ExpTime, now: int) {
    ExpTruthy(t) && t.ms - now <= 0
  }

  /** The actions of the slice. `now` in `SignInSuccess` is the clock reading
      inside the reducer. The delete and sign-out failure reducers read no
      payload, so none is carried. */
  datatype Action =
    | SignInStart | SignInSuccess(session: Session, now: int) | SignInFailure(message: Option<string>)
    | UpdateUserStart | UpdateUserSuccess(updated: Session) | UpdateUserFailure(failure: Option<string>)
    | DeleteUserStart | DeleteUserSuccess | DeleteUserFailure
    | SignOutUserStart | SignOutUserSuccess | SignOutUserFailure
    | ResetState

  predicate IsStart(a: Action) {
    a.SignInStart? || a.UpdateUserStart? || a.DeleteUserStart? || a.SignOutUserStart?
  }

  /** The state after each reducer. */
  function Reduce(s: UserState, a: Action, decode: Decoder): UserState {
    match a
    case SignInStart => s.(loading := true)
    case SignInSuccess(session, now) =>
      var expired := ExpiredAtSignIn(GetTokenExpirationTime(decode, session.token), now);
      UserState(if expired then None else Some(session), None, false)
    case SignInFailure(message) => s.(error := message, loading := false)
    case UpdateUserStart => s.(loading := true)
    case UpdateUserSuccess(updated) => UserState(Some(updated), None, false)
    case UpdateUserFailure(failure) => s.(error := failure, loading := false)
    case DeleteUserStart => s.(loading := true)
    case DeleteUserSuccess => UserState(None, None, false)
    case DeleteUserFailure => s.(currentUser := None, loading := false)
    case SignOutUserStart => s.(loading := true)
    case SignOutUserSuccess => UserState(None, None, false)
    case SignOutUserFailure => s.(currentUser := None, loading := false)
    case ResetState => InitialState
  }

  /** Whether the reducer removes the token cookie (only the immediate expiry does). */
  function RemovesCookie(a: Action, decode: Decoder): bool {
    a.SignInSuccess? && ExpiredAtSignIn(GetTokenExpirationTime(decode, a.session.token), a.now)
  }

  /** Every `*Start` reducer sets loading and touches nothing else; every other
      reducer ends with loading off. */
  lemma LoadingDiscipline(s: UserState, a: Action, decode: Decoder)
    ensures IsStart(a) ==> Reduce(s, a, decode) == s.(loading := true)
    ensures !IsStart(a) ==> !Reduce(s, a, decode).loading
  {
  }

  /** A sign-in or update success stores the payload and clears the error; the
      sign-in is dropped again at once when its token has already expired. */
  lemma SuccessStoresPayload(s: UserState, session: Session, now: int, decode: Decoder)
    ensures var t := Reduce(s, SignInSuccess(session, now), decode);
      && t.error == None && !t.loading
      && (t.currentUser == Some(session) <==> !ExpiredAtSignIn(GetTokenExpirationTime(decode, session.token), now))
      && (t.currentUser != Some(session) ==> t.currentUser == None)
    ensures Reduce(s, UpdateUserSuccess(session), decode) == UserState(Some(session), None, false)
  {
  }

  /** A token that decodes to a future expiry keeps the signed-in user; so does
      one that cannot be decoded, one without `exp` and one with `exp` 0. */
  lemma SignInKeepsUnexpired(s: UserState, session: Session, now: int, decode: Decoder)
    requires var t := GetTokenExpirationTime(decode, session.token);
      !t.At? || t.ms == 0 || t.ms > now
    ensures Reduce(s, SignInSuccess(session, now), decode).currentUser == Some(session)
  {
  }

  /** Sign-in and update failures record the payload and keep the user. */
  lemma FailuresKeepUser(s: UserState, message: Option<string>, decode: Decoder)
    ensures Reduce(s, SignInFailure(message), decode) == UserState(s.currentUser, message, false)
    ensures Reduce(s, UpdateUserFailure(message), decode) == UserState(s.currentUser, message, false)
  {
  }

  /** Delete and sign-out clear the user whether they succeed or fail; only
      success clears the error. */
  lemma SignOutClearsUser(s: UserState, decode: Decoder)
    ensures Reduce(s, DeleteUserSuccess, decode) == InitialState
    ensures Reduce(s, SignOutUserSuccess, decode) == InitialState
    ensures Reduce(s, DeleteUserFailure, decode) == UserState(None, s.error, false)
    ensures Reduce(s, SignOutUserFailure, decode) == UserState(None, s.error, false)
  {
  }

  /** `resetState` gives the initial state from any state. */
  lemma ResetFromAny(s: UserState, decode: Decoder)
    ensures Reduce(s, ResetState, decode) == InitialState
  {
  }

  /** The state after `onRehydrateComplete` at time `now`. */
  function Rehydrated(s: UserState, decode: Decoder, now: int): UserState {
    if s.currentUser.Some? && Truthy(s.currentUser.value.token) then
      var expTime := GetTokenExpirationTime(decode, s.currentUser.value.token);
      if ExpTruthy(expTime) && expTime.ms < now then s.(currentUser := None) else s
    else s
  }

  /** Rehydration changes nothing but the user, and drops the user exactly when
      it has a (non-empty) token whose expiry decodes to a non-zero time
      strictly before now. */
  lemma RehydrateClearsIffExpired(s: UserState, decode: Decoder, now: int)
    ensures var r := Rehydrated(s, decode, now);
      && r.error == s.error && r.loading == s.loading
      && (r.currentUser == s.currentUser || r.currentUser == None)
      && (s.currentUser.Some? && r.currentUser == None <==>
            && s.currentUser.Some? && Truthy(s.currentUser.value.token)
            && var t := GetTokenExpirationTime(decode, s.currentUser.value.token);
               t.At? && t.ms != 0 && t.ms < now)
  {
  }

  /** A token whose `exp` is 0 or missing is never dropped on rehydration,
      however late it is. */
  lemma RehydrateKeepsFalsyExpiry(s: UserState, decode: Decoder, now: int)
    requires s.currentUser.Some? && s.currentUser.value.token.Some?
    requires decode(s.currentUser.value.token.value) in {Some(Some(0)), Some(None)}
    ensures Rehydrated(s, decode, now) == s
  {
  }

  /** The store. `decode` stands for `jwtDecode`. */
  class UserStore {
    const decode: Decoder
    var currentUser: Option<Session>
    var error: Option<string>
    var loading: bool

    constructor (decode: Decoder)
      ensures this.decode == decode && State() == InitialState
    {
      this.decode := decode;
      currentUser, error, loading := None, None, false;
    }

    function State(): UserState
      reads this
    {
      UserState(currentUser, error, loading)
    }

    /** `dispatch(action)`: the reducer assigns the state field by field.
        `cookieRemoved` tells whether it also removed the token cookie. */
    method Dispatch(a: Action) returns (cookieRemoved: bool)
      modifies this
      ensures State() == Reduce(old(State()), a, decode)
      ensures cookieRemoved == RemovesCookie(a, decode)
    {
      cookieRemoved := false;
      match a {
        case SignInStart =>
          loading := true;
        case SignInSuccess(session, now) =>
          currentUser := Some(session);
          loading := false;
          error := None;
          var expTime := GetTokenExpirationTime(decode, session.token);
          if ExpTruthy(expTime) {
            var remainingTime := expTime.ms - now;
            if remainingTime <= 0 {
              currentUser := None;
              cookieRemoved := true;
            }
          }
        case SignInFailure(message) =>
          error := message;
          loading := false;
        case UpdateUserStart =>
          loading := true;
        case UpdateUserSuccess(updated) =>
          currentUser := Some(updated);
          loading := false;
          error := None;
        case UpdateUserFailure(failure) =>
          error := failure;
          loading := false;
        case DeleteUserStart =>
          loading := true;
        case DeleteUserSuccess =>
          currentUser := None;
          loading := false;
          error := None;
        case DeleteUserFailure =>
          currentUser := None;
          loading := false;
        case SignOutUserStart =>
          loading := true;
        case SignOutUserSuccess =>
          currentUser := None;
          loading := false;
          error := None;
        case SignOutUserFailure =>
          currentUser := None;
          loading := false;
        case ResetState =>
          currentUser, error, loading := None, None, false;
      }
    }

    /** `onRehydrateComplete` at time `now`; `cookieRemoved` when the user is dropped. */
    method OnRehydrateComplete(now: int) returns (cookieRemoved: bool)
      modifies this`currentUser
      ensures State() == Rehydrated(old(State()), decode, now)
      ensures cookieRemoved <==> old(currentUser).Some? && currentUser.None?
    {
      cookieRemoved := false;
      if currentUser.Some? && Truthy(currentUser.value.token) {
        var token := currentUser.value.token;
        var expTime := GetTokenExpirationTime(decode, token);
        if ExpTruthy(expTime) && expTime.ms < now {
          currentUser := None;
          cookieRemoved := true;
        }
      }
    }
  }
}
