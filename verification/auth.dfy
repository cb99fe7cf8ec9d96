/** The mock session (src/contexts/AuthContext.tsx): a user that may be absent,
    a logged-in flag, and the transitions restore, login, logout and signup.
    The simulated one-second latency is dropped: each call is one step. */
module Auth {
  import opened Wrappers

  datatype User = User(id: string, email: string, name: string, phone: string, rating: real,
                       joinDate: string, isVerified: bool, profileImage: string)

  datatype AuthState = AuthState(user: Option<User>, isLoggedIn: bool)

  /** The session invariant: logged in exactly when a user is present. */
  predicate Consistent(s: AuthState) {
    s.isLoggedIn <==> s.user.Some?
  }

  function Initial(): (s: AuthState)
    ensures Consistent(s) && !s.isLoggedIn
  {
    AuthState(None, false)
  }

  const ValidEmail: string := "test@example.com"
  const ValidPassword: string := "password"

  /** The user a successful login installs. */
  function MockUser(email: string): User {
    User("1", email, "테스트 사용자", "010-1234-5678", 4.5, "2024-01-01", true, "/images/default-avatar.png")
  }

  /** Page load: a saved user, when there is one, is logged back in. */
  function Restore(s: AuthState, saved: Option<User>): (r: AuthState)
    ensures saved.Some? ==> r.user == saved && r.isLoggedIn
    ensures saved.None? ==> r == s
    ensures Consistent(s) ==> Consistent(r)
  {
    if saved.Some? then AuthState(saved, true) else s
  }

  /** `login(email, password)`: the new state and the promised boolean. */
  function Login(s: AuthState, email: string, password: string): (r: (AuthState, bool))
    ensures r.1 <==> email == ValidEmail && password == ValidPassword
    ensures r.1 ==> r.0.isLoggedIn && r.0.user.Some? && r.0.user.value.id == "1" && r.0.user.value.email == ValidEmail
    ensures !r.1 ==> r.0 == s
    ensures Consistent(s) ==> Consistent(r.0)
  {
    if email == ValidEmail && password == ValidPassword then
      (AuthState(Some(MockUser(email)), true), true)
    else
      (s, false)
  }

  function Logout(s: AuthState): (r: AuthState)
    ensures r.user.None? && !r.isLoggedIn
    ensures Consistent(r)
  {
    AuthState(None, false)
  }

  /** The form fields `signup` copies into the new user. */
  datatype SignupData = SignupData(email: string, name: string, phone: string)

  /** `signup(data)` with the `Date.now()` id and today's date passed in: always
      succeeds and logs in a fresh, unverified user with rating 0. */
  function Signup(s: AuthState, data: SignupData, newId: string, today: string): (r: (AuthState, bool))
    ensures r.1
    ensures r.0.isLoggedIn && r.0.user.Some?
    ensures r.0.user.value.id == newId && r.0.user.value.email == data.email
    ensures r.0.user.value.name == data.name && r.0.user.value.phone == data.phone
    ensures r.0.user.value.rating == 0.0 && !r.0.user.value.isVerified
    ensures Consistent(r.0)
  {
    (AuthState(Some(User(newId, data.email, data.name, data.phone, 0.0, today, false, "/images/default-avatar.png")), true), true)
  }

  datatype AuthEvent =
    | RestoreEvent(saved: Option<User>)
    | LoginEvent(email: string, password: string)
    | LogoutEvent
    | SignupEvent(data: SignupData, newId: string, today: string)

  function Apply(s: AuthState, e: AuthEvent): AuthState {
    match e
    case RestoreEvent(saved) => Restore(s, saved)
    case LoginEvent(email, password) => Login(s, email, password).0
    case LogoutEvent => Logout(s)
    case SignupEvent(data, newId, today) => Signup(s, data, newId, today).0
  }

  function ApplyAll(s: AuthState, events: seq<AuthEvent>): AuthState
    decreases |events|
  {
    if |events| == 0 then s else ApplyAll(Apply(s, events[0]), events[1..])
  }

  /** From the initial state, every sequence of restores, logins, logouts and
      signups keeps the invariant. */
  lemma {:induction false} AlwaysConsistent(s: AuthState, events: seq<AuthEvent>)
    requires Consistent(s)
    ensures Consistent(ApplyAll(s, events))
    decreases |events|
  {
    if |events| > 0 {
      AlwaysConsistent(Apply(s, events[0]), events[1..]);
    }
  }
}
