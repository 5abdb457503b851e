/** The records exchanged with the remote user API, as declared in
    src/types/auth.ts, and the user record the session store keeps. */
module AuthTypes {

  datatype Option<+T> = None | Some(value: T)

  /** A user as the login endpoint returns it. */
  datatype User = User(
    id: string,
    fullName: string,
    email: string,
    role: string,
    isActive: bool,
    lastLoginAt: string,
    lastLoginIP: string,
    createdAt: string,
    updatedAt: string)

  /** The `data` part of a successful login reply. */
  datatype LoginData = LoginData(user: User, accessToken: string)

  /** The envelope `{ success, message, data? }` of `POST /users/login`. */
  datatype AuthResponse = AuthResponse(success: bool, message: string, data: Option<LoginData>)

  /** The `data` part of a registration reply. */
  datatype RegisteredUser = RegisteredUser(id: string, fullName: string, email: string)

  /** The envelope `{ success, message, data? }` of `POST /users/register`. */
  datatype RegisterResponse = RegisterResponse(success: bool, message: string, data: Option<RegisteredUser>)

  /** The object `{ ...user, token }` that the session store holds: every field
      of a `User` and the bearer token beside them. */
  datatype StoredUser = StoredUser(
    id: string,
    fullName: string,
    email: string,
    role: string,
    isActive: bool,
    lastLoginAt: string,
    lastLoginIP: string,
    createdAt: string,
    updatedAt: string,
    token: string)

  /** The spread `{ ...user, token }`. */
  function WithToken(u: User, token: string): (s: StoredUser)
    ensures s.token == token
    ensures Profile(s) == u
  {
    StoredUser(u.id, u.fullName, u.email, u.role, u.isActive,
               u.lastLoginAt, u.lastLoginIP, u.createdAt, u.updatedAt, token)
  }

  /** The `User` fields of a stored user, without the token. */
  function Profile(s: StoredUser): (u: User)
  {
    User(s.id, s.fullName, s.email, s.role, s.isActive,
         s.lastLoginAt, s.lastLoginIP, s.createdAt, s.updatedAt)
  }

  /** A stored user is determined by its profile and its token. */
  lemma StoredUserDecomposes(s: StoredUser)
    ensures WithToken(Profile(s), s.token) == s
  {
  }

  /** A thrown JavaScript value other than `undefined`: an `Error` with its
      message, or any other value, which is either truthy or falsy (`null`,
      `false`, `0`, `''`). */
  datatype ThrownValue = ErrorInstance(message: string) | OtherValue(truthy: bool)

  /** Whatever a `throw` produced; `None` is `undefined`. */
  type Thrown = Option<ThrownValue>

  /** What `api.post` hands back to its caller: either the parsed reply, or an exception. */
  datatype Reply<+R> = Replied(response: R) | Threw(thrown: Thrown)
}

/** The application routes that the core's navigation calls name. */
module Routes {
  const DashboardPath: string := "/dashboard"
  const AuthPath: string := "/auth"
  const TransactionsPath: string := "/transactions"
  const InvoicesPath: string := "/invoices"
  const WalletsPath: string := "/wallets"
  const SettingsPath: string := "/settings"
}
