/** The authentication capability (internal/auth/auth.go): an identity
    resolved by a provider, the provider's three errors, and a provider as a
    record of three operations whose implementations lie outside this model
    (password checks, directory look-ups). */
module Auth {
  import opened Wrappers

  datatype AuthedUser = AuthedUser(userType: string, uuid: string, name: string,
                                   account: string, groups: seq<string>, status: int)

  /** `ErrNoSuchUser`, `ErrInvalidPassword`, `ErrAccountDisabled`, or any other
      error a provider may return. */
  datatype AuthError =
    | NoSuchUser
    | InvalidPassword
    | AccountDisabled
    | ProviderFailure(message: string)

  /** The outcome of `Users()`: the listed users and the error returned beside them. */
  datatype UserListing = UserListing(users: seq<AuthedUser>, err: Option<AuthError>)

  /** The `Auth` interface: `Login(username, password)`, `GetUser(username)`
      and `Users()`. */
  datatype Provider = Provider(
    login: (string, string) -> Result<AuthedUser, AuthError>,
    getUser: string -> Result<AuthedUser, AuthError>,
    users: () -> UserListing)
}
