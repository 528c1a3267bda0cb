/** The session revalidation closure of internal/handler/provider.go: an
    authenticated session is re-checked against the auth provider, through
    the store's six-hour memo. The session's ID and user name are not fields
    of `UserAuthInfo` as written (config/auth.go), so they are parameters. */
module HandlerProvider {
  import opened Wrappers
  import opened Auth
  import opened MemoryCache
  import opened Store
  import Config

  /** The auth type for which the account is qualified with the user type. */
  const CompositeAuthType: string := "ldap+local"

  /** The account the closure asks the provider about. */
  function RevalidationAccount(authType: string, userType: string, username: string): (account: string)
    ensures authType == CompositeAuthType ==> account == userType + ":" + username
    ensures authType != CompositeAuthType ==> account == username
  {
    if authType == CompositeAuthType then userType + ":" + username else username
  }

  /** The callback handed to `UserSessionValidate`: a disabled account is a
      plain no, any other provider error is passed on, a found user is a yes. */
  function Revalidate(author: Provider, authType: string, userType: string, username: string): (r: Result<bool, AuthError>)
    ensures var found := author.getUser(RevalidationAccount(authType, userType, username));
            && (r == Ok(true) <==> found.Ok?)
            && (r == Ok(false) <==> found == Err(AccountDisabled))
            && (r.Err? <==> found.Err? && found.error != AccountDisabled)
            && (r.Err? ==> r.error == found.error)
  {
    match author.getUser(RevalidationAccount(authType, userType, username))
    case Err(AccountDisabled) => Ok(false)
    case Err(e) => Err(e)
    case Ok(_) => Ok(true)
  }

  /** The closure as run through the store. */
  method ValidateSession(s: DefaultStore, author: Provider, authType: string, sessionID: string,
                         userType: string, username: string, stamp: string, now: int)
    returns (valid: Result<bool, AuthError>)
    modifies s.cacheDriver
    ensures valid == SessionValid(old(s.cacheDriver.data), sessionID, Revalidate(author, authType, userType, username), now)
    ensures s.cacheDriver.data == SessionStored(old(s.cacheDriver.data), sessionID,
                                                Revalidate(author, authType, userType, username), stamp, now)
  {
    var cb := () => Revalidate(author, authType, userType, username);
    ghost var consulted;
    valid, consulted := s.UserSessionValidate(sessionID, cb, stamp, now);
  }

  /** A configuration that loads has auth type misc, ldap or local, never
      "ldap+local", so the account asked about is always the bare user name. */
  lemma LoadedConfigUsesBareName(parsed: Config.Config, userType: string, username: string)
    requires Config.Load(parsed).Ok?
    ensures RevalidationAccount(Config.Load(parsed).value.authType, userType, username) == username
  {
    Config.LoadedConfigWellFormed(parsed);
  }

  /** While a session's marker is live, the provider is not asked: a session
      whose account has since been disabled still passes, until the marker
      expires. */
  lemma MarkerOutlivesDisabling(m: MemoryCache.Store, author: Provider, authType: string, sessionID: string,
                                userType: string, username: string, now: int)
    requires Lookup(m, SessionKey(sessionID), now) != ""
    requires author.getUser(RevalidationAccount(authType, userType, username)) == Err(AccountDisabled)
    ensures SessionValid(m, sessionID, Revalidate(author, authType, userType, username), now) == Ok(true)
  {
  }

  /** Without a marker, a disabled account is refused without error and no
      marker is written, so it is asked again next time. */
  lemma DisabledAccountIsNotRemembered(m: MemoryCache.Store, author: Provider, authType: string, sessionID: string,
                                       userType: string, username: string, stamp: string, now: int)
    requires Lookup(m, SessionKey(sessionID), now) == ""
    requires author.getUser(RevalidationAccount(authType, userType, username)) == Err(AccountDisabled)
    ensures SessionValid(m, sessionID, Revalidate(author, authType, userType, username), now) == Ok(false)
    ensures SessionStored(m, sessionID, Revalidate(author, authType, userType, username), stamp, now) == m
  {
  }
}
