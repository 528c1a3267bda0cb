/** The composite provider of internal/auth/ldap_local/auth.go: accounts
    prefixed "local:" or "ldap:" go to that provider alone, with the prefix
    removed; any other account is tried on the local provider first and, if
    that fails, on the directory (LDAP) provider. */
module LdapLocal {
  import opened Wrappers
  import opened Auth
  import Strings

  const LocalPrefix: string := "local:"
  const LdapPrefix: string := "ldap:"

  /** Where an account name is sent, and under which name. */
  datatype Route =
    | LocalOnly(account: string)
    | LdapOnly(account: string)
    | LocalThenLdap(account: string)

  /** The prefix test shared by `Login` and `GetUser`; "local:" is checked first
      and exactly one occurrence of the prefix is removed. */
  function RouteOf(username: string): (r: Route)
    ensures r.LocalOnly? <==> Strings.HasPrefix(username, LocalPrefix)
    ensures r.LdapOnly? <==> !Strings.HasPrefix(username, LocalPrefix) && Strings.HasPrefix(username, LdapPrefix)
    ensures r.LocalOnly? ==> LocalPrefix + r.account == username
    ensures r.LdapOnly? ==> LdapPrefix + r.account == username
    ensures r.LocalThenLdap? ==> r.account == username
  {
    if Strings.HasPrefix(username, LocalPrefix) then LocalOnly(Strings.TrimPrefix(username, LocalPrefix))
    else if Strings.HasPrefix(username, LdapPrefix) then LdapOnly(Strings.TrimPrefix(username, LdapPrefix))
    else LocalThenLdap(username)
  }

  /** `Auth.Login` of the composite provider. */
  function Login(local: Provider, ldap: Provider, username: string, password: string): (r: Result<AuthedUser, AuthError>)
    ensures Strings.HasPrefix(username, LocalPrefix) ==>
            r == local.login(username[|LocalPrefix|..], password)
    ensures !Strings.HasPrefix(username, LocalPrefix) && Strings.HasPrefix(username, LdapPrefix) ==>
            r == ldap.login(username[|LdapPrefix|..], password)
    ensures RouteOf(username).LocalThenLdap? ==>
            r == if local.login(username, password).Ok? then local.login(username, password)
                 else ldap.login(username, password)
  {
    match RouteOf(username)
    case LocalOnly(account) => local.login(account, password)
    case LdapOnly(account) => ldap.login(account, password)
    case LocalThenLdap(account) =>
      var rs := local.login(account, password);
      if rs.Err? then ldap.login(account, password) else rs
  }

  /** `Auth.GetUser` of the composite provider: the same routing as `Login`. */
  function GetUser(local: Provider, ldap: Provider, username: string): (r: Result<AuthedUser, AuthError>)
    ensures Strings.HasPrefix(username, LocalPrefix) ==>
            r == local.getUser(username[|LocalPrefix|..])
    ensures !Strings.HasPrefix(username, LocalPrefix) && Strings.HasPrefix(username, LdapPrefix) ==>
            r == ldap.getUser(username[|LdapPrefix|..])
    ensures RouteOf(username).LocalThenLdap? ==>
            r == if local.getUser(username).Ok? then local.getUser(username) else ldap.getUser(username)
  {
    match RouteOf(username)
    case LocalOnly(account) => local.getUser(account)
    case LdapOnly(account) => ldap.getUser(account)
    case LocalThenLdap(account) =>
      var rs := local.getUser(account);
      if rs.Err? then ldap.getUser(account) else rs
  }

  /** `Auth.Users` of the composite provider: the local list, then the
      directory list; both providers' errors are dropped and none is returned. */
  function Users(local: Provider, ldap: Provider): (r: UserListing)
    ensures r.err == None
    ensures |r.users| == |local.users().users| + |ldap.users().users|
    ensures r.users[..|local.users().users|] == local.users().users
    ensures r.users[|local.users().users|..] == ldap.users().users
  {
    UserListing(local.users().users + ldap.users().users, None)
  }

  /** A "local:" login never depends on the directory provider, whatever it
      would answer, even when the local provider fails. */
  lemma LocalPrefixNeverConsultsLdap(local: Provider, ldap1: Provider, ldap2: Provider,
                                     username: string, password: string)
    requires Strings.HasPrefix(username, LocalPrefix)
    ensures Login(local, ldap1, username, password) == Login(local, ldap2, username, password)
    ensures GetUser(local, ldap1, username) == GetUser(local, ldap2, username)
  {
  }

  /** An "ldap:" login never depends on the local provider. */
  lemma LdapPrefixNeverConsultsLocal(local1: Provider, local2: Provider, ldap: Provider,
                                     username: string, password: string)
    requires Strings.HasPrefix(username, LdapPrefix)
    ensures Login(local1, ldap, username, password) == Login(local2, ldap, username, password)
    ensures GetUser(local1, ldap, username) == GetUser(local2, ldap, username)
  {
    assert username[1] == LdapPrefix[1];
  }

  /** Unprefixed: a local success is final and the directory is not consulted. */
  lemma LocalSuccessIsFinal(local: Provider, ldap1: Provider, ldap2: Provider,
                            username: string, password: string)
    requires RouteOf(username).LocalThenLdap?
    requires local.login(username, password).Ok?
    ensures Login(local, ldap1, username, password) == local.login(username, password)
    ensures Login(local, ldap1, username, password) == Login(local, ldap2, username, password)
  {
  }

  /** Unprefixed: after a local failure the directory's answer is returned as
      it is, success or error; which error the local provider gave is lost. */
  lemma LocalFailureFallsBack(local1: Provider, local2: Provider, ldap: Provider,
                              username: string, password: string)
    requires RouteOf(username).LocalThenLdap?
    requires local1.login(username, password).Err? && local2.login(username, password).Err?
    ensures Login(local1, ldap, username, password) == ldap.login(username, password)
    ensures Login(local1, ldap, username, password) == Login(local2, ldap, username, password)
  {
  }

  /** A composite success always comes from one of the two providers, asked
      with the account name its route gives. */
  lemma LoginSuccessHasAProvider(local: Provider, ldap: Provider, username: string, password: string)
    requires Login(local, ldap, username, password).Ok?
    ensures var a := RouteOf(username).account;
            Login(local, ldap, username, password) == local.login(a, password)
            || Login(local, ldap, username, password) == ldap.login(a, password)
  {
  }

  /** The listing does not depend on the errors the providers report. */
  lemma UsersIgnoreErrors(local1: Provider, local2: Provider, ldap1: Provider, ldap2: Provider)
    requires local1.users().users == local2.users().users
    requires ldap1.users().users == ldap2.users().users
    ensures Users(local1, ldap1) == Users(local2, ldap2)
  {
  }
}
