/** The proxy's configuration (config/config.go, config/auth.go): default
    filling, validation, upstream normalisation, user groups and the backend
    privilege check. */
module Config {
  import opened Wrappers
  import Strings

  datatype Session = Session(hashKey: string, blockKey: string, cookieName: string,
                             cookieDomain: string, maxAge: int)

  datatype Ldap = Ldap(url: string, baseDN: string, username: string, password: string,
                       displayName: string, uid: string, userFilter: string)

  datatype Redis = Redis(addr: string, password: string, db: int)

  datatype LdapUser = LdapUser(account: string, group: string, groups: seq<string>)
  {
    /** The user's groups: `groups` plus `group` when it is set, without duplicates. */
    method GetUserGroups() returns (r: seq<string>)
      ensures NoDuplicates(r)
      ensures forall g :: g in r <==> g in groups || (g == group && group != "")
      ensures r == Distinct(groups + (if group != "" then [group] else []))
    {
      r := MergeGroups(group, groups);
    }
  }

  datatype LocalUser = LocalUser(name: string, account: string, password: string,
                                 group: string, groups: seq<string>, algo: string)
  {
    /** The user's groups: `groups` plus `group` when it is set, without duplicates. */
    method GetUserGroups() returns (r: seq<string>)
      ensures NoDuplicates(r)
      ensures forall g :: g in r <==> g in groups || (g == group && group != "")
      ensures r == Distinct(groups + (if group != "" then [group] else []))
    {
      r := MergeGroups(group, groups);
    }
  }

  datatype Users = Users(ignoreAccountSuffix: string, local: seq<LocalUser>, ldap: seq<LdapUser>)

  datatype Backend = Backend(host: string, upstream: string, privilege: string,
                             groups: seq<string>, users: seq<string>)

  datatype Config = Config(verbose: bool, listen: string, authType: string,
                           clientRealIPHeader: string, logPath: string,
                           users: Users, backends: seq<Backend>,
                           session: Session, ldap: Ldap, redis: Redis)

  /** The session record carried in the signed cookie (config/auth.go);
      `createdAt` is a clock reading, 0 for Go's zero time. */
  datatype UserAuthInfo = UserAuthInfo(userType: string, account: string, uuid: string,
                                       name: string, groups: seq<string>,
                                       loginHost: string, createdAt: int)

  const PrivilegeInternal: string := "internal"
  const PrivilegePrivate: string := "private"
  const DefaultMaxAge: int := 24 * 60 * 60
  const DefaultRedisAddr: string := "127.0.0.1:6379"
  const AuthTypes: seq<string> := ["misc", "ldap", "local"]

  datatype ConfigError =
    | MissingHashKey
    | MissingBlockKey
    | NegativeMaxAge
    | InvalidAuthType
    | MissingHostOrUpstream(host: string, upstream: string)
    | InvalidPrivilege(host: string, upstream: string)

  /** The Redis address after defaulting: "127.0.0.1:6379" when empty, and
      ":6379" appended when no port separator is present. */
  function RedisAddr(addr: string): (r: string)
    ensures ':' in r
    ensures ':' in addr ==> r == addr
    ensures addr != "" && ':' !in addr ==> r == addr + ":6379"
    ensures addr == "" ==> r == DefaultRedisAddr
  {
    var a := if addr == "" then DefaultRedisAddr else addr;
    if ':' in a then a else
      assert (a + ":6379")[|a|] == ':';
      a + ":6379"
  }

  /** `populateDefault`: fills every empty (or zero) defaulted field and
      leaves already-set fields and all other fields as they were. */
  function PopulateDefault(conf: Config): (r: Config)
    ensures r.authType == if conf.authType == "" then "misc" else conf.authType
    ensures r.session.cookieName ==
            if conf.session.cookieName == "" then "secure-proxy-auth" else conf.session.cookieName
    ensures r.session.maxAge == if conf.session.maxAge == 0 then DefaultMaxAge else conf.session.maxAge
    ensures r.listen == if conf.listen == "" then ":8080" else conf.listen
    ensures r.ldap.displayName ==
            if conf.ldap.displayName == "" then "displayName" else conf.ldap.displayName
    ensures r.ldap.uid == if conf.ldap.uid == "" then "sAMAccountName" else conf.ldap.uid
    ensures r.redis.addr == RedisAddr(conf.redis.addr)
    ensures r.verbose == conf.verbose && r.clientRealIPHeader == conf.clientRealIPHeader
    ensures r.logPath == conf.logPath && r.users == conf.users && r.backends == conf.backends
    ensures r.session.hashKey == conf.session.hashKey && r.session.blockKey == conf.session.blockKey
    ensures r.session.cookieDomain == conf.session.cookieDomain
    ensures r.ldap == conf.ldap.(displayName := r.ldap.displayName, uid := r.ldap.uid)
    ensures r.redis == conf.redis.(addr := r.redis.addr)
  {
    conf.(
      authType := if conf.authType == "" then "misc" else conf.authType,
      session := conf.session.(
        cookieName := if conf.session.cookieName == "" then "secure-proxy-auth" else conf.session.cookieName,
        maxAge := if conf.session.maxAge == 0 then DefaultMaxAge else conf.session.maxAge),
      listen := if conf.listen == "" then ":8080" else conf.listen,
      ldap := conf.ldap.(
        displayName := if conf.ldap.displayName == "" then "displayName" else conf.ldap.displayName,
        uid := if conf.ldap.uid == "" then "sAMAccountName" else conf.ldap.uid),
      redis := conf.redis.(addr := RedisAddr(conf.redis.addr)))
  }

  /** Defaulting a second time changes nothing. */
  lemma PopulateDefaultIdempotent(conf: Config)
    ensures PopulateDefault(PopulateDefault(conf)) == PopulateDefault(conf)
  {
  }

  /** `Backend.getPrivilege`: an unset privilege means internal. */
  function GetPrivilege(b: Backend): (r: string)
    ensures r != ""
    ensures b.privilege != "" ==> r == b.privilege
  {
    if b.privilege == "" then PrivilegeInternal else b.privilege
  }

  /** `Backend.validate`: host and upstream are required, and the privilege
      (internal when unset) must be internal or private. */
  function ValidateBackend(b: Backend): (r: Outcome<ConfigError>)
    ensures r == Pass <==>
            b.host != "" && b.upstream != "" && GetPrivilege(b) in {PrivilegeInternal, PrivilegePrivate}
    ensures (b.host == "" || b.upstream == "") ==> r == Fail(MissingHostOrUpstream(b.host, b.upstream))
    ensures r.Fail? && b.host != "" && b.upstream != "" ==> r == Fail(InvalidPrivilege(b.host, b.upstream))
  {
    if b.host == "" || b.upstream == "" then Fail(MissingHostOrUpstream(b.host, b.upstream))
    else if GetPrivilege(b) !in [PrivilegeInternal, PrivilegePrivate] then Fail(InvalidPrivilege(b.host, b.upstream))
    else Pass
  }

  /** The error of the first backend that fails validation, in order. */
  function FirstBackendError(bs: seq<Backend>): (r: Outcome<ConfigError>)
    ensures r == Pass <==> forall i :: 0 <= i < |bs| ==> ValidateBackend(bs[i]) == Pass
    ensures r.Fail? ==> exists i :: 0 <= i < |bs| && r == ValidateBackend(bs[i])
                                  && forall j :: 0 <= j < i ==> ValidateBackend(bs[j]) == Pass
    decreases |bs|
  {
    if |bs| == 0 then Pass
    else
      match ValidateBackend(bs[0])
      case Fail(e) => Fail(e)
      case Pass =>
        var rest := FirstBackendError(bs[1..]);
        assert forall i :: 0 <= i < |bs[1..]| ==> bs[1..][i] == bs[i + 1];
        if rest.Fail? then
          var i :| 0 <= i < |bs[1..]| && rest == ValidateBackend(bs[1..][i])
                   && forall j :: 0 <= j < i ==> ValidateBackend(bs[1..][j]) == Pass;
          assert rest == ValidateBackend(bs[i + 1]);
          rest
        else
          rest
  }

  /** `Config.validate`: the session keys are required, the max age may not be
      negative, the auth type is one of misc, ldap and local; then the first
      failing backend's error, if any. */
  function Validate(conf: Config): (r: Outcome<ConfigError>)
    ensures r == Pass <==>
            && conf.session.hashKey != ""
            && conf.session.blockKey != ""
            && conf.session.maxAge >= 0
            && conf.authType in AuthTypes
            && forall i :: 0 <= i < |conf.backends| ==> ValidateBackend(conf.backends[i]) == Pass
    ensures conf.session.hashKey == "" ==> r == Fail(MissingHashKey)
    ensures conf.session.hashKey != "" && conf.session.blockKey == "" ==> r == Fail(MissingBlockKey)
  {
    if conf.session.hashKey == "" then Fail(MissingHashKey)
    else if conf.session.blockKey == "" then Fail(MissingBlockKey)
    else if conf.session.maxAge < 0 then Fail(NegativeMaxAge)
    else if conf.authType !in AuthTypes then Fail(InvalidAuthType)
    else FirstBackendError(conf.backends)
  }

  /** What `LoadConfFromFile` does once the file is parsed: defaults, then validation. */
  function Load(parsed: Config): (r: Result<Config, ConfigError>)
    ensures r.Ok? ==> r.value == PopulateDefault(parsed)
    ensures r.Err? ==> Validate(PopulateDefault(parsed)) == Fail(r.error)
  {
    var conf := PopulateDefault(parsed);
    match Validate(conf)
    case Pass => Ok(conf)
    case Fail(e) => Err(e)
  }

  /** A loaded configuration has a known auth type, a positive session max age
      and a Redis address with a port separator. */
  lemma LoadedConfigWellFormed(parsed: Config)
    requires Load(parsed).Ok?
    ensures Load(parsed).value.authType in AuthTypes
    ensures Load(parsed).value.session.maxAge > 0
    ensures ':' in Load(parsed).value.redis.addr
  {
  }

  /** `Backend.GetUpstream`: an upstream without an http:// or https:// scheme
      gets http://. */
  function GetUpstream(b: Backend): (r: string)
    ensures Strings.HasPrefix(r, "http://") || Strings.HasPrefix(r, "https://")
    ensures Strings.HasPrefix(b.upstream, "http://") || Strings.HasPrefix(b.upstream, "https://") ==> r == b.upstream
    ensures !(Strings.HasPrefix(b.upstream, "http://") || Strings.HasPrefix(b.upstream, "https://")) ==>
            r == "http://" + b.upstream
  {
    if Strings.HasPrefix(b.upstream, "http://") || Strings.HasPrefix(b.upstream, "https://") then b.upstream
    else
      assert ("http://" + b.upstream)[..7] == "http://";
      "http://" + b.upstream
  }

  /** Normalising an already normalised upstream changes nothing. */
  lemma GetUpstreamIdempotent(b: Backend)
    ensures GetUpstream(b.(upstream := GetUpstream(b))) == GetUpstream(b)
  {
  }

  /** The access rule of `HasPrivilege`: an internal (or unset) privilege admits
      every user; otherwise the account must be listed, or one of the user's
      non-empty groups must be. */
  function Permits(b: Backend, account: string, groups: seq<string>): (ok: bool)
    ensures b.privilege == "" || b.privilege == PrivilegeInternal ==> ok
    ensures account in b.users ==> ok
    ensures forall i :: 0 <= i < |groups| && groups[i] != "" && groups[i] in b.groups ==> ok
    ensures ok && b.privilege != "" && b.privilege != PrivilegeInternal ==>
              account in b.users || exists i :: 0 <= i < |groups| && groups[i] != "" && groups[i] in b.groups
  {
    || GetPrivilege(b) == PrivilegeInternal
    || account in b.users
    || exists g :: g in groups && g != "" && g in b.groups
  }

  /** `Backend.HasPrivilege`. */
  method HasPrivilege(b: Backend, user: UserAuthInfo) returns (ok: bool)
    ensures ok == Permits(b, user.account, user.groups)
  {
    if GetPrivilege(b) == PrivilegeInternal {
      return true;
    }
    if user.account in b.users {
      return true;
    }
    for i := 0 to |user.groups|
      invariant forall j :: 0 <= j < i ==> user.groups[j] == "" || user.groups[j] !in b.groups
    {
      var grp := user.groups[i];
      if grp == "" {
        continue;
      }
      if grp in b.groups {
        return true;
      }
    }
    return false;
  }

  /** Adding accounts or groups to a backend's allow-lists never revokes access. */
  lemma PermitsMonotone(b: Backend, b': Backend, account: string, groups: seq<string>)
    requires b'.host == b.host && b'.privilege == b.privilege
    requires forall u :: u in b.users ==> u in b'.users
    requires forall g :: g in b.groups ==> g in b'.groups
    requires Permits(b, account, groups)
    ensures Permits(b', account, groups)
  {
  }

  /** An empty group name never grants access to a private backend. */
  lemma EmptyGroupGrantsNothing(b: Backend, account: string, groups: seq<string>)
    ensures Permits(b, account, groups + [""]) == Permits(b, account, groups)
  {
    if Permits(b, account, groups + [""]) && GetPrivilege(b) != PrivilegeInternal && account !in b.users {
      var g :| g in groups + [""] && g != "" && g in b.groups;
      assert g in groups;
    }
  }

  predicate NoDuplicates(s: seq<string>) {
    forall i, j :: 0 <= i < j < |s| ==> s[i] != s[j]
  }

  /** `str.Distinct`: the first occurrence of every element, in order. */
  function Distinct(s: seq<string>): (r: seq<string>)
    ensures NoDuplicates(r)
    ensures forall x :: x in r <==> x in s
    decreases |s|
  {
    if |s| == 0 then []
    else
      var d := Distinct(s[..|s| - 1]);
      assert forall x :: x in s <==> x in s[..|s| - 1] || x == s[|s| - 1];
      if s[|s| - 1] in d then d else d + [s[|s| - 1]]
  }

  /** The shared body of the two `GetUserGroups`: append `group` when set, then
      drop repeated names as `str.Distinct` does, with a set of names seen. */
  method MergeGroups(group: string, groups: seq<string>) returns (r: seq<string>)
    ensures r == Distinct(groups + (if group != "" then [group] else []))
  {
    var all := groups + (if group != "" then [group] else []);
    var seen: set<string> := {};
    r := [];
    for i := 0 to |all|
      invariant r == Distinct(all[..i])
      invariant forall x :: x in seen <==> x in all[..i]
    {
      assert all[..i + 1][..i] == all[..i];
      if all[i] !in seen {
        seen := seen + {all[i]};
        r := r + [all[i]];
      }
    }
    assert all[..|all|] == all;
  }
}
