/**
 * The authorization chain of build/resources/main/handler.js: the group
 * test, the session check, and the API, VFS and package privilege checks,
 * each run after the session check. Every callback runs synchronously to a
 * single outcome, so each check is a function returning a `Verdict`.
 *
 * Identity (username, groups), the `nw` flag, the configured group maps,
 * the package metadata and the blacklist lookup are inputs (`Env`).
 *
 * Three checks read differently from what their comments and messages
 * intend; each is given as written and, prefixed `Corrected`, as intended.
 */
module Handler {
  import opened Results
  import opened JsString
  import opened VirtualPath

  /**
   * A group requirement as JavaScript holds it: absent, a boolean, one
   * group name, or a list of names.
   */
  datatype GroupSpec = Unset | BoolSpec(b: bool) | NameSpec(name: string) | ListSpec(names: seq<string>)

  /** JavaScript truthiness of a requirement (an array is always truthy). */
  predicate Truthy(g: GroupSpec)
  {
    match g
    case Unset => false
    case BoolSpec(b) => b
    case NameSpec(n) => n != ""
    case ListSpec(_) => true
  }

  /**
   * `groupnames || []`, then a truthy non-array wrapped in a list. `None`
   * stands for the boolean `true`, which no group name equals.
   */
  function Normalize(g: GroupSpec): seq<Option<string>>
  {
    if !Truthy(g) then []
    else match g
      case ListSpec(names) => seq(|names|, j requires 0 <= j < |names| => Some(names[j]))
      case NameSpec(n) => [Some(n)]
      case _ => [None]
  }

  /** A normalised requirement the user's groups satisfy. */
  predicate Held(userGroups: seq<string>, p: Option<string>)
  {
    p.Some? && p.value in userGroups
  }

  /** The group test: `admin` overrides, otherwise every required entry must be held. */
  predicate HasGroup(userGroups: seq<string>, required: GroupSpec)
  {
    "admin" in userGroups || forall p :: p in Normalize(required) ==> Held(userGroups, p)
  }

  /**
   * `_checkHasGroup`: the `forEach` over the normalised list clearing the
   * `allowed` flag, skipped when the user is in `admin`. The callback's
   * error is always `false`, so only the flag is returned.
   */
  method CheckHasGroup(userGroups: seq<string>, groupnames: GroupSpec) returns (allowed: bool)
    ensures allowed == HasGroup(userGroups, groupnames)
  {
    var names := Normalize(groupnames);
    allowed := true;
    if "admin" !in userGroups {
      var i := 0;
      while i < |names|
        invariant 0 <= i <= |names|
        invariant allowed <==> forall j :: 0 <= j < i ==> Held(userGroups, names[j])
      {
        if names[i].None? || names[i].value !in userGroups {
          allowed := false;
        }
        i := i + 1;
      }
    }
  }

  /** What the group test demands for each form of requirement. */
  lemma GroupTestCases(userGroups: seq<string>, g: GroupSpec)
    ensures "admin" in userGroups ==> HasGroup(userGroups, g)
    ensures !Truthy(g) ==> HasGroup(userGroups, g)
    ensures g.NameSpec? ==> (HasGroup(userGroups, g) <==> g.name == "" || "admin" in userGroups || g.name in userGroups)
    ensures g.BoolSpec? ==> (HasGroup(userGroups, g) <==> !g.b || "admin" in userGroups)
    ensures g.ListSpec? ==>
      (HasGroup(userGroups, g) <==> "admin" in userGroups || forall k :: 0 <= k < |g.names| ==> g.names[k] in userGroups)
  {
    if g.NameSpec? && Truthy(g) {
      assert Normalize(g) == [Some(g.name)];
      assert forall p :: p in Normalize(g) <==> p == Some(g.name);
      assert HasGroup(userGroups, g) <==> "admin" in userGroups || Held(userGroups, Some(g.name));
    } else if g == BoolSpec(true) {
      assert Normalize(g) == [None];
      assert None in Normalize(g) && !Held(userGroups, None);
    } else if g.ListSpec? && "admin" !in userGroups {
      var ns := Normalize(g);
      if forall k :: 0 <= k < |g.names| ==> g.names[k] in userGroups {
        forall p | p in ns ensures Held(userGroups, p) {
          var k :| 0 <= k < |ns| && ns[k] == p;
          assert p == Some(g.names[k]);
        }
      } else {
        var k :| 0 <= k < |g.names| && g.names[k] !in userGroups;
        assert ns[k] == Some(g.names[k]);
        assert !Held(userGroups, ns[k]);
      }
    }
  }

  const NoSessionError := "You have no OS.js Session, please log in!"

  /** `_checkHasSession`: outside `nw` mode an empty username has no session. */
  function CheckHasSession(nw: bool, username: string): (r: Result<bool, string>)
    ensures r.Err? <==> !nw && username == ""
    ensures r.Err? ==> r.error == NoSessionError
    ensures r.Ok? ==> r.value
  {
    if !nw && username == "" then Err(NoSessionError) else Ok(true)
  }

  /** The outcome of a privilege check: the callback's `(false, true)`, its error, or an exception. */
  datatype Verdict = Allowed | Denied(reason: string) | Raised(exception: string)

  datatype Identity = Identity(username: string, groups: seq<string>)

  /** `config.api.groups` and `config.vfs.groups`; `None` when the map is absent. */
  datatype Config = Config(apiGroups: Option<map<string, GroupSpec>>, vfsGroups: Option<map<string, GroupSpec>>)

  datatype PackageMeta = PackageMeta(groups: GroupSpec)

  /**
   * Everything the checks read: the `nw` flag, the current user, the group
   * maps, the package metadata and the result of `getUserBlacklistedPackages`
   * (an error or the list).
   */
  datatype Env = Env(
    nw: bool,
    user: Identity,
    config: Config,
    metadata: Option<map<string, PackageMeta>>,
    blacklist: Result<seq<string>, string>)

  /** The request arguments the VFS check reads; `None` is `undefined`. */
  datatype Args = Args(path: Option<string>, src: Option<string>)

  /** `map[key]`, `Unset` when the map or the key is missing. */
  function Lookup(m: Option<map<string, GroupSpec>>, key: string): GroupSpec
  {
    if m.Some? && key in m.value then m.value[key] else Unset
  }

  /** The session check in front of a specific check: a session error is passed on unchanged. */
  function AfterSession(env: Env, specific: Verdict): (v: Verdict)
    ensures CheckHasSession(env.nw, env.user.username).Err? ==> v == Denied(NoSessionError)
    ensures CheckHasSession(env.nw, env.user.username).Ok? ==> v == specific
  {
    match CheckHasSession(env.nw, env.user.username)
    case Err(e) => Denied(e)
    case Ok(_) => specific
  }

  const ApiError := "You are not allowed to use this API function!"

  /**
   * `_checkHasAPIPrivilege` as written: a truthy entry for `privilege` in
   * `config.api.groups` runs the group test on the privilege name itself,
   * not on the entry.
   */
  function HasAPIPrivilege(env: Env, privilege: string): (v: Verdict)
    ensures !v.Raised?
    ensures v.Denied? <==>
      privilege != "" && Truthy(Lookup(env.config.apiGroups, privilege))
      && !HasGroup(env.user.groups, NameSpec(privilege))
    ensures v.Denied? ==> v.reason == ApiError
  {
    if privilege != "" && Truthy(Lookup(env.config.apiGroups, privilege)) then
      if HasGroup(env.user.groups, NameSpec(privilege)) then Allowed else Denied(ApiError)
    else Allowed
  }

  /** `_checkHasAPIPrivilege` as intended: the configured entry is the requirement. */
  function CorrectedHasAPIPrivilege(env: Env, privilege: string): (v: Verdict)
    ensures !v.Raised?
    ensures v.Denied? <==>
      privilege != "" && !HasGroup(env.user.groups, Lookup(env.config.apiGroups, privilege))
    ensures v.Denied? ==> v.reason == ApiError
  {
    var required := Lookup(env.config.apiGroups, privilege);
    if privilege != "" && Truthy(required) then
      if HasGroup(env.user.groups, required) then Allowed else Denied(ApiError)
    else
      GroupTestCases(env.user.groups, required);
      Allowed
  }

  /** A non-admin user holding exactly the configured group is refused as written, admitted as intended. */
  lemma PrivilegeNamePassed()
    ensures var env := Env(false, Identity("demo", ["users"]), Config(Some(map["fs" := NameSpec("users")]), None), None, Ok([]));
      HasAPIPrivilege(env, "fs") == Denied(ApiError) && CorrectedHasAPIPrivilege(env, "fs") == Allowed
  {
    var env := Env(false, Identity("demo", ["users"]), Config(Some(map["fs" := NameSpec("users")]), None), None, Ok([]));
    GroupTestCases(env.user.groups, NameSpec("fs"));
    GroupTestCases(env.user.groups, NameSpec("users"));
    assert "fs" != "users" && "fs" != "admin";
    assert "users" in env.user.groups;
  }

  /** The exception `getRealPath` raises on an undefined input (`incPath.match`). */
  const UndefinedInputError := "TypeError: incPath is undefined"

  /** `args.path || args.src`; `None` is `undefined`. */
  function VfsTarget(args: Args): Option<string>
  {
    if args.path.Some? && args.path.value != "" then args.path else args.src
  }

  /**
   * The `getRealPath` call at the head of `_checkHasVFSPrivilege`: both
   * vfs.js copies raise for an undefined input and for one with no scheme.
   */
  function MountOf(args: Args): Result<Mount, string>
  {
    match VfsTarget(args)
    case None => Err(UndefinedInputError)
    case Some(p) => if ParseMount(p).None? then Err(UndefinedPathError) else Ok(ParseMount(p).value)
  }

  /**
   * `_checkHasVFSPrivilege` as written. The object `getRealPath` returns has
   * no `protocol`, so `mount.protocol.replace` throws inside the `try`,
   * `against` stays undefined and the check allows whatever
   * `config.vfs.groups` says.
   */
  function HasVFSPrivilege(env: Env, methodName: string, args: Args): (v: Verdict)
    ensures v.Raised? <==> MountOf(args).Err?
    ensures !v.Denied?
  {
    match MountOf(args)
    case Err(e) => Raised(e)
    case Ok(_) => Allowed
  }

  const VfsError := "You are not allowed to use this VFS function!"

  /** `_checkHasVFSPrivilege` as intended: the mount's protocol without `://` selects the requirement. */
  function CorrectedHasVFSPrivilege(env: Env, methodName: string, args: Args): (v: Verdict)
    ensures v.Raised? <==> MountOf(args).Err?
    ensures v.Denied? <==>
      MountOf(args).Ok?
      && !HasGroup(env.user.groups, Lookup(env.config.vfsGroups, ProtocolKey(MountOf(args).value.protocol)))
    ensures v.Denied? ==> v.reason == VfsError
  {
    match MountOf(args)
    case Err(e) => Raised(e)
    case Ok(m) =>
      var against := Lookup(env.config.vfsGroups, ProtocolKey(m.protocol));
      GroupTestCases(env.user.groups, against);
      if Truthy(against) && !HasGroup(env.user.groups, against) then Denied(VfsError) else Allowed
  }

  /**
   * A `home` group policy the user does not meet is ignored as written and
   * enforced as intended, for every `home://` path.
   */
  lemma VfsGroupsIgnored(env: Env, methodName: string, rest: string)
    requires Truthy(Lookup(env.config.vfsGroups, "home"))
    requires !HasGroup(env.user.groups, Lookup(env.config.vfsGroups, "home"))
    ensures HasVFSPrivilege(env, methodName, Args(Some("home://" + rest), None)) == Allowed
    ensures CorrectedHasVFSPrivilege(env, methodName, Args(Some("home://" + rest), None)) == Denied(VfsError)
  {
    var args := Args(Some("home://" + rest), None);
    KnownMounts(rest);
    assert VfsTarget(args) == Some("home://" + rest);
    assert MountOf(args) == Ok(Mount("home://", "vfs/home", rest));
    assert ProtocolKey("home://") == "home" by {
      assert EndsWith("home://", "://");
      assert "home" + "://" == "home://";
    }
    assert ProtocolKey(MountOf(args).value.protocol) == "home";
  }

  /**
   * `_checkHasBlacklistedPackage`: a truthy error is passed on; otherwise
   * whether the (possibly missing) list names the package.
   */
  function BlacklistLookup(blacklist: Result<seq<string>, string>, packageName: string): (r: Result<bool, string>)
    ensures r.Err? <==> blacklist.Err? && blacklist.error != ""
    ensures r.Err? ==> r.error == blacklist.error
    ensures r.Ok? ==> (r.value <==> blacklist.Ok? && packageName in blacklist.value)
  {
    match blacklist
    case Err(e) => if e != "" then Err(e) else Ok(false)
    case Ok(list) => Ok(packageName in list)
  }

  const PackageError := "You are not allowed to load this Package"

  /** `packages[packageName].groups`, `Unset` when the metadata or the package is missing. */
  function PackageGroups(env: Env, packageName: string): GroupSpec
  {
    if env.metadata.Some? && packageName in env.metadata.value then env.metadata.value[packageName].groups
    else Unset
  }

  /**
   * `_checkHasPackagePrivilege` as written: after a passed group test,
   * `err || !res` refuses the package unless the blacklist names it.
   */
  function HasPackagePrivilege(env: Env, packageName: string): (v: Verdict)
    ensures !v.Raised?
    ensures !Truthy(PackageGroups(env, packageName)) ==> v == Allowed
    ensures Truthy(PackageGroups(env, packageName)) && !HasGroup(env.user.groups, PackageGroups(env, packageName))
      ==> v == Denied(PackageError)
    ensures Truthy(PackageGroups(env, packageName)) && HasGroup(env.user.groups, PackageGroups(env, packageName)) ==>
      match BlacklistLookup(env.blacklist, packageName)
      case Err(e) => v == Denied(e)
      case Ok(listed) => v == (if listed then Allowed else Denied(PackageError))
  {
    var required := PackageGroups(env, packageName);
    if Truthy(required) then
      if HasGroup(env.user.groups, required) then
        match BlacklistLookup(env.blacklist, packageName)
        case Err(e) => Denied(e)
        case Ok(listed) => if !listed then Denied(PackageError) else Allowed
      else Denied(PackageError)
    else Allowed
  }

  /** `_checkHasPackagePrivilege` as intended: a blacklisted package is the one refused. */
  function CorrectedHasPackagePrivilege(env: Env, packageName: string): (v: Verdict)
    ensures !v.Raised?
    ensures !Truthy(PackageGroups(env, packageName)) ==> v == Allowed
    ensures Truthy(PackageGroups(env, packageName)) && !HasGroup(env.user.groups, PackageGroups(env, packageName))
      ==> v == Denied(PackageError)
    ensures Truthy(PackageGroups(env, packageName)) && HasGroup(env.user.groups, PackageGroups(env, packageName)) ==>
      match BlacklistLookup(env.blacklist, packageName)
      case Err(e) => v == Denied(e)
      case Ok(listed) => v == (if listed then Denied(PackageError) else Allowed)
  {
    var required := PackageGroups(env, packageName);
    if Truthy(required) then
      if HasGroup(env.user.groups, required) then
        match BlacklistLookup(env.blacklist, packageName)
        case Err(e) => Denied(e)
        case Ok(listed) => if listed then Denied(PackageError) else Allowed
      else Denied(PackageError)
    else Allowed
  }

  /** With the default empty blacklist, a package that declares groups is refused as written even to its group. */
  lemma BlacklistInverted()
    ensures var env := Env(false, Identity("demo", ["users"]), Config(None, None),
                           Some(map["default/Draw" := PackageMeta(NameSpec("users"))]), Ok([]));
      HasPackagePrivilege(env, "default/Draw") == Denied(PackageError)
      && CorrectedHasPackagePrivilege(env, "default/Draw") == Allowed
  {
    var env := Env(false, Identity("demo", ["users"]), Config(None, None),
                   Some(map["default/Draw" := PackageMeta(NameSpec("users"))]), Ok([]));
    GroupTestCases(env.user.groups, NameSpec("users"));
    assert "users" in env.user.groups;
  }

  /** `checkAPIPrivilege`: the session check, then the API check. */
  function CheckAPIPrivilege(env: Env, privilege: string): Verdict
  {
    AfterSession(env, HasAPIPrivilege(env, privilege))
  }

  /** `checkVFSPrivilege`: the session check, then the VFS check. */
  function CheckVFSPrivilege(env: Env, methodName: string, args: Args): Verdict
  {
    AfterSession(env, HasVFSPrivilege(env, methodName, args))
  }

  /** `checkPackagePrivilege`: the session check, then the package check. */
  function CheckPackagePrivilege(env: Env, packageName: string): Verdict
  {
    AfterSession(env, HasPackagePrivilege(env, packageName))
  }

  /**
   * The three entry points of a handler object, which a deployment may
   * override; registration and dispatch only go through these.
   */
  datatype Guards = Guards(
    api: string -> Verdict,
    vfs: (string, Args) -> Verdict,
    pkg: string -> Verdict)

  /** The default handler as written. */
  function DefaultGuards(env: Env): Guards
  {
    Guards(p => CheckAPIPrivilege(env, p),
           (m, a) => CheckVFSPrivilege(env, m, a),
           n => CheckPackagePrivilege(env, n))
  }

  /** The default handler with the three checks as intended. */
  function CorrectedGuards(env: Env): Guards
  {
    Guards(p => AfterSession(env, CorrectedHasAPIPrivilege(env, p)),
           (m, a) => AfterSession(env, CorrectedHasVFSPrivilege(env, m, a)),
           n => AfterSession(env, CorrectedHasPackagePrivilege(env, n)))
  }

  /** Without a session every entry point of either handler refuses with the session error. */
  lemma NoSessionRefusesAll(env: Env, privilege: string, methodName: string, args: Args, packageName: string)
    requires !env.nw && env.user.username == ""
    ensures DefaultGuards(env).api(privilege) == Denied(NoSessionError)
    ensures DefaultGuards(env).vfs(methodName, args) == Denied(NoSessionError)
    ensures DefaultGuards(env).pkg(packageName) == Denied(NoSessionError)
    ensures CorrectedGuards(env).api(privilege) == Denied(NoSessionError)
    ensures CorrectedGuards(env).vfs(methodName, args) == Denied(NoSessionError)
    ensures CorrectedGuards(env).pkg(packageName) == Denied(NoSessionError)
  {
  }

  /** With a session each entry point is exactly its specific check. */
  lemma SessionPassesThrough(env: Env, privilege: string, methodName: string, args: Args, packageName: string)
    requires env.nw || env.user.username != ""
    ensures DefaultGuards(env).api(privilege) == HasAPIPrivilege(env, privilege)
    ensures DefaultGuards(env).vfs(methodName, args) == HasVFSPrivilege(env, methodName, args)
    ensures DefaultGuards(env).pkg(packageName) == HasPackagePrivilege(env, packageName)
    ensures CorrectedGuards(env).api(privilege) == CorrectedHasAPIPrivilege(env, privilege)
    ensures CorrectedGuards(env).vfs(methodName, args) == CorrectedHasVFSPrivilege(env, methodName, args)
    ensures CorrectedGuards(env).pkg(packageName) == CorrectedHasPackagePrivilege(env, packageName)
  {
  }

  /** An administrator passes every group test, so as intended only a blacklisted package or an exception stops them. */
  lemma AdminPassesCorrected(env: Env, privilege: string, methodName: string, args: Args, packageName: string)
    requires "admin" in env.user.groups
    ensures CorrectedHasAPIPrivilege(env, privilege) == Allowed
    ensures !CorrectedHasVFSPrivilege(env, methodName, args).Denied?
    ensures CorrectedHasPackagePrivilege(env, packageName).Denied? ==>
      BlacklistLookup(env.blacklist, packageName) != Ok(false)
  {
  }

  /** What the login callback receives: an error, or success with the updated data. */
  datatype LoginCallback = LoginFailed(error: string) | LoginSucceeded

  /** The login data `onLogin` updates in place (`userData` goes to the cookies and is not kept). */
  class LoginData {
    var userSettings: Option<map<string, string>>
    var blacklistedPackages: Option<seq<string>>

    constructor(userSettings: Option<map<string, string>>, blacklistedPackages: Option<seq<string>>)
      ensures this.userSettings == userSettings && this.blacklistedPackages == blacklistedPackages
    {
      this.userSettings := userSettings;
      this.blacklistedPackages := blacklistedPackages;
    }
  }

  /**
   * The callbacks `onLogin`'s `finished` makes as written: when the data has
   * no blacklist and the lookup fails, the error callback is followed by a
   * success callback.
   */
  function LoginCallbacks(hadBlacklist: bool, lookup: Result<seq<string>, string>): seq<LoginCallback>
  {
    if hadBlacklist then [LoginSucceeded]
    else match lookup
      case Err(e) => if e != "" then [LoginFailed(e), LoginSucceeded] else [LoginSucceeded]
      case Ok(_) => [LoginSucceeded]
  }

  /** The callbacks as intended: exactly one, the error when the lookup fails. */
  function CorrectedLoginCallbacks(hadBlacklist: bool, lookup: Result<seq<string>, string>): (cbs: seq<LoginCallback>)
    ensures |cbs| == 1
    ensures cbs[0].LoginFailed? <==> !hadBlacklist && lookup.Err? && lookup.error != ""
  {
    if hadBlacklist then [LoginSucceeded]
    else match lookup
      case Err(e) => if e != "" then [LoginFailed(e)] else [LoginSucceeded]
      case Ok(_) => [LoginSucceeded]
  }

  /** A failed lookup makes two callbacks as written, and the second reports success. */
  lemma DoubleCallback(e: string)
    requires e != ""
    ensures LoginCallbacks(false, Err(e)) == [LoginFailed(e), LoginSucceeded]
    ensures CorrectedLoginCallbacks(false, Err(e)) == [LoginFailed(e)]
  {
  }

  /** As written and as intended agree whenever the login does not fail. */
  lemma LoginCallbacksAgree(hadBlacklist: bool, lookup: Result<seq<string>, string>)
    requires hadBlacklist || lookup.Ok? || lookup.error == ""
    ensures LoginCallbacks(hadBlacklist, lookup) == CorrectedLoginCallbacks(hadBlacklist, lookup) == [LoginSucceeded]
  {
  }

  /** The blacklist `onLogin` stores: the lookup's list, or `[]` for a missing one. */
  function StoredBlacklist(lookup: Result<seq<string>, string>): Option<seq<string>>
  {
    match lookup
    case Ok(list) => Some(list)
    case Err(e) => if e != "" then None else Some([])
  }

  /**
   * `onLogin`: defaults `userSettings` to `{}`, then, unless the data already
   * carries a blacklist, stores the looked-up one. Returns the callbacks made.
   */
  method OnLogin(data: LoginData, lookup: Result<seq<string>, string>) returns (calls: seq<LoginCallback>)
    modifies data
    ensures data.userSettings == if old(data.userSettings).Some? then old(data.userSettings) else Some(map[])
    ensures data.blacklistedPackages ==
      if old(data.blacklistedPackages).Some? then old(data.blacklistedPackages) else StoredBlacklist(lookup)
    ensures calls == LoginCallbacks(old(data.blacklistedPackages).Some?, lookup)
  {
    if data.userSettings.None? {
      data.userSettings := Some(map[]);
    }
    calls := [];
    if data.blacklistedPackages.Some? {
      calls := calls + [LoginSucceeded];
    } else {
      match lookup {
        case Err(e) =>
          if e != "" {
            calls := calls + [LoginFailed(e)];
          } else {
            data.blacklistedPackages := Some([]);
          }
        case Ok(list) =>
          data.blacklistedPackages := Some(list);
      }
      calls := calls + [LoginSucceeded];
    }
  }

  /** `onLogin` as intended: the same updates, and a single callback. */
  method CorrectedOnLogin(data: LoginData, lookup: Result<seq<string>, string>) returns (calls: seq<LoginCallback>)
    modifies data
    ensures data.userSettings == if old(data.userSettings).Some? then old(data.userSettings) else Some(map[])
    ensures data.blacklistedPackages ==
      if old(data.blacklistedPackages).Some? then old(data.blacklistedPackages) else StoredBlacklist(lookup)
    ensures calls == CorrectedLoginCallbacks(old(data.blacklistedPackages).Some?, lookup)
  {
    if data.userSettings.None? {
      data.userSettings := Some(map[]);
    }
    if data.blacklistedPackages.Some? {
      calls := [LoginSucceeded];
    } else {
      match lookup {
        case Err(e) =>
          if e != "" {
            calls := [LoginFailed(e)];
          } else {
            data.blacklistedPackages := Some([]);
            calls := [LoginSucceeded];
          }
        case Ok(list) =>
          data.blacklistedPackages := Some(list);
          calls := [LoginSucceeded];
      }
    }
  }
}
