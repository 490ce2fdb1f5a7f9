/**
 * Method registration of build/resources/main/handler.js: `registerAPIMethod`,
 * `registerVFSMethod`, `registerMethods` and the registration done by the
 * handler's constructor and `init`. The `api` and `vfs` namespaces are maps
 * updated in place; every registered function is wrapped with the privilege
 * checks except `login`, `getMime` and `getRealPath`.
 */
module Registration {
  import opened Results
  import opened Handler

  /** An implementation handed to registration, known by its identity only. */
  datatype Impl = Impl(id: string)

  /** What a namespace stores under a name: the function itself, or a wrapper around it. */
  datatype Entry =
    | Plain(impl: Impl)
    | GuardedApi(fn: string, impl: Impl)
    | GuardedVfs(fn: string, impl: Impl)

  const IgnorePrivilegesAPI: seq<string> := ["login"]
  const IgnorePrivilegesVFS: seq<string> := ["getMime", "getRealPath"]

  /** The entry registration stores for `fn`: unwrapped exactly for the exempt names. */
  function EntryOf(isVfs: bool, fn: string, impl: Impl): (e: Entry)
    ensures e.impl == impl
    ensures e.Plain? <==> fn in (if isVfs then IgnorePrivilegesVFS else IgnorePrivilegesAPI)
    ensures e.GuardedApi? ==> !isVfs && e.fn == fn
    ensures e.GuardedVfs? ==> isVfs && e.fn == fn
  {
    if isVfs then
      if fn in IgnorePrivilegesVFS then Plain(impl) else GuardedVfs(fn, impl)
    else
      if fn in IgnorePrivilegesAPI then Plain(impl) else GuardedApi(fn, impl)
  }

  /** The definitions of one `registerMethods` argument, in `Object.keys` order. */
  type Defs = seq<(string, Impl)>

  /** The namespace after registering `defs` in order; a name already present is kept. */
  function Registered(ns: map<string, Entry>, defs: Defs, isVfs: bool): map<string, Entry>
    decreases |defs|
  {
    if |defs| == 0 then ns
    else
      var before := Registered(ns, defs[..|defs| - 1], isVfs);
      var d := defs[|defs| - 1];
      if d.0 in before then before else before[d.0 := EntryOf(isVfs, d.0, d.1)]
  }

  /** A name already in the namespace is never replaced. */
  lemma {:induction false} FirstWins(ns: map<string, Entry>, defs: Defs, isVfs: bool, fn: string)
    requires fn in ns
    ensures fn in Registered(ns, defs, isVfs) && Registered(ns, defs, isVfs)[fn] == ns[fn]
    decreases |defs|
  {
    if |defs| > 0 {
      FirstWins(ns, defs[..|defs| - 1], isVfs, fn);
    }
  }

  /** Registration adds exactly the defined names. */
  lemma {:induction false} RegisteredKeys(ns: map<string, Entry>, defs: Defs, isVfs: bool)
    ensures Registered(ns, defs, isVfs).Keys == ns.Keys + set j | 0 <= j < |defs| :: defs[j].0
    decreases |defs|
  {
    if |defs| > 0 {
      var init := defs[..|defs| - 1];
      RegisteredKeys(ns, init, isVfs);
      assert (set j | 0 <= j < |defs| :: defs[j].0) == (set j | 0 <= j < |init| :: init[j].0) + {defs[|defs| - 1].0} by {
        forall j | 0 <= j < |init| ensures init[j] == defs[j] {}
      }
    }
  }

  /** A new name gets the entry built from its first definition. */
  lemma {:induction false} FirstDefinitionWins(ns: map<string, Entry>, defs: Defs, isVfs: bool, k: nat)
    requires k < |defs| && defs[k].0 !in ns
    requires forall j :: 0 <= j < k ==> defs[j].0 != defs[k].0
    ensures defs[k].0 in Registered(ns, defs, isVfs)
    ensures Registered(ns, defs, isVfs)[defs[k].0] == EntryOf(isVfs, defs[k].0, defs[k].1)
    decreases |defs|
  {
    var n := |defs| - 1;
    var init := defs[..n];
    if k < n {
      assert init[k] == defs[k];
      forall j | 0 <= j < k ensures init[j].0 != init[k].0 {
        assert init[j] == defs[j];
      }
      FirstDefinitionWins(ns, init, isVfs, k);
    } else {
      NotYetRegistered(ns, init, isVfs, defs[k].0);
    }
  }

  /** A name neither present nor defined is still absent after registration. */
  lemma {:induction false} NotYetRegistered(ns: map<string, Entry>, defs: Defs, isVfs: bool, fn: string)
    requires fn !in ns && forall j :: 0 <= j < |defs| ==> defs[j].0 != fn
    ensures fn !in Registered(ns, defs, isVfs)
    decreases |defs|
  {
    if |defs| > 0 {
      var init := defs[..|defs| - 1];
      forall j | 0 <= j < |init| ensures init[j].0 != fn {
        assert init[j] == defs[j];
      }
      NotYetRegistered(ns, init, isVfs, fn);
    }
  }

  /** Every entry is the one registration builds for its own name. */
  predicate WellKeyed(ns: map<string, Entry>, isVfs: bool)
  {
    forall fn :: fn in ns ==> ns[fn] == EntryOf(isVfs, fn, ns[fn].impl)
  }

  lemma {:induction false} RegisteredWellKeyed(ns: map<string, Entry>, defs: Defs, isVfs: bool)
    requires WellKeyed(ns, isVfs)
    ensures WellKeyed(Registered(ns, defs, isVfs), isVfs)
    decreases |defs|
  {
    if |defs| > 0 {
      RegisteredWellKeyed(ns, defs[..|defs| - 1], isVfs);
    }
  }

  /** The methods the `nw` handler's constructor registers. */
  const NwLogin := Impl("NWHandler.login")
  const NwLogout := Impl("NWHandler.logout")
  const NwApi: Defs := [("login", NwLogin), ("logout", NwLogout)]

  /** The `instance.api` and `instance.vfs` namespaces. */
  class Namespaces {
    var api: map<string, Entry>
    var vfs: map<string, Entry>

    constructor()
      ensures api == map[] && vfs == map[]
    {
      api := map[];
      vfs := map[];
    }

    /** `registerAPIMethod`: store `fn`, wrapped unless exempt, when the name is new. */
    method RegisterAPIMethod(fn: string, impl: Impl)
      modifies this
      ensures vfs == old(vfs)
      ensures api == if fn in old(api) then old(api) else old(api)[fn := EntryOf(false, fn, impl)]
    {
      if fn !in api {
        if fn !in IgnorePrivilegesAPI {
          api := api[fn := GuardedApi(fn, impl)];
        } else {
          api := api[fn := Plain(impl)];
        }
      }
    }

    /** `registerVFSMethod`: store `fn`, wrapped unless exempt, when the name is new. */
    method RegisterVFSMethod(fn: string, impl: Impl)
      modifies this
      ensures api == old(api)
      ensures vfs == if fn in old(vfs) then old(vfs) else old(vfs)[fn := EntryOf(true, fn, impl)]
    {
      if fn !in vfs {
        if fn !in IgnorePrivilegesVFS {
          vfs := vfs[fn := GuardedVfs(fn, impl)];
        } else {
          vfs := vfs[fn := Plain(impl)];
        }
      }
    }

    /** `registerMethods`: the VFS definitions first, then the API ones. */
    method RegisterMethods(apiDefs: Defs, vfsDefs: Defs)
      modifies this
      ensures vfs == Registered(old(vfs), vfsDefs, true)
      ensures api == Registered(old(api), apiDefs, false)
    {
      var i := 0;
      while i < |vfsDefs|
        invariant 0 <= i <= |vfsDefs|
        invariant vfs == Registered(old(vfs), vfsDefs[..i], true)
        invariant api == old(api)
      {
        assert vfsDefs[..i + 1][..i] == vfsDefs[..i];
        RegisterVFSMethod(vfsDefs[i].0, vfsDefs[i].1);
        i := i + 1;
      }
      assert vfsDefs[..i] == vfsDefs;
      var j := 0;
      while j < |apiDefs|
        invariant 0 <= j <= |apiDefs|
        invariant api == Registered(old(api), apiDefs[..j], false)
        invariant vfs == Registered(old(vfs), vfsDefs, true)
      {
        assert apiDefs[..j + 1][..j] == apiDefs[..j];
        RegisterAPIMethod(apiDefs[j].0, apiDefs[j].1);
        j := j + 1;
      }
      assert apiDefs[..j] == apiDefs;
    }

    /**
     * `init`: the handler's own methods (the `nw` handler's `login` and
     * `logout`, or whatever a deployment's handler registers), then the
     * core `api.js` and `vfs.js` methods.
     */
    method Init(nw: bool, handlerApi: Defs, handlerVfs: Defs, coreApi: Defs, coreVfs: Defs)
      modifies this
      ensures var hApi := if nw then NwApi else handlerApi;
        api == Registered(Registered(old(api), hApi, false), coreApi, false)
      ensures var hVfs := if nw then [] else handlerVfs;
        vfs == Registered(Registered(old(vfs), hVfs, true), coreVfs, true)
    {
      if nw {
        RegisterMethods(NwApi, []);
      } else {
        RegisterMethods(handlerApi, handlerVfs);
      }
      RegisterMethods(coreApi, coreVfs);
    }
  }

  /** In `nw` mode the handler's own `login` and `logout` take precedence over the core ones. */
  lemma NwHandlerWins(coreApi: Defs)
    ensures var api := Registered(Registered(map[], NwApi, false), coreApi, false);
      "login" in api && api["login"] == Plain(NwLogin)
      && "logout" in api && api["logout"] == GuardedApi("logout", NwLogout)
  {
    var first := Registered(map[], NwApi, false);
    FirstDefinitionWins(map[], NwApi, false, 0);
    FirstDefinitionWins(map[], NwApi, false, 1);
    FirstWins(first, coreApi, false, "login");
    FirstWins(first, coreApi, false, "logout");
  }

  /** The argument positions a function receives. */
  datatype Param = ArgsParam | CallbackParam | ContextParam | ConfigParam | HandlerParam

  /** The dispatcher's call `(args, callback, routingContext, config, handler)`. */
  const DispatchParams := [ArgsParam, CallbackParam, ContextParam, ConfigParam, HandlerParam]

  /** The VFS wrapper's call `(args, routingContext, callback, instance.config, handler)`. */
  const VfsWrapperParams := [ArgsParam, ContextParam, CallbackParam, ConfigParam, HandlerParam]

  /** What calling an entry comes to: the callback's error, an exception, or a call of the implementation. */
  datatype Outcome = Refused(error: string) | Aborted(exception: string) | Called(impl: Impl, params: seq<Param>)

  /** A guard's verdict in front of a call. */
  function Gate(v: Verdict, next: Outcome): (o: Outcome)
    ensures v.Allowed? ==> o == next
    ensures v.Denied? ==> o == Refused(v.reason)
    ensures v.Raised? ==> o == Aborted(v.exception)
  {
    match v
    case Allowed => next
    case Denied(r) => Refused(r)
    case Raised(x) => Aborted(x)
  }

  /**
   * Calling a stored entry the way the dispatcher does. An API wrapper runs
   * `checkAPIPrivilege(fn)`; a VFS wrapper runs `checkAPIPrivilege('fs')`
   * and then `checkVFSPrivilege(fn, args)`.
   */
  function Invoke(e: Entry, guards: Guards, args: Args): (o: Outcome)
    ensures o.Called? ==> o.impl == e.impl
    ensures o.Called? <==>
      e.Plain?
      || (e.GuardedApi? && guards.api(e.fn).Allowed?)
      || (e.GuardedVfs? && guards.api("fs").Allowed? && guards.vfs(e.fn, args).Allowed?)
    ensures o.Called? ==> o.params == if e.GuardedVfs? then VfsWrapperParams else DispatchParams
    ensures e.GuardedApi? && guards.api(e.fn).Denied? ==> o == Refused(guards.api(e.fn).reason)
    ensures e.GuardedVfs? && guards.api("fs").Denied? ==> o == Refused(guards.api("fs").reason)
    ensures e.GuardedVfs? && guards.api("fs").Allowed? && guards.vfs(e.fn, args).Denied? ==>
      o == Refused(guards.vfs(e.fn, args).reason)
  {
    match e
    case Plain(impl) => Called(impl, DispatchParams)
    case GuardedApi(fn, impl) => Gate(guards.api(fn), Called(impl, DispatchParams))
    case GuardedVfs(fn, impl) => Gate(guards.api("fs"), Gate(guards.vfs(fn, args), Called(impl, VfsWrapperParams)))
  }
}
