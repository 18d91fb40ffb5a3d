/** The platform object shared by every supported client (BasePlatform.cpp):
    it owns the hooks installed into one third-party module, installs them
    through the Detour -> IAT -> EAT fallback chain and tears them down at
    shutdown according to whether the module is still loaded. */
module Platform {
  import opened Types

  /** A PolyHook hook object, identified by the arguments it was built with.
      Every kind records the function name whose trampoline slot it fills and
      the replacement ("detour") it redirects to. */
  datatype Hook =
    | Detour(target: Addr, detour: Addr, funcName: string)
    | Iat(moduleName: string, funcName: string, detour: Addr)
    | Eat(funcName: string, moduleName: string, detour: Addr)

  /** What the platform does to the host process, in order. */
  datatype Event =
    | Attempt(hook: Hook, hooked: bool) // a new hook was pushed and its hook() called
    | Unhook(hook: Hook)                // the hook was destroyed, which restores the original code
    | Release(hook: Hook)               // ownership was dropped without restoring anything

  /** The Win32 and PolyHook primitives below this layer, as oracles. */
  datatype Host = Host(
    moduleHandle: string -> Handle,        // GetModuleHandle; NULL when the module is not loaded
    procAddress: (Handle, string) -> Addr, // GetProcAddress; NULL when there is no such export
    hookSucceeds: Hook -> bool,            // hook() of a Detour, IatHook or EatHook
    trampolineOf: Hook -> Addr)            // the trampoline a successful hook() writes back

  /** The strategies the name-taking installDetourHook tries, in order. */
  function FallbackChain(moduleName: string, funcName: string, hookedFunc: Addr, address: Addr): seq<Hook>
  {
    [Detour(address, hookedFunc, funcName)] + ImportChain(moduleName, funcName, hookedFunc)
  }

  /** The strategies installIatHook tries: IAT, then EAT. */
  function ImportChain(moduleName: string, funcName: string, hookedFunc: Addr): seq<Hook>
  {
    [Iat(moduleName, funcName, hookedFunc)] + ExportChain(moduleName, funcName, hookedFunc)
  }

  /** installEatHook is the last resort: nothing follows it. */
  function ExportChain(moduleName: string, funcName: string, hookedFunc: Addr): seq<Hook>
  {
    [Eat(funcName, moduleName, hookedFunc)]
  }

  /** The hook() calls made while walking `chain`: each strategy is tried
      until one succeeds. */
  function Attempts(chain: seq<Hook>, ok: Hook -> bool): (trace: seq<Event>)
    ensures |trace| <= |chain|
    ensures chain != [] ==> |trace| >= 1
  {
    if chain == [] then []
    else if ok(chain[0]) then [Attempt(chain[0], true)]
    else [Attempt(chain[0], false)] + Attempts(chain[1..], ok)
  }

  /** The hooks that stay in the hooks list after `trace`: those whose hook()
      succeeded (a failed one is popped straight away). */
  function Installed(trace: seq<Event>): (hooks: seq<Hook>)
    ensures |hooks| <= |trace|
  {
    if trace == [] then []
    else (if trace[0].Attempt? && trace[0].hooked then [trace[0].hook] else []) + Installed(trace[1..])
  }

  /** The trampoline map after one event: an attempt creates the function's
      slot (`trampolineMap[funcName]`), and a successful hook() fills it. */
  function Record(entries: map<string, Addr>, e: Event, host: Host): map<string, Addr>
  {
    match e
    case Attempt(h, hooked) =>
      var slot := EnsureKey(entries, h.funcName, NULL);
      if hooked then slot[h.funcName := host.trampolineOf(h)] else slot
    case _ => entries
  }

  /** The trampoline map after a whole trace; slots are never removed. */
  function Replay(entries: map<string, Addr>, trace: seq<Event>, host: Host): (r: map<string, Addr>)
    ensures entries.Keys <= r.Keys
    decreases |trace|
  {
    if trace == [] then entries else Replay(Record(entries, trace[0], host), trace[1..], host)
  }

  /** The events of shutdown: every hook, in list order, is either destroyed
      (unhooked) or released. */
  function Teardown(hooks: seq<Hook>, loaded: bool): (trace: seq<Event>)
    ensures |trace| == |hooks|
  {
    if hooks == [] then []
    else [if loaded then Unhook(hooks[0]) else Release(hooks[0])] + Teardown(hooks[1..], loaded)
  }

  /** What installing hooks changes: the event trace, the hooks list and
      the trampoline map. */
  datatype HookState = HookState(events: seq<Event>, hooks: seq<Hook>, entries: map<string, Addr>)

  /** The hook state after `trace`: the events grow by it, the list by the
      hooks it installed, and the trampoline map by the slots it touched. */
  function Apply(s: HookState, trace: seq<Event>, host: Host): HookState
  {
    HookState(s.events + trace, s.hooks + Installed(trace), Replay(s.entries, trace, host))
  }

  lemma {:induction false} InstalledAppend(a: seq<Event>, b: seq<Event>)
    ensures Installed(a + b) == Installed(a) + Installed(b)
  {
    if a == [] {
      assert a + b == b;
    } else {
      assert (a + b)[0] == a[0];
      assert (a + b)[1..] == a[1..] + b;
      InstalledAppend(a[1..], b);
    }
  }

  lemma {:induction false} ReplayAppend(entries: map<string, Addr>, a: seq<Event>, b: seq<Event>, host: Host)
    ensures Replay(entries, a + b, host) == Replay(Replay(entries, a, host), b, host)
    decreases |a|
  {
    if a == [] {
      assert a + b == b;
    } else {
      assert (a + b)[0] == a[0];
      assert (a + b)[1..] == a[1..] + b;
      ReplayAppend(Record(entries, a[0], host), a[1..], b, host);
    }
  }

  lemma ApplyNothing(s: HookState, host: Host)
    ensures Apply(s, [], host) == s
  {
  }

  lemma ApplyAppend(s: HookState, a: seq<Event>, b: seq<Event>, host: Host)
    ensures Apply(Apply(s, a, host), b, host) == Apply(s, a + b, host)
  {
    InstalledAppend(a, b);
    ReplayAppend(s.entries, a, b, host);
  }

  /** A fallback chain adds at most one hook to the list. */
  lemma {:induction false} ChainAddsAtMostOne(chain: seq<Hook>, ok: Hook -> bool)
    ensures |Installed(Attempts(chain, ok))| <= 1
  {
    if chain != [] && !ok(chain[0]) {
      var rest := Attempts(chain[1..], ok);
      InstalledAppend([Attempt(chain[0], false)], rest);
      assert Installed([Attempt(chain[0], false)]) == [];
      ChainAddsAtMostOne(chain[1..], ok);
    }
  }

  /** Strategies are tried strictly in chain order, and every strategy tried
      before the last one failed. */
  lemma {:induction false} AttemptsFollowChain(chain: seq<Hook>, ok: Hook -> bool)
    ensures forall k :: 0 <= k < |Attempts(chain, ok)| ==> Attempts(chain, ok)[k] == Attempt(chain[k], ok(chain[k]))
    ensures forall k :: 0 <= k < |Attempts(chain, ok)| - 1 ==> !ok(chain[k])
  {
    if chain != [] && !ok(chain[0]) {
      AttemptsFollowChain(chain[1..], ok);
    }
  }

  /** The hook kept is the one of the first strategy that succeeds, and no
      strategy after it is tried. */
  lemma {:induction false} ChainInstallsFirstSuccess(chain: seq<Hook>, ok: Hook -> bool, i: nat)
    requires i < |chain| && ok(chain[i])
    requires forall j :: 0 <= j < i ==> !ok(chain[j])
    ensures Installed(Attempts(chain, ok)) == [chain[i]]
    ensures |Attempts(chain, ok)| == i + 1
  {
    if i > 0 {
      var rest := Attempts(chain[1..], ok);
      ChainInstallsFirstSuccess(chain[1..], ok, i - 1);
      InstalledAppend([Attempt(chain[0], false)], rest);
      assert Installed([Attempt(chain[0], false)]) == [];
    }
  }

  /** Nothing is installed exactly when every strategy fails, and then every
      strategy has been tried. */
  lemma {:induction false} ChainInstallsNothingIffAllFail(chain: seq<Hook>, ok: Hook -> bool)
    ensures Installed(Attempts(chain, ok)) == [] <==> forall j :: 0 <= j < |chain| ==> !ok(chain[j])
    ensures (forall j :: 0 <= j < |chain| ==> !ok(chain[j])) ==> |Attempts(chain, ok)| == |chain|
  {
    if chain != [] {
      if ok(chain[0]) {
        assert Installed(Attempts(chain, ok)) == [chain[0]];
      } else {
        var rest := Attempts(chain[1..], ok);
        InstalledAppend([Attempt(chain[0], false)], rest);
        assert Installed([Attempt(chain[0], false)]) == [];
        ChainInstallsNothingIffAllFail(chain[1..], ok);
        assert forall j :: 1 <= j < |chain| ==> chain[j] == chain[1..][j - 1];
      }
    }
  }

  /** The scenario of a target whose Detour and IAT hooks fail and whose EAT
      hook succeeds: all three are tried, in order, and the EAT hook is kept. */
  lemma ExportAfterDetourAndImportFail(moduleName: string, funcName: string, hookedFunc: Addr, address: Addr, ok: Hook -> bool)
    requires !ok(Detour(address, hookedFunc, funcName)) && !ok(Iat(moduleName, funcName, hookedFunc))
    requires ok(Eat(funcName, moduleName, hookedFunc))
    ensures Installed(Attempts(FallbackChain(moduleName, funcName, hookedFunc, address), ok)) == [Eat(funcName, moduleName, hookedFunc)]
    ensures Attempts(FallbackChain(moduleName, funcName, hookedFunc, address), ok)
         == [Attempt(Detour(address, hookedFunc, funcName), false), Attempt(Iat(moduleName, funcName, hookedFunc), false),
             Attempt(Eat(funcName, moduleName, hookedFunc), true)]
  {
    var chain := FallbackChain(moduleName, funcName, hookedFunc, address);
    ChainInstallsFirstSuccess(chain, ok, 2);
    AttemptsFollowChain(chain, ok);
  }

  /** Shutdown touches the hooks in list order, front to back. */
  lemma {:induction false} TeardownInListOrder(hooks: seq<Hook>, loaded: bool)
    ensures forall i :: 0 <= i < |hooks| ==>
      Teardown(hooks, loaded)[i] == if loaded then Unhook(hooks[i]) else Release(hooks[i])
  {
    if hooks != [] {
      TeardownInListOrder(hooks[1..], loaded);
    }
  }

  /** With the module unloaded, shutdown unhooks nothing. */
  lemma UnloadedTeardownNeverUnhooks(hooks: seq<Hook>)
    ensures forall e :: e in Teardown(hooks, false) ==> e.Release?
  {
  }

  lemma {:induction false} TeardownAppend(hooks: seq<Hook>, h: Hook, loaded: bool)
    ensures Teardown(hooks + [h], loaded) == Teardown(hooks, loaded) + [if loaded then Unhook(h) else Release(h)]
  {
    if hooks != [] {
      assert (hooks + [h])[1..] == hooks[1..] + [h];
      TeardownAppend(hooks[1..], h, loaded);
    } else {
      assert hooks + [h] == [h];
    }
  }

  /** BasePlatform::trampolineMap: the process-wide map from a hooked
      function's name to the trampoline that calls its original code. */
  class TrampolineMap {
    var entries: map<string, Addr>

    constructor ()
      ensures entries == map[]
    {
      entries := map[];
    }
  }

  class BasePlatform {
    const handle: Handle
    /** The module's name as the platform logs it and as the IAT/EAT hooks look it up. */
    const moduleName: string
    /** The module the platform reports through getModuleName(). */
    const platformModule: string
    const trampolines: TrampolineMap
    var initialized: bool
    var hooks: seq<Hook>
    ghost var events: seq<Event>

    /** BasePlatform(HMODULE): `moduleName` is the base name Windows reports for `handle`. */
    constructor FromHandle(handle: Handle, moduleName: string, platformModule: string, trampolines: TrampolineMap)
      ensures this.handle == handle && this.moduleName == moduleName
      ensures this.platformModule == platformModule && this.trampolines == trampolines
      ensures !initialized && hooks == [] && events == []
    {
      this.handle := handle;
      this.moduleName := moduleName;
      this.platformModule := platformModule;
      this.trampolines := trampolines;
      initialized := false;
      hooks := [];
      events := [];
    }

    /** BasePlatform(fullDllName): the handle is looked up by name and stays
        NULL when the module is not loaded. */
    constructor FromName(host: Host, fullDllName: string, platformModule: string, trampolines: TrampolineMap)
      ensures handle == host.moduleHandle(fullDllName) && moduleName == fullDllName
      ensures this.platformModule == platformModule && this.trampolines == trampolines
      ensures !initialized && hooks == [] && events == []
    {
      moduleName := fullDllName;
      this.platformModule := platformModule;
      this.trampolines := trampolines;
      initialized := false;
      hooks := [];
      events := [];
      handle := host.moduleHandle(fullDllName);
    }

    /** The guard of init(): platformInit runs only on an object that is not
        yet initialised and holds a module handle. */
    predicate CanInit()
      reads this
    {
      !initialized && handle != NULL
    }

    ghost function State(): HookState
      reads this, trampolines
    {
      HookState(events, hooks, trampolines.entries)
    }

    /** The hook state is the old one after `trace`. */
    twostate predicate Extended(host: Host, trace: seq<Event>)
      reads this, trampolines
    {
      State() == Apply(old(State()), trace, host)
    }

    /** Push `h`, call its hook(), and pop it again if that failed. */
    method TryHook(host: Host, h: Hook) returns (hooked: bool)
      modifies this`hooks, this`events, trampolines
      ensures hooked == host.hookSucceeds(h)
      ensures Extended(host, [Attempt(h, hooked)])
    {
      trampolines.entries := EnsureKey(trampolines.entries, h.funcName, NULL);
      hooks := hooks + [h];
      hooked := host.hookSucceeds(h);
      events := events + [Attempt(h, hooked)];
      if hooked {
        trampolines.entries := trampolines.entries[h.funcName := host.trampolineOf(h)];
      } else {
        hooks := hooks[..|hooks| - 1];
      }
      ghost var trace := [Attempt(h, hooked)];
      assert Installed(trace) == if hooked then [h] else [];
      assert Replay(old(trampolines.entries), trace, host) == Record(old(trampolines.entries), trace[0], host);
    }

    /** installDetourHook(hookedFunc, funcName, funcAddress): one Detour at a
        known address, with no fallback. */
    method InstallDetourHookAt(host: Host, hookedFunc: Addr, funcName: string, funcAddress: Addr)
      modifies this`hooks, this`events, trampolines
      ensures var h := Detour(funcAddress, hookedFunc, funcName);
              && Extended(host, [Attempt(h, host.hookSucceeds(h))])
              && hooks == old(hooks) + if host.hookSucceeds(h) then [h] else []
    {
      var _ := TryHook(host, Detour(funcAddress, hookedFunc, funcName));
    }

    /** installDetourHook(hookedFunc, funcName): resolve the export, then try
        Detour, IAT and EAT in that order. An unresolved export ends the call
        with nothing attempted. */
    method InstallDetourHook(host: Host, hookedFunc: Addr, funcName: string)
      modifies this`hooks, this`events, trampolines
      ensures host.procAddress(handle, funcName) == NULL ==> Extended(host, [])
      ensures host.procAddress(handle, funcName) != NULL ==>
        Extended(host, Attempts(FallbackChain(moduleName, funcName, hookedFunc, host.procAddress(handle, funcName)), host.hookSucceeds))
    {
      var address := host.procAddress(handle, funcName);
      if address != NULL {
        var detour := Detour(address, hookedFunc, funcName);
        var hooked := TryHook(host, detour);
        if !hooked {
          ghost var first := [Attempt(detour, false)];
          InstallIatHook(host, hookedFunc, funcName);
          ghost var rest := Attempts(ImportChain(moduleName, funcName, hookedFunc), host.hookSucceeds);
          assert Attempts(FallbackChain(moduleName, funcName, hookedFunc, address), host.hookSucceeds) == first + rest;
          ApplyAppend(old(State()), first, rest, host);
        }
      }
    }

    /** installIatHook: try the import-table hook, then fall back to EAT. */
    method InstallIatHook(host: Host, hookedFunc: Addr, funcName: string)
      modifies this`hooks, this`events, trampolines
      ensures Extended(host, Attempts(ImportChain(moduleName, funcName, hookedFunc), host.hookSucceeds))
    {
      var iat := Iat(moduleName, funcName, hookedFunc);
      var hooked := TryHook(host, iat);
      if !hooked {
        ghost var first := [Attempt(iat, false)];
        InstallEatHook(host, hookedFunc, funcName);
        ghost var rest := Attempts(ExportChain(moduleName, funcName, hookedFunc), host.hookSucceeds);
        assert Attempts(ImportChain(moduleName, funcName, hookedFunc), host.hookSucceeds) == first + rest;
        ApplyAppend(old(State()), first, rest, host);
      }
    }

    /** installEatHook: the export-table hook, the last strategy. */
    method InstallEatHook(host: Host, hookedFunc: Addr, funcName: string)
      modifies this`hooks, this`events, trampolines
      ensures Extended(host, Attempts(ExportChain(moduleName, funcName, hookedFunc), host.hookSucceeds))
    {
      var _ := TryHook(host, Eat(funcName, moduleName, hookedFunc));
    }

    /** shutdown(): on an initialised platform, destroy (unhook) every hook if
        the module is still loaded, else release every hook untouched; then
        clear the list. `initialized` is never reset. */
    method Shutdown(host: Host)
      modifies this`hooks, this`events
      ensures initialized == old(initialized)
      ensures !old(initialized) ==> hooks == old(hooks) && events == old(events)
      ensures old(initialized) ==>
        && hooks == []
        && events == old(events) + Teardown(old(hooks), host.moduleHandle(platformModule) != NULL)
    {
      if !initialized {
        return;
      }
      var loaded := host.moduleHandle(platformModule) != NULL;
      for i := 0 to |hooks|
        invariant events == old(events) + Teardown(hooks[..i], loaded)
      {
        TeardownAppend(hooks[..i], hooks[i], loaded);
        assert hooks[..i + 1] == hooks[..i] + [hooks[i]];
        if loaded {
          events := events + [Unhook(hooks[i])];
        } else {
          events := events + [Release(hooks[i])];
        }
      }
      assert hooks[..|hooks|] == hooks;
      hooks := [];
    }
  }

  /** A second shutdown finds the list empty and does nothing more. */
  method ShutdownTwice(platform: BasePlatform, host: Host)
    modifies platform`hooks, platform`events
    ensures platform.initialized == old(platform.initialized)
    ensures !old(platform.initialized) ==> platform.hooks == old(platform.hooks) && platform.events == old(platform.events)
    ensures old(platform.initialized) ==>
      && platform.hooks == []
      && platform.events == old(platform.events) + Teardown(old(platform.hooks), host.moduleHandle(platform.platformModule) != NULL)
  {
    platform.Shutdown(host);
    platform.Shutdown(host);
  }
}
