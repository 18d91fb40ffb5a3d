/** The Steam client platform (SteamClient.cpp): inside the Steam process it
    fetches and caches byte patterns for steamclient's internal functions,
    reads them back, and detours every function the configuration selects at
    the address the pattern scanner finds. */
module Steam {
  import opened Types
  import opened Platform

  /** The Steam part of the unlocker's configuration. */
  datatype Config = Config(process: string, unlockSharedLibrary: bool, unlockDlc: bool, replicate: bool)

  /** The answer of the HTTP fetch of the patterns file. */
  datatype Response = Response(statusCode: int, text: string)

  /** The collaborators of the Steam platform, as oracles. */
  datatype SteamHost = SteamHost(
    currentProcess: string,                           // getCurrentProcessName()
    stringsAreEqual: (string, string, bool) -> bool,  // stringsAreEqual(a, b, ignoreCase)
    fetched: Response,                                // fetch(steamclient_patterns_url)
    writeSucceeds: bool,                              // writeFileContents(PATTERNS_FILE_PATH, ...)
    parse: string -> Option<map<string, string>>,     // json::parse(...).get_to(patterns); None when it throws
    moduleBase: Addr,                                 // getModuleInfo(handle).lpBaseOfDll
    moduleSize: nat,                                  // getModuleInfo(handle).SizeOfImage
    scan: (Addr, nat, string) -> Addr,                // PatternMatcher::scanInternal; NULL when not found
    replacement: string -> Addr)                      // the replacement function hooked under that name

  /** Steps of platformInit that are visible outside the hook state. */
  datatype Step = Fetched(cached: bool) | CacheRead | FatalError

  const SharedLibraryFunctions: seq<string> := ["SharedLibraryStopPlaying", "FamilyGroupRunningApp"]
  const DlcFunctions: seq<string> := ["IsAppDLCEnabled", "IsSubscribedApp", "GetDLCDataByIndex"]

  /** The result of fetchAndCachePatterns and the cache file's text after it. */
  datatype FetchResult = FetchResult(ok: bool, cacheText: string)

  /** fetchAndCachePatterns(): the patterns are cached only when the fetch
      answered 200 and the file write succeeded; otherwise the file keeps its
      previous text. */
  function FetchAndCachePatterns(res: Response, writeSucceeds: bool, cacheText: string): (r: FetchResult)
    ensures r.ok <==> res.statusCode == 200 && writeSucceeds
    ensures r.cacheText == if r.ok then res.text else cacheText
  {
    if res.statusCode != 200 then FetchResult(false, cacheText)
    else if !writeSucceeds then FetchResult(false, cacheText)
    else FetchResult(true, res.text)
  }

  /** The patterns readCachedPatterns leaves behind for a cache file text. */
  function CachedPatterns(text: string, parse: string -> Option<map<string, string>>): map<string, string>
  {
    if text == "" then map[]
    else match parse(text)
      case Some(patterns) => patterns
      case None => map[]
  }

  /** The functions installHooks hooks, in the order it hooks them. */
  function SelectedFunctions(config: Config): seq<string>
  {
    (if config.unlockSharedLibrary then SharedLibraryFunctions else [])
    + (if config.unlockDlc && !config.replicate then DlcFunctions else [])
  }

  /** The shared-library functions come first, and are hooked exactly when
      unlock_shared_library is set; the DLC functions are hooked exactly when
      unlock_dlc is set and replicate is not; nothing else is hooked. */
  lemma SelectionFollowsFlags(config: Config)
    ensures var names := SelectedFunctions(config);
      && (config.unlockSharedLibrary ==> |names| >= 2 && names[..2] == SharedLibraryFunctions)
      && (forall n :: n in SharedLibraryFunctions ==> (n in names <==> config.unlockSharedLibrary))
      && (forall n :: n in DlcFunctions ==> (n in names <==> config.unlockDlc && !config.replicate))
      && (forall n :: n in names ==> n in SharedLibraryFunctions || n in DlcFunctions)
  {
  }

  /** `patterns[name]`: the pattern read for `name`, or the empty string
      operator[] inserts for a missing one. */
  function PatternOf(patterns: map<string, string>, name: string): string
  {
    if name in patterns then patterns[name] else ""
  }

  /** The address scanInternal finds for `name` in the module's image. */
  function ScanAddress(steam: SteamHost, patterns: map<string, string>, name: string): Addr
  {
    steam.scan(steam.moduleBase, steam.moduleSize, PatternOf(patterns, name))
  }

  /** installHook(name): the detour attempt at the scanned address, or no
      attempt when the scan found nothing. */
  function ScanStep(host: Host, steam: SteamHost, patterns: map<string, string>, name: string): (trace: seq<Event>)
    ensures |trace| <= 1
  {
    var address := ScanAddress(steam, patterns, name);
    if address != NULL then Attempts([Detour(address, steam.replacement(name), name)], host.hookSucceeds) else []
  }

  /** The hook attempts of installHook for each name, in order. */
  function ScanAttempts(host: Host, steam: SteamHost, patterns: map<string, string>, names: seq<string>): (trace: seq<Event>)
    ensures |trace| <= |names|
  {
    if names == [] then []
    else ScanStep(host, steam, patterns, names[0]) + ScanAttempts(host, steam, patterns, names[1..])
  }

  /** Hooking `a + b` attempts what hooking `a`, then `b`, attempts. */
  lemma {:induction false} ScanAttemptsAppend(host: Host, steam: SteamHost, patterns: map<string, string>, a: seq<string>, b: seq<string>)
    ensures ScanAttempts(host, steam, patterns, a + b) == ScanAttempts(host, steam, patterns, a) + ScanAttempts(host, steam, patterns, b)
  {
    if a == [] {
      assert a + b == b;
    } else {
      assert (a + b)[0] == a[0];
      assert (a + b)[1..] == a[1..] + b;
      ScanAttemptsAppend(host, steam, patterns, a[1..], b);
    }
  }

  /** Reading a missing pattern inserts "" and so changes no later lookup. */
  lemma PatternOfEnsureKey(patterns: map<string, string>, key: string, name: string)
    ensures PatternOf(EnsureKey(patterns, key, ""), name) == PatternOf(patterns, name)
  {
  }

  /** Inserting the keys of `a + b` is inserting those of `a`, then those
      of `b`. */
  lemma {:induction false} EnsureKeysConcat(patterns: map<string, string>, a: seq<string>, b: seq<string>)
    ensures EnsureKeys(EnsureKeys(patterns, a, ""), b, "") == EnsureKeys(patterns, a + b, "")
    decreases |a|
  {
    if a == [] {
      assert a + b == b;
    } else {
      assert (a + b)[0] == a[0];
      assert (a + b)[1..] == a[1..] + b;
      EnsureKeysConcat(EnsureKey(patterns, a[0], ""), a[1..], b);
    }
  }

  /** Scanning is unaffected by the "" entries that earlier reads inserted. */
  lemma {:induction false} ScanAttemptsEnsureKey(host: Host, steam: SteamHost, patterns: map<string, string>, key: string, names: seq<string>)
    ensures ScanAttempts(host, steam, EnsureKey(patterns, key, ""), names) == ScanAttempts(host, steam, patterns, names)
    decreases |names|
  {
    if names != [] {
      PatternOfEnsureKey(patterns, key, names[0]);
      ScanAttemptsEnsureKey(host, steam, patterns, key, names[1..]);
    }
  }

  lemma {:induction false} ScanAttemptsEnsureKeys(host: Host, steam: SteamHost, patterns: map<string, string>, keys: seq<string>, names: seq<string>)
    ensures ScanAttempts(host, steam, EnsureKeys(patterns, keys, ""), names) == ScanAttempts(host, steam, patterns, names)
    decreases |keys|
  {
    if keys != [] {
      ScanAttemptsEnsureKeys(host, steam, EnsureKey(patterns, keys[0], ""), keys[1..], names);
      ScanAttemptsEnsureKey(host, steam, patterns, keys[0], names);
    }
  }

  /** Every hook installHooks keeps is a Detour of a selected function,
      placed at the non-null address the scanner found for it and redirected
      to that function's replacement. */
  lemma {:induction false} ScanHooksAtFoundAddresses(host: Host, steam: SteamHost, patterns: map<string, string>, names: seq<string>)
    ensures forall h :: h in Installed(ScanAttempts(host, steam, patterns, names)) ==>
      && h.Detour?
      && h.funcName in names
      && h.target == ScanAddress(steam, patterns, h.funcName) != NULL
      && h.detour == steam.replacement(h.funcName)
      && host.hookSucceeds(h)
  {
    if names != [] {
      var address := ScanAddress(steam, patterns, names[0]);
      var head := ScanStep(host, steam, patterns, names[0]);
      var tail := ScanAttempts(host, steam, patterns, names[1..]);
      InstalledAppend(head, tail);
      ScanHooksAtFoundAddresses(host, steam, patterns, names[1..]);
      if address != NULL {
        var h := Detour(address, steam.replacement(names[0]), names[0]);
        if host.hookSucceeds(h) {
          assert Installed(head) == [h];
        } else {
          assert head == [Attempt(h, false)] + Attempts([], host.hookSucceeds);
          assert Installed(head) == [];
        }
      }
    }
  }

  /** The cache file PATTERNS_FILE_PATH; its text is "" when it is missing. */
  class PatternsFile {
    var text: string

    constructor (text: string)
      ensures this.text == text
    {
      this.text := text;
    }
  }

  class SteamClient {
    const base: BasePlatform
    const cache: PatternsFile
    var patterns: map<string, string>
    ghost var steps: seq<Step>
    /** How many times platformInit has run on this object. */
    ghost var platformInitRuns: nat

    /** platformInit has run exactly when the platform is initialised. */
    ghost predicate Valid()
      reads this, base`initialized
    {
      platformInitRuns == if base.initialized then 1 else 0
    }

    constructor (handle: Handle, moduleName: string, platformModule: string, trampolines: TrampolineMap, cache: PatternsFile)
      ensures Valid() && fresh(base)
      ensures base.handle == handle && base.moduleName == moduleName && base.platformModule == platformModule
      ensures base.trampolines == trampolines && this.cache == cache
      ensures base.hooks == [] && base.events == [] && patterns == map[] && steps == []
    {
      base := new BasePlatform.FromHandle(handle, moduleName, platformModule, trampolines);
      this.cache := cache;
      patterns := map[];
      steps := [];
      platformInitRuns := 0;
    }

    /** readCachedPatterns(): clear the patterns, then fill them from the
        cache file; an empty or unparsable file leaves them empty. */
    method ReadCachedPatterns(steam: SteamHost)
      modifies this`patterns, this`steps
      ensures patterns == CachedPatterns(cache.text, steam.parse)
      ensures cache.text == "" ==> patterns == map[]
      ensures steps == old(steps) + [CacheRead]
    {
      patterns := map[];
      steps := steps + [CacheRead];
      var text := cache.text;
      if text == "" {
        return;
      }
      match steam.parse(text)
      case None =>
        return;
      case Some(parsed) =>
        patterns := parsed;
    }

    /** installHook(hookedFunc, funcName): scan for the function's pattern
        and detour it only when the scan found an address. */
    method InstallHook(host: Host, steam: SteamHost, funcName: string)
      modifies this`patterns, base`hooks, base`events, base.trampolines
      ensures patterns == EnsureKey(old(patterns), funcName, "")
      ensures base.Extended(host, ScanStep(host, steam, old(patterns), funcName))
      ensures ScanAddress(steam, old(patterns), funcName) == NULL ==> base.hooks == old(base.hooks)
    {
      patterns := EnsureKey(patterns, funcName, "");
      var pattern := patterns[funcName];
      var address := steam.scan(steam.moduleBase, steam.moduleSize, pattern);
      if address != NULL {
        base.InstallDetourHookAt(host, steam.replacement(funcName), funcName, address);
      }
    }

    /** The HOOK(...) calls of one group: installHook for each name, in
        order. */
    method InstallEach(host: Host, steam: SteamHost, names: seq<string>)
      modifies this`patterns, base`hooks, base`events, base.trampolines
      ensures patterns == EnsureKeys(old(patterns), names, "")
      ensures base.Extended(host, ScanAttempts(host, steam, old(patterns), names))
      decreases |names|
    {
      ghost var p0, s0 := patterns, base.State();
      if names == [] {
        ApplyNothing(s0, host);
        return;
      }
      InstallHook(host, steam, names[0]);
      InstallEach(host, steam, names[1..]);
      ScanAttemptsEnsureKey(host, steam, p0, names[0], names[1..]);
      ApplyAppend(s0, ScanStep(host, steam, p0, names[0]), ScanAttempts(host, steam, p0, names[1..]), host);
    }

    /** installHooks(): the shared-library functions first when
        unlock_shared_library is set, then the DLC functions when unlock_dlc
        is set and replicate is not. */
    method InstallHooks(host: Host, steam: SteamHost, config: Config)
      modifies this`patterns, base`hooks, base`events, base.trampolines
      ensures patterns == EnsureKeys(old(patterns), SelectedFunctions(config), "")
      ensures base.Extended(host, ScanAttempts(host, steam, old(patterns), SelectedFunctions(config)))
    {
      ghost var p0, s0 := patterns, base.State();
      ghost var first: seq<string> := [];
      if config.unlockSharedLibrary {
        InstallEach(host, steam, SharedLibraryFunctions);
        first := SharedLibraryFunctions;
      } else {
        ApplyNothing(s0, host);
      }
      ghost var s1 := base.State();
      ghost var second: seq<string> := [];
      if config.unlockDlc && !config.replicate {
        InstallEach(host, steam, DlcFunctions);
        second := DlcFunctions;
      } else {
        ApplyNothing(s1, host);
      }
      ComposeGroups(host, steam, p0, s0, first, second);
    }

    /** The effect of platformInit, for the configured process name. */
    twostate predicate PlatformInitDone(host: Host, steam: SteamHost, config: Config)
      reads this, base, base.trampolines, cache
    {
      if !steam.stringsAreEqual(steam.currentProcess, config.process, true) then
        && patterns == old(patterns) && steps == old(steps) && cache.text == old(cache.text)
        && base.Extended(host, [])
      else
        var fetch := FetchAndCachePatterns(steam.fetched, steam.writeSucceeds, old(cache.text));
        var cached := CachedPatterns(fetch.cacheText, steam.parse);
        && cache.text == fetch.cacheText
        && steps == old(steps) + [Fetched(fetch.ok), CacheRead] + (if cached == map[] then [FatalError] else [])
        && (cached == map[] ==> patterns == map[] && base.Extended(host, []))
        && (cached != map[] ==>
              && patterns == EnsureKeys(cached, SelectedFunctions(config), "")
              && base.Extended(host, ScanAttempts(host, steam, cached, SelectedFunctions(config))))
    }

    /** platformInit(): outside the Steam process nothing happens; inside it
        the patterns are fetched and cached, read back from the cache, and
        either the hooks are installed or a fatal error is shown. */
    method PlatformInit(host: Host, steam: SteamHost, config: Config)
      modifies this`patterns, this`steps, this`platformInitRuns, cache, base`hooks, base`events, base.trampolines
      ensures platformInitRuns == old(platformInitRuns) + 1
      ensures PlatformInitDone(host, steam, config)
    {
      platformInitRuns := platformInitRuns + 1;
      if !steam.stringsAreEqual(steam.currentProcess, config.process, true) {
        return;
      }
      var fetch := FetchAndCachePatterns(steam.fetched, steam.writeSucceeds, cache.text);
      cache.text := fetch.cacheText;
      steps := steps + [Fetched(fetch.ok)];
      ReadCachedPatterns(steam);
      if patterns != map[] {
        InstallHooks(host, steam, config);
      } else {
        steps := steps + [FatalError];
      }
    }

    /** BasePlatform::init() on the Steam platform: platformInit runs only on
        an uninitialised platform with a module handle, and `initialized` is
        set once it has returned. */
    method Init(host: Host, steam: SteamHost, config: Config)
      requires Valid()
      modifies this`patterns, this`steps, this`platformInitRuns, cache, base`initialized, base`hooks, base`events, base.trampolines
      ensures Valid() && platformInitRuns <= 1
      ensures !old(base.CanInit()) ==>
        && patterns == old(patterns) && steps == old(steps) && platformInitRuns == old(platformInitRuns)
        && cache.text == old(cache.text) && base.initialized == old(base.initialized)
        && base.Extended(host, [])
      ensures old(base.CanInit()) ==> base.initialized && PlatformInitDone(host, steam, config)
    {
      if base.initialized || base.handle == NULL {
        return;
      }
      PlatformInit(host, steam, config);
      base.initialized := true;
    }
  }

  /** installHooks() as two guarded groups: the attempts and the inserted
      keys of `first + second` are those of `first` followed by those of
      `second`. */
  lemma ComposeGroups(host: Host, steam: SteamHost, p0: map<string, string>, s0: HookState, first: seq<string>, second: seq<string>)
    ensures EnsureKeys(EnsureKeys(p0, first, ""), second, "") == EnsureKeys(p0, first + second, "")
    ensures Apply(Apply(s0, ScanAttempts(host, steam, p0, first), host), ScanAttempts(host, steam, EnsureKeys(p0, first, ""), second), host)
            == Apply(s0, ScanAttempts(host, steam, p0, first + second), host)
  {
    EnsureKeysConcat(p0, first, second);
    ScanAttemptsEnsureKeys(host, steam, p0, first, second);
    ScanAttemptsAppend(host, steam, p0, first, second);
    ApplyAppend(s0, ScanAttempts(host, steam, p0, first), ScanAttempts(host, steam, p0, second), host);
  }
}
