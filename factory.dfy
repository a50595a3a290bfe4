/**
 * The plugin factory: its search path, the `open` status machine that loads
 * a library, looks up the factory function, runs the handshake and records
 * the outcome, and the advisory reference counter.
 *
 * The operating system is injected: a FileSystem says which paths can be
 * read (the std::ifstream probe) and which exist (stat), a Loader says what
 * the library handle answers (open, getSymbol, error), and the environment is
 * a map from variable names to values.
 */
module SharedLibraryFactory {
  import Common
  import opened Abi
  import SearchPath
  import Discovery

  type int32 = Common.int32

  /** The factory's status after an `open`, as the source numbers them. */
  datatype Status = None | OK | LibraryNotFound | LibraryNotLoaded | FactoryNotFound | FactoryNotFunctional

  /** How the factory sees the file system. */
  datatype FileSystem = FileSystem(
    readable: string -> bool,  // std::ifstream(path) opens the file
    present: string -> bool)   // stat(path) succeeds

  /** How the library handle answers. */
  datatype Loader = Loader(
    opens: string -> bool,                            // SharedLibrary::open(path) succeeds
    openError: string -> string,                      // error() after a failed open of path
    symbol: (string, string) -> Common.Option<Hook>,  // getSymbol(name) in the library at path
    symbolError: (string, string) -> string)          // error() after a failed lookup

  /** The error text recorded when the handshake fails. */
  const HookMisbehaved := "Hook in shared library misbehaved"

  /** The environment variable consulted for extra search directories unless another is set. */
  const DefaultPluginPathEnvVar := "SHLIBPP_PLUGIN_PATH"

  /** The part of the factory's state that `open` decides. */
  datatype Outcome = Outcome(
    status: Status,
    error: string,
    name: string,
    className: string,
    baseClassName: string,
    returnValue: int32,
    api: ClassApi,
    library: Common.Option<string>)  // the path of the loaded image, if one is loaded

  /**
   * The outcome of `open` once the path to load is known: the library is
   * opened, the factory symbol looked up, the factory function run on the
   * descriptor `cleared` (the previous one with its leading sentinel already
   * cleared) and the result checked. The first stage that fails decides the
   * status. Every outcome has a status other than None; OK is only
   * recorded for a handshake that passes, and the loaded image is always
   * the path that was opened.
   */
  function OpenOutcome(dllName: string, path: string, fs: FileSystem, loader: Loader, symbolName: string,
                       cleared: ClassApi, e: Expected): (o: Outcome)
    ensures o.status != Status.None
    ensures o.status == OK ==> Accepts(o.returnValue, o.api, e) && o.name == dllName
    ensures o.library.Some? ==> o.library.value == path
  {
    if !loader.opens(path) then
      var status := if !fs.present(path) then LibraryNotFound else LibraryNotLoaded;
      Outcome(status, loader.openError(path), "", "", "", 0, cleared, Common.None)
    else
      match loader.symbol(path, symbolName)
      case None =>
        Outcome(FactoryNotFound, loader.symbolError(path, symbolName), "", "", "", 0, cleared, Common.None)
      case Some(hook) =>
        var (rv, filled) := hook(cleared, e.structureSize);
        if !Accepts(rv, filled, e) then
          Outcome(FactoryNotFunctional, HookMisbehaved, "", "", "", rv, filled, Common.Some(path))
        else
          Outcome(OK, "", dllName, filled.className, filled.baseClassName, rv, filled, Common.Some(path))
  }

  /**
   * Each status of `open` arises exactly under its condition, with the error
   * text of the stage that failed; only a success records the names; a library
   * stays loaded only after OK or FactoryNotFunctional; a failure before the
   * factory function runs leaves the descriptor and the return value as they
   * were reset; and with a non-zero leading sentinel, OK coincides with the
   * handshake check on the recorded state.
   */
  lemma OpenOutcomeStages(dllName: string, path: string, fs: FileSystem, loader: Loader, symbolName: string,
                          cleared: ClassApi, e: Expected)
    ensures var o := OpenOutcome(dllName, path, fs, loader, symbolName, cleared, e);
      && (o.status == LibraryNotFound <==> !loader.opens(path) && !fs.present(path))
      && (o.status == LibraryNotLoaded <==> !loader.opens(path) && fs.present(path))
      && (o.status == FactoryNotFound <==> loader.opens(path) && loader.symbol(path, symbolName).None?)
      && (o.status == OK <==>
            loader.opens(path) && loader.symbol(path, symbolName).Some? && Accepts(o.returnValue, o.api, e))
      && (!loader.opens(path) ==> o.error == loader.openError(path))
      && (o.status == FactoryNotFound ==> o.error == loader.symbolError(path, symbolName))
      && (o.status == FactoryNotFunctional ==> o.error == HookMisbehaved)
      && (o.status == OK ==>
            o.error == "" && o.name == dllName && o.className == o.api.className
            && o.baseClassName == o.api.baseClassName)
      && (o.status != OK ==> o.name == "" && o.className == "" && o.baseClassName == "")
      && o.library == (if o.status in {OK, FactoryNotFunctional} then Common.Some(path) else Common.None)
      && (o.status in {LibraryNotFound, LibraryNotLoaded, FactoryNotFound} ==>
            o.returnValue == 0 && o.api == cleared)
      && (loader.opens(path) && loader.symbol(path, symbolName).Some? ==>
            (o.returnValue, o.api) == loader.symbol(path, symbolName).value(cleared, e.structureSize))
      && (e.startCheck != 0 && cleared.startCheck == 0 ==> (o.status == OK <==> Accepts(o.returnValue, o.api, e)))
  {
  }

  /**
   * With a zero leading sentinel the cleared descriptor no longer tells a
   * failed `open` apart: when the library cannot even be loaded, the
   * descriptor left over from an earlier successful handshake still passes
   * the check.
   */
  lemma StaleDescriptorAccepted(dllName: string, path: string, fs: FileSystem, loader: Loader, symbolName: string,
                                previous: ClassApi, e: Expected)
    requires e.startCheck == 0 && !loader.opens(path)
    requires previous.structureSize == e.structureSize && previous.systemVersion == e.systemVersion
    requires previous.endCheck == e.endCheck
    ensures OpenOutcome(dllName, path, fs, loader, symbolName, previous.(startCheck := 0), e).status != OK
    ensures Accepts(OpenOutcome(dllName, path, fs, loader, symbolName, previous.(startCheck := 0), e).returnValue,
                    OpenOutcome(dllName, path, fs, loader, symbolName, previous.(startCheck := 0), e).api, e)
  {
  }

  class Factory {
    const platform: Common.Platform
    const apiSize: int32               // sizeof(SharedLibraryClassApi) as the host compiled it
    const defaultFactoryName: string   // the symbol looked up when no factory name is given

    var status: Status
    var api: ClassApi
    var returnValue: int32
    var rct: int
    var name: string
    var className: string
    var baseClassName: string
    var error: string
    var startCheck: int32
    var endCheck: int32
    var systemVersion: int32
    var factoryName: Common.Option<string>
    var extendedPath: seq<string>
    var pluginPathEnvVar: string
    var library: Common.Option<string>  // the library handle: the path of the loaded image, if any

    /** The object invariant: the search path has no duplicate entry. */
    ghost predicate Valid()
      reads this`extendedPath
    {
      SearchPath.NoDuplicates(extendedPath)
    }

    /** The host's expectations for the handshake. */
    function Expectations(): Expected
      reads this`startCheck, this`endCheck, this`systemVersion
    {
      Expected(startCheck, endCheck, systemVersion, apiSize)
    }

    /** isValid(): the handshake check, evaluated on the current state. */
    predicate IsValid()
      reads this`returnValue, this`api, this`startCheck, this`endCheck, this`systemVersion
    {
      Accepts(returnValue, api, Expectations())
    }

    /** The fields `open` decides. */
    function State(): Outcome
      reads this`status, this`error, this`name, this`className, this`baseClassName
      reads this`returnValue, this`api, this`library
    {
      Outcome(status, error, name, className, baseClassName, returnValue, api, library)
    }

    /** The symbol `open` looks up. */
    function SymbolName(): string
      reads this`factoryName
    {
      match factoryName
      case Some(n) => n
      case None => defaultFactoryName
    }

    /** The plugin-path variable, if set, has no empty entry (see ExtendSearchPath). */
    predicate EnvUsable(env: map<string, string>)
      reads this`pluginPathEnvVar
    {
      pluginPathEnvVar in env ==> SearchPath.NoEmptySegment(env[pluginPathEnvVar], Common.EnvDelimiter(platform))
    }

    function GetStatus(): Status reads this`status { status }
    function GetError(): string reads this`error { error }
    function GetName(): string reads this`name { name }
    function GetClassName(): string reads this`className { className }
    function GetBaseClassName(): string reads this`baseClassName { baseClassName }
    function GetApi(): ClassApi reads this`api { api }
    function GetReferenceCount(): int reads this`rct { rct }

    /** A factory with nothing opened: status None, a zeroed descriptor, one reference. */
    constructor (platform: Common.Platform, apiSize: int32, defaultFactoryName: string,
                 startCheck: int32, endCheck: int32, systemVersion: int32, factoryName: Common.Option<string>)
      requires apiSize > 0
      ensures Valid()
      ensures this.platform == platform && this.apiSize == apiSize && this.defaultFactoryName == defaultFactoryName
      ensures this.startCheck == startCheck && this.endCheck == endCheck && this.systemVersion == systemVersion
      ensures this.factoryName == factoryName
      ensures State() == Outcome(Status.None, "", "", "", "", 0, Zeroed, Common.None)
      ensures rct == 1 && extendedPath == [] && pluginPathEnvVar == DefaultPluginPathEnvVar
      ensures startCheck != 0 ==> !IsValid()
    {
      this.platform := platform;
      this.apiSize := apiSize;
      this.defaultFactoryName := defaultFactoryName;
      this.startCheck := startCheck;
      this.endCheck := endCheck;
      this.systemVersion := systemVersion;
      this.factoryName := factoryName;
      status := Status.None;
      returnValue := 0;
      rct := 1;
      api := Zeroed;
      name, className, baseClassName, error := "", "", "", "";
      extendedPath := [];
      pluginPathEnvVar := DefaultPluginPathEnvVar;
      library := Common.None;
    }

    /** A factory constructed and then opened on `dllName` straight away. */
    constructor Opening(dllName: string, platform: Common.Platform, apiSize: int32, defaultFactoryName: string,
                        startCheck: int32, endCheck: int32, systemVersion: int32,
                        factoryName: Common.Option<string>,
                        env: map<string, string>, fs: FileSystem, loader: Loader)
      requires apiSize > 0
      requires DefaultPluginPathEnvVar in env ==>
        SearchPath.NoEmptySegment(env[DefaultPluginPathEnvVar], Common.EnvDelimiter(platform))
      ensures Valid()
      ensures this.platform == platform && this.apiSize == apiSize && this.defaultFactoryName == defaultFactoryName
      ensures this.startCheck == startCheck && this.endCheck == endCheck && this.systemVersion == systemVersion
      ensures this.factoryName == factoryName
      ensures rct == 1 && pluginPathEnvVar == DefaultPluginPathEnvVar
      ensures extendedPath == SearchPath.ReadEnvironment([], env, DefaultPluginPathEnvVar, Common.EnvDelimiter(platform))
      ensures State() == OpenOutcome(dllName, Discovery.LoadPath(dllName, extendedPath, platform, fs.readable),
                                     fs, loader, SymbolName(), Zeroed, Expectations())
    {
      this.platform := platform;
      this.apiSize := apiSize;
      this.defaultFactoryName := defaultFactoryName;
      this.startCheck := startCheck;
      this.endCheck := endCheck;
      this.systemVersion := systemVersion;
      this.factoryName := factoryName;
      status := Status.None;
      returnValue := 0;
      rct := 1;
      api := Zeroed;
      name, className, baseClassName, error := "", "", "", "";
      extendedPath := [];
      pluginPathEnvVar := DefaultPluginPathEnvVar;
      library := Common.None;
      new;
      var _ := Open(dllName, env, fs, loader);
    }

    /**
     * extendSearchPath: drop one trailing separator, then append the
     * directory unless an equal entry is already stored.
     */
    method ExtendSearchPath(path: string)
      requires Valid() && |path| > 0
      modifies this`extendedPath
      ensures Valid()
      ensures extendedPath == SearchPath.Extend(old(extendedPath), path)
    {
      var pathToAdd := path;
      if Common.IsSeparator(pathToAdd[|pathToAdd| - 1]) {
        pathToAdd := pathToAdd[..|pathToAdd| - 1];
      }
      for i := 0 to |extendedPath|
        invariant forall k :: 0 <= k < i ==> extendedPath[k] != pathToAdd
      {
        if extendedPath[i] == pathToAdd {
          return;
        }
      }
      extendedPath := extendedPath + [pathToAdd];
    }

    /**
     * readExtendedPathFromEnvironment: when the plugin-path variable is set,
     * read its value segment by segment and add each one to the search path.
     */
    method ReadExtendedPathFromEnvironment(env: map<string, string>)
      requires Valid() && EnvUsable(env)
      modifies this`extendedPath
      ensures Valid()
      ensures extendedPath ==
        SearchPath.ReadEnvironment(old(extendedPath), env, pluginPathEnvVar, Common.EnvDelimiter(platform))
    {
      if pluginPathEnvVar !in env {
        return;
      }
      var content := env[pluginPathEnvVar];
      var delim := Common.EnvDelimiter(platform);
      var pos := 0;
      assert content[pos..] == content;
      while true
        invariant pos <= |content|
        invariant Valid()
        invariant SearchPath.AllNonEmpty(SearchPath.Segments(content[pos..], delim))
        invariant SearchPath.ExtendAll(extendedPath, SearchPath.Segments(content[pos..], delim)) ==
                  SearchPath.ExtendAll(old(extendedPath), SearchPath.Segments(content, delim))
        decreases |content| - pos
      {
        var more, path, next := SearchPath.GetLine(content, pos, delim);
        if !more {
          break;
        }
        ghost var rest := SearchPath.Segments(content[next..], delim);
        assert ([path] + rest)[0] == path && ([path] + rest)[1..] == rest;
        ExtendSearchPath(path);
        pos := next;
      }
    }

    /**
     * findLibraryInExtendedPath: for each stored directory, and for each file
     * name of the platform, return the first path that can be opened.
     */
    method FindLibraryInExtendedPath(libraryName: string, readable: string -> bool) returns (found: string)
      ensures found == Discovery.Resolve(libraryName, extendedPath, platform, readable)
    {
      if Discovery.HasSeparator(libraryName) {
        return "";
      }
      var sep := Common.PathSeparator(platform);
      ghost var names0 := Discovery.LibNames(libraryName, platform);
      for i := 0 to |extendedPath|
        invariant Discovery.Resolve(libraryName, extendedPath, platform, readable) ==
                  Discovery.SearchResultFrom(extendedPath, names0, sep, readable, i, 0)
      {
        var names := Discovery.LibNames(libraryName, platform);
        for j := 0 to |names|
          invariant Discovery.Resolve(libraryName, extendedPath, platform, readable) ==
                    Discovery.SearchResultFrom(extendedPath, names, sep, readable, i, j)
        {
          var absolutePath := extendedPath[i] + sep + names[j];
          Discovery.SearchStep(extendedPath, names, sep, readable, i, j);
          if readable(absolutePath) {
            return absolutePath;
          }
        }
        Discovery.SearchStep(extendedPath, names, sep, readable, i, |names|);
      }
      Discovery.SearchStep(extendedPath, names0, sep, readable, |extendedPath|, 0);
      return "";
    }

    /**
     * useFactoryFunction: clear the descriptor's leading sentinel; with no
     * function report failure; otherwise run the function on the descriptor,
     * keep what it returns and what it wrote, and report the handshake check.
     */
    method UseFactoryFunction(factory: Common.Option<Hook>) returns (functional: bool)
      modifies this`api, this`returnValue
      ensures factory.None? ==> !functional && api == old(api).(startCheck := 0) && returnValue == old(returnValue)
      ensures factory.Some? ==> (returnValue, api) == factory.value(old(api).(startCheck := 0), apiSize)
      ensures functional == (factory.Some? && IsValid())
      ensures startCheck != 0 && !functional ==> !IsValid()
    {
      api := api.(startCheck := 0);
      if factory.None? {
        return false;
      }
      var (rv, filled) := factory.value(api, apiSize);
      returnValue := rv;
      api := filled;
      functional := IsValid();
    }

    /**
     * open: reset what a previous open left, extend the search path from the
     * environment, resolve the library's path, then load it (LoadResolved).
     */
    method Open(dllName: string, env: map<string, string>, fs: FileSystem, loader: Loader) returns (ok: bool)
      requires Valid() && EnvUsable(env)
      modifies this`status, this`error, this`name, this`className, this`baseClassName
      modifies this`returnValue, this`api, this`extendedPath, this`library
      ensures Valid()
      ensures extendedPath ==
        SearchPath.ReadEnvironment(old(extendedPath), env, pluginPathEnvVar, Common.EnvDelimiter(platform))
      ensures State() == OpenOutcome(dllName, Discovery.LoadPath(dllName, extendedPath, platform, fs.readable),
                                     fs, loader, SymbolName(), old(api).(startCheck := 0), Expectations())
      ensures ok <==> status == OK
      ensures ok ==> IsValid()
      ensures !ok && startCheck != 0 ==> !IsValid()
    {
      Reset();
      ReadExtendedPathFromEnvironment(env);
      var pathToLib := FindLibraryInExtendedPath(dllName, fs.readable);
      if pathToLib == "" {
        pathToLib := dllName;
      }
      assert pathToLib == Discovery.LoadPath(dllName, extendedPath, platform, fs.readable);
      ok := LoadResolved(dllName, pathToLib, fs, loader);
    }

    /** The first step of open: forget what a previous open recorded and clear the leading sentinel. */
    method Reset()
      modifies this`status, this`error, this`name, this`className, this`baseClassName
      modifies this`returnValue, this`api
      ensures returnValue == 0 && api == old(api).(startCheck := 0) && status == Status.None
      ensures error == "" && name == "" && className == "" && baseClassName == ""
    {
      returnValue := 0;
      name := "";
      className := "";
      baseClassName := "";
      status := Status.None;
      error := "";
      api := api.(startCheck := 0);
    }

    /**
     * The stages of open after the path is resolved: load the library, look
     * up the factory function, run the handshake, and record the first
     * failure or the success. Expects the state open has just reset.
     */
    method LoadResolved(dllName: string, pathToLib: string, fs: FileSystem, loader: Loader) returns (ok: bool)
      requires returnValue == 0 && api.startCheck == 0
      requires error == "" && name == "" && className == "" && baseClassName == ""
      modifies this`status, this`error, this`name, this`className, this`baseClassName
      modifies this`returnValue, this`api, this`library
      ensures State() == OpenOutcome(dllName, pathToLib, fs, loader, SymbolName(), old(api), Expectations())
      ensures ok <==> status == OK
      ensures ok ==> IsValid()
      ensures !ok && startCheck != 0 ==> !IsValid()
    {
      if !loader.opens(pathToLib) {
        library := Common.None;
        if !fs.present(pathToLib) {
          status := LibraryNotFound;
        } else {
          status := LibraryNotLoaded;
        }
        error := loader.openError(pathToLib);
        return false;
      }
      library := Common.Some(pathToLib);
      var fn := loader.symbol(pathToLib, SymbolName());
      if fn.None? {
        status := FactoryNotFound;
        error := loader.symbolError(pathToLib, SymbolName());
        library := Common.None;
        return false;
      }
      var functional := UseFactoryFunction(fn);
      if !functional {
        status := FactoryNotFunctional;
        error := HookMisbehaved;
        return false;
      }
      status := OK;
      name := dllName;
      className := api.className;
      baseClassName := api.baseClassName;
      return true;
    }

    /** The public open that first replaces the handshake constants and the factory name. */
    method OpenWithChecks(dllName: string, startCheck: int32, endCheck: int32, systemVersion: int32,
                          factoryName: Common.Option<string>,
                          env: map<string, string>, fs: FileSystem, loader: Loader) returns (ok: bool)
      requires Valid() && EnvUsable(env)
      modifies this`startCheck, this`endCheck, this`systemVersion, this`factoryName
      modifies this`status, this`error, this`name, this`className, this`baseClassName
      modifies this`returnValue, this`api, this`extendedPath, this`library
      ensures this.startCheck == startCheck && this.endCheck == endCheck && this.systemVersion == systemVersion
      ensures this.factoryName == factoryName
      ensures Valid()
      ensures extendedPath ==
        SearchPath.ReadEnvironment(old(extendedPath), env, pluginPathEnvVar, Common.EnvDelimiter(platform))
      ensures State() == OpenOutcome(dllName, Discovery.LoadPath(dllName, extendedPath, platform, fs.readable),
                                     fs, loader, SymbolName(), old(api).(startCheck := 0), Expectations())
      ensures ok <==> status == OK
      ensures ok ==> IsValid()
      ensures !ok && startCheck != 0 ==> !IsValid()
    {
      this.startCheck := startCheck;
      this.endCheck := endCheck;
      this.systemVersion := systemVersion;
      this.factoryName := factoryName;
      ok := Open(dllName, env, fs, loader);
    }

    /** setPluginPathEnvVarName: the variable the next open consults. */
    method SetPluginPathEnvVarName(envVar: string)
      modifies this`pluginPathEnvVar
      ensures pluginPathEnvVar == envVar
    {
      pluginPathEnvVar := envVar;
    }

    /** addRef: one more holder; returns the new count. */
    method AddRef() returns (count: int)
      modifies this`rct
      ensures rct == old(rct) + 1 && count == rct
    {
      rct := rct + 1;
      count := rct;
    }

    /** removeRef: one holder fewer; returns the new count. Nothing else happens at zero. */
    method RemoveRef() returns (count: int)
      modifies this`rct
      ensures rct == old(rct) - 1 && count == rct
    {
      rct := rct - 1;
      count := rct;
    }
  }
}
