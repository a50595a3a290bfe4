# sharedlibpp plugin factory — a Dafny model

This project models the plugin factory of sharedlibpp (`SharedLibraryFactory`
and its private implementation). The factory:

- keeps a list of extra search directories. Entries are added one at a time
  (`extendSearchPath`) or all at once from a plugin-path environment variable
  (`readExtendedPathFromEnvironment`).
- finds a library's file by trying the platform's file-name variants in
  every directory (`platformSpecificLibName`, `findLibraryInExtendedPath`).
- loads the library and looks up its factory function.
- runs the handshake with that function (`useFactoryFunction`, `isValid`):
  the function fills in the class descriptor. The host checks that the value
  the function returns equals its leading sentinel, and that the descriptor's
  two sentinels, its byte size and its system version match its own.
- records the outcome as a status (`open`).
- keeps an advisory reference counter (`addRef`, `removeRef`).

Modules:

- `Common`: 32-bit integers, an option type and the platform. The platform
  is Linux, macOS, or Windows in a debug or a release build. It decides the
  path separator and the delimiter of the environment variable.
- `SearchPath`: how a directory is normalised and added, and how
  `std::getline` cuts the environment value into entries. `GetLine` is the
  imperative scan, proved against the `Segments` specification.
- `Discovery`: the file-name variants, and the nested search, specified as
  "the first readable candidate, directories first, then variants".
- `Abi`: the descriptor and the handshake check.
- `SharedLibraryFactory`: the class `Factory`. Its fields are the
  implementation's fields. Its methods update them in place, and each method
  is proved against a pure specification. The specification of `open`,
  once the path is known, is `OpenOutcome`.

The operating system is a parameter:

- `FileSystem.readable` says whether `std::ifstream(path)` opens.
- `FileSystem.present` says whether `stat(path)` succeeds.
- A `Loader` says whether the dynamic loader opens a path, which factory
  function a symbol lookup yields, and what the loader's error text is.
- The process environment is a map from variable names to values.
- The factory function is a function from the descriptor and the byte size
  to the returned value and the filled-in descriptor.

## Model

| member | source | states |
|---|---|---|
| SearchPath.Normalize | src/SharedLibraryFactory.cpp:209-213 | the stored directory is the argument with exactly one trailing '/' or '\' removed when it ends in one, and is otherwise the argument unchanged |
| SearchPath.Extend | src/SharedLibraryFactory.cpp:207-222 | the old list stays a prefix; the list grows by one exactly when the normalised directory was absent; its entries are the old ones plus that directory; a duplicate-free list stays duplicate-free |
| SearchPath.ExtendIdempotent | src/SharedLibraryFactory.cpp:207-222 | adding the same directory twice gives the list adding it once gives |
| SearchPath.ExtendAllProperties | src/SharedLibraryFactory.cpp:241-243 | adding entries left to right keeps the old list as a prefix and keeps it duplicate-free; the result holds exactly the old entries and the normalised new ones |
| SearchPath.ExtendAllKnown | src/SharedLibraryFactory.cpp:215-219 | adding entries that are all already stored changes nothing |
| SearchPath.ExtendAllTwice | src/SharedLibraryFactory.cpp:224-243 | reading the same variable value a second time leaves the search path as the first read left it |
| SearchPath.Segments | src/SharedLibraryFactory.cpp:241 | the strings `std::getline` delivers contain no delimiter, and there are none exactly when the value is empty |
| SearchPath.SegmentsJoin | src/SharedLibraryFactory.cpp:233-243 | joining the segments with the delimiter gives back the value, less its last character when that is a delimiter: the split loses nothing else |
| SearchPath.ReadEnvironment | src/SharedLibraryFactory.cpp:224-243 | an unset variable leaves the list unchanged; a duplicate-free list stays duplicate-free |
| SearchPath.ReadEnvironmentEntries | src/SharedLibraryFactory.cpp:224-243 | when the variable is set, the old list stays a prefix and the new entries are exactly the normalised segments of its value |
| SearchPath.GetLine | src/SharedLibraryFactory.cpp:241 | one `getline` call fails exactly at the end of the stream; otherwise it returns the first segment of the rest of the stream and moves past it and its delimiter |
| Discovery.LibNames | src/SharedLibraryFactory.cpp:87-103 | three names are tried on Windows and one elsewhere, and on every platform the last is `lib<name>` with the platform's extension |
| Discovery.LibNamesShape | src/SharedLibraryFactory.cpp:87-103 | the variants are all distinct and all end in the platform's extension; `lib<name>.so` on Linux and `lib<name>.dylib` on macOS; on Windows the `d`-suffixed name comes first in a debug build and second in a release build |
| Discovery.SearchFromCorrect | src/SharedLibraryFactory.cpp:112-122 | the nested search from a position stops at the first readable candidate at or after it in directory-then-variant order, and finds nothing exactly when no later candidate is readable |
| Discovery.SearchResultCorrect | src/SharedLibraryFactory.cpp:112-122 | the search from the first pair returns a readable candidate that no readable candidate precedes, or the empty string when no candidate is readable |
| Discovery.Resolve | src/SharedLibraryFactory.cpp:105-110 | a name containing '/' or '\' is never searched for: the result is empty |
| Discovery.ResolveIsFirstHit | src/SharedLibraryFactory.cpp:105-123 | for a bare name, the result is the first readable `directory + separator + variant`, or empty when none is readable |
| Discovery.LoadPath | src/SharedLibraryFactory.cpp:136-140 | the path handed to the loader is the requested name when it contains a separator or the search path is empty; for a bare name it is the requested name exactly when no candidate is readable; otherwise it is the first readable candidate in directory-then-variant order |
| Discovery.FoundHasSeparator | src/SharedLibraryFactory.cpp:114-117 | a candidate the search returns contains the path separator, so it can never be mistaken for the bare name it was found for |
| Discovery.FoundAfterExtend | src/SharedLibraryFactory.cpp:207-222 | when no candidate can be read in the stored directories and the first variant can be read in a newly added one, the library is loaded from the new directory |
| Abi.Accepts | src/SharedLibraryFactory.cpp:176-194 | the check passes exactly when the returned value and the descriptor's leading sentinel equal the host's leading sentinel, and the byte size, the version and the trailing sentinel match as well |
| Abi.SingleMismatchRejected | src/SharedLibraryFactory.cpp:176-194 | changing any one of the five checked values of a passing handshake makes it fail |
| Abi.ClearedRejected | src/SharedLibraryFactory.cpp:181-183 | a descriptor whose leading sentinel is zero fails whenever the host's leading sentinel is non-zero |
| SharedLibraryFactory.OpenOutcome | src/SharedLibraryFactory.cpp:142-173 | an outcome never has status None; OK records the requested name and only comes with a passing handshake; a loaded image is always the path that was opened |
| SharedLibraryFactory.OpenOutcomeStages | src/SharedLibraryFactory.cpp:142-173 | each status arises exactly under its condition: LibraryNotFound when loading fails and the file does not exist; LibraryNotLoaded when loading fails and it exists; FactoryNotFound when the symbol is missing; OK when the handshake passes. Each failure records the loader's error or the fixed "Hook in shared library misbehaved". Only OK records the names. A library stays loaded only after OK or FactoryNotFunctional. The hook's answer is what is recorded. With a non-zero leading sentinel, OK coincides with the handshake check |
| SharedLibraryFactory.StaleDescriptorAccepted | src/SharedLibraryFactory.cpp:127-133 | with a zero leading sentinel, a failed load leaves the status non-OK, yet a descriptor left over from an earlier handshake still passes the check |
| SharedLibraryFactory.Factory.constructor | src/SharedLibraryFactory.cpp:72-85 | for a positive descriptor size: status None, a zeroed descriptor, return value 0, one reference, an empty search path, the default variable `SHLIBPP_PLUGIN_PATH`, no library loaded; with a non-zero leading sentinel the handshake check fails |
| SharedLibraryFactory.Factory.Opening | src/SharedLibraryFactory.cpp:254-262 | construction followed by an open: the search path is what reading the default variable gives, and the recorded outcome is the specification of open from the zeroed descriptor |
| SharedLibraryFactory.Factory.ExtendSearchPath | src/SharedLibraryFactory.cpp:207-222 | the scan-and-append loop leaves exactly `Extend(old list, path)` and keeps the search path duplicate-free |
| SharedLibraryFactory.Factory.ReadExtendedPathFromEnvironment | src/SharedLibraryFactory.cpp:224-243 | the `getline` loop leaves exactly `ReadEnvironment(old list, environment, variable, delimiter)` |
| SharedLibraryFactory.Factory.FindLibraryInExtendedPath | src/SharedLibraryFactory.cpp:105-123 | the nested loops with an early return compute `Resolve`, the first-hit specification |
| SharedLibraryFactory.Factory.UseFactoryFunction | src/SharedLibraryFactory.cpp:196-205 | the leading sentinel is cleared; with no function it reports failure and leaves the return value unchanged; otherwise it records what the function returns and writes, and reports exactly the handshake check |
| SharedLibraryFactory.Factory.Reset | src/SharedLibraryFactory.cpp:127-133 | the return value, the status, the error and the three names are cleared, and the descriptor's leading sentinel is zeroed; the rest of the descriptor is kept |
| SharedLibraryFactory.Factory.Open | src/SharedLibraryFactory.cpp:125-174 | the search path is what reading the variable gives; the recorded outcome is `OpenOutcome` for the path `LoadPath` picks, from the previous descriptor with its leading sentinel cleared; the result is true exactly when the status is OK; true implies the handshake check holds, and with a non-zero leading sentinel false implies it fails |
| SharedLibraryFactory.Factory.LoadResolved | src/SharedLibraryFactory.cpp:142-173 | from the reset state, the staged load records exactly `OpenOutcome` for the given path; the result is true exactly when the status is OK |
| SharedLibraryFactory.Factory.OpenWithChecks | src/SharedLibraryFactory.cpp:279-290 | the three handshake constants and the factory name are replaced, then open behaves as above |
| SharedLibraryFactory.Factory.SetPluginPathEnvVarName | src/SharedLibraryFactory.cpp:301-304 | the next open consults the given variable |
| SharedLibraryFactory.Factory.AddRef | src/SharedLibraryFactory.cpp:336-340 | the count goes up by one, and the new count is returned |
| SharedLibraryFactory.Factory.RemoveRef | src/SharedLibraryFactory.cpp:342-346 | the count goes down by one, and the new count is returned; nothing else happens at zero |

The getters (`getStatus`, `getError`, `getName`, `getClassName`,
`getBaseClassName`, `getApi`, `getReferenceCount`, src/SharedLibraryFactory.cpp:316-361)
are the functions `Factory.GetStatus` … `Factory.GetReferenceCount`. Each
returns one field. The public `isValid`, `extendSearchPath` and
`useFactoryFunction` forward to `Factory.IsValid`, `Factory.ExtendSearchPath`
and `Factory.UseFactoryFunction`.

## Left out

- File-system probing, dynamic loading, symbol lookup and the loader's error
  texts are injected predicates and functions. How `SharedLibrary` opens,
  closes and unloads a library is not part of this model. Its handle is a
  field that holds the path of the loaded image, if any.
- `sizeof(SharedLibraryClassApi)` and `SHLIBPP_DEFAULT_FACTORY_NAME_STRING`
  come from headers that are not part of this model. They are the
  constructor parameters `apiSize` and `defaultFactoryName`. The constructors
  require `apiSize` to be positive, as the size of any structure is.
- The constructor and the `open` overload that take `SHLIBPP_DEFAULT_START_CHECK`,
  `SHLIBPP_DEFAULT_END_CHECK` and `SHLIBPP_DEFAULT_SYSTEM_VERSION`
  (src/SharedLibraryFactory.cpp:264-272 and 292-299) are left out. Those
  values are defined in a header that is not part of this model. Apart from
  the values they use, they behave like `Opening` and `OpenWithChecks`.
- The descriptor's four function-pointer slots are not modelled. Only the
  class names that `getClassName`/`getBaseClassName` write are kept.
- SharedLibraryFactory.Factory.LoadResolved: does not model the 256-byte
  buffer the class names are copied through. Names longer than the buffer,
  and names the plugin does not terminate, are not captured.
- SharedLibraryFactory.Factory.ExtendSearchPath: requires a non-empty path.
  The implementation reads the last character of the path unconditionally,
  which is undefined for an empty string.
- SharedLibraryFactory.Factory.ReadExtendedPathFromEnvironment: requires that
  the variable's value has no empty entry (a leading delimiter or two
  adjacent ones). Such an entry would reach `extendSearchPath` as an empty
  string, with the same undefined behaviour.
- SharedLibraryFactory.Factory.AddRef: the counter is an unbounded integer.
  Overflow of the C++ `int` is undefined behaviour and is not modelled.
- The plugin's factory function is a pure function of the descriptor and the
  size. Side effects of plugin code, and functions that write outside the
  descriptor, are not modelled.
- Concurrency: the factory is not thread-safe and the model is sequential.
- The destructor, the typed `SharedLibraryClassFactory` wrapper
  (include/SharedLibraryClassFactory.h), the example program and the version
  query are outside this model.
