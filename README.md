# jerrors in Dafny

A model of the leveled-error vocabulary of the Go package `jerrors`:

- **Levels** (`levels.go`): `Level` is an integer; DEBUG..FATAL are 1..5 and 0
  means "unset". Parsing from a name (case-insensitive, unknown names give 0),
  printing through the `LevelStrings` map (levels without an entry print as
  ""), and the equality-based predicates `NotDebug`, `IsError`, `IsFatal`.
- **Configuration** (`config.go`): the `Config` record, its defaults, and the
  package-level store whose setter replaces an unset `LoggingLevel` by INFO
  (class `ConfigStore`, with `init` as its constructor).
- **LeveledError** (`error.go`): the `Error` value; `NewError` driven by the
  configuration; `AddMetadata`, the loop that folds a flat `k1, v1, k2, v2, ...`
  list into the metadata map (`Pairs` is its specification); `Equal`, which
  ignores the timestamp; `String`, which encodes a copy whose level is zeroed
  when levels are not recorded; the `Log` and `Fatal` gates.
- **ErrorList** (`lists.go`): class `List` holding `errors: seq<Error>` and a
  cached `level`. `Consistent()` says the cached level is the maximum of the
  stored levels (`MaxLevel`, 0 for none); `Add`, `Stack`, `Append`, `Clear`
  and `Log` preserve or establish it, `SetLevel` is the explicit override.
  `MarshalArray` is proved to return the renderings of exactly the errors at or
  above the logging level, in order (`Visible`).
- **LegacyError** (`errors.go`): the older, incompatible `Error`/`New`. Its
  metadata loop (`Chain`) pairs every element with the next one, `String`
  zeroes the receiver's own level, and `Log` writes only at exactly the
  logging level.

Modelling conventions:

- Go's `Error` structs are values; the methods with pointer receivers that
  change them (`AddMetadata`, `Fatal`, and in the older variant `String`,
  `SetLevel`, `Log`, `Fatal`) are methods that return the updated value.
- Log output is the class `Sinks.Sink`: a ghost sequence of written lines and
  an `exited` flag set by `log.Fatal*`.
- The clock is a parameter `now` (an error's time is `Some(now)` or `None`);
  the stack-inspected caller string is a parameter `caller`; the JSON encoder
  is a parameter `marshal: Error -> string`; `fmt.Sprint`ed arguments are
  strings.
- `lists.go` and `errors.go` read package variables `loggingLevel`, `logTime`,
  `logCaller` and `logLevel` that no shown file declares: they are parameters.
  The list stores error.go's `Error`; its renderings use error.go's `String`
  (whose level flag comes from the configuration). Because `MarshalArray`
  ranges over copies, which variant's `String` is used makes no difference to
  the list itself.
- `strings.ToLower` is modelled exactly for every character whose lower case
  is an ASCII letter: `A`..`Z`, the dotted capital I (U+0130, to `i`) and the
  Kelvin sign (U+212A, to `k`); so `StringToLevel("İNFO")` is INFO, as in Go.
  Other characters are kept as they are. Their Go lower case is never an ASCII
  letter, so no string that this leaves unchanged could match a level name.

Where the package's documented intent and its code differ, the model follows
the code: `IsError`/`IsFatal` are equality matches (levels above FATAL are
neither); `NotDebug` is true for 0; `Add` accepts any error with a non-zero
level, whatever its message; `Stack`/`Append` into an empty list copy the
other list's level rather than taking a maximum; `List.Fatal` does nothing
unless the cached level is FATAL; and `Check` on an empty list reports
`(false, 0)`, although `list_test.go:53-56` expects `true`.

## Model

| member | source | states |
|---|---|---|
| `Levels.NamedLevelsOrdered` | levels.go:8-28 | DEBUG..FATAL are 1..5 and strictly increasing, 0 is not a named level, and `LevelStrings` has an entry for exactly the five named levels |
| `Levels.String` | levels.go:78-81 | the name is non-empty exactly for 1..5 (it is the `LevelStrings` entry, already lower-case); every other value, 0 included, prints as "" |
| `Levels.StringToLevel` | levels.go:30-46 | the result is 0 or a named level; it is named iff the lower-cased input (Unicode lower-casing into ASCII, dotted I and Kelvin sign included) is one of the `LevelStrings` names, and then it prints back as the lower-cased input |
| `Levels.StringRoundTrip` | levels.go:22-46 | parsing the printed name of each named level gives that level back |
| `Levels.StringToLevelIgnoresCase` | levels.go:31-32 | parsing a string and parsing its lower-case form agree; "ERROR", "FATAL" and "İNFO" parse as ERROR, FATAL and INFO |
| `Levels.NotDebug` | levels.go:48-56 | false only for DEBUG, true for 0 and every other value |
| `Levels.IsError` | levels.go:58-66 | true exactly for ERROR and FATAL; values above FATAL give false |
| `Levels.IsFatal` | levels.go:68-76 | true exactly for FATAL |
| `Levels.PredicatesNest` | levels.go:48-76 | IsFatal implies IsError, IsError implies NotDebug, and no unnamed value is an error or fatal |
| `Configuration.DefaultConfig` | config.go:28-37 | the defaults log INFO and above, so they need no normalising |
| `Configuration.NewConfig` | config.go:26 | NewConfig returns the defaults |
| `Configuration.DefaultConfigValues` | config.go:26-37 | the defaults are LogLevel, LogTime on, LoggingLevel INFO, LogCaller off, CallerDepth 2, CallersToShow 2, and storing them changes nothing |
| `Configuration.Normalized` | config.go:39-45 | what SetConfig stores: an unset logging level becomes INFO, every other field is as given, and the argument is stored unchanged iff its logging level was set |
| `Configuration.NormalizedIdempotent` | config.go:39-45 | setting a configuration twice stores the same as setting it once |
| `Configuration.ConfigStore.constructor` | config.go:3-7 | `init` stores the defaults, and the store is valid (logging level non-zero) |
| `Configuration.ConfigStore.GetConfig` | config.go:25 | a valid store returns a configuration with a logging level |
| `Configuration.ConfigStore.SetConfig` | config.go:39-45 | stores the normalised argument, keeps the store valid, and GetConfig then returns an argument that had a logging level unchanged |
| `LeveledError.Pairs` | error.go:48-68 | folding pairs never removes a key |
| `LeveledError.PairsSnoc` | error.go:52-61 | one more pair after an even-length list is stored last, over any earlier value |
| `LeveledError.PairsDropsTrailingKey` | error.go:57-59 | a trailing key with no value creates no entry |
| `LeveledError.PairsKeys` | error.go:52-67 | a key is present afterwards iff it was present before or stands at an even position followed by a value |
| `LeveledError.PairsUntouched` | error.go:49-68 | a key that is not at a key position keeps its old value, or stays absent |
| `LeveledError.PairsLastWins` | error.go:61 | for a repeated key, the value after its last key position wins |
| `LeveledError.AddMetadata` | error.go:48-68 | the loop leaves the error as it was except for the metadata, which becomes the pairs folded into it |
| `LeveledError.PairsExamples` | error.go:48-68 | `key1,val1,key2,val2` gives both entries; `key1,val1,key2` gives only `key1` |
| `LeveledError.InitialMetadata` | error.go:37-40 | the starting map has a "caller" entry (holding the caller string) iff callers are recorded, and no other key |
| `LeveledError.NewError` | error.go:21-46 | level and message stored unchanged; a time iff LogTime; metadata is the argument pairs folded over the caller entry |
| `LeveledError.NewErrorCaller` | error.go:37-43 | "caller" is present iff callers are recorded or the arguments name it; a recorded caller survives unless an explicit "caller" pair overrides it |
| `LeveledError.Equal` | error.go:70-77 | true iff the two errors are identical once the timestamp is disregarded |
| `LeveledError.EqualIsEquivalence` | error.go:70-77 | Equal is reflexive, symmetric and transitive, and a different time never breaks it |
| `LeveledError.Serialised` | error.go:79-83 | the encoded copy has level 0 when levels are not recorded, and otherwise equals the error; nothing but the level differs |
| `LeveledError.String` | error.go:79-87 | encodes the error itself, or the level-zeroed copy when levels are not recorded |
| `LeveledError.StringHidesLevel` | error.go:80-86 | with levels not recorded, two errors differing only in level render identically |
| `LeveledError.IsError` | error.go:113-116 | true iff the level is ERROR or FATAL |
| `LeveledError.IsFatal` | error.go:118-121 | true iff the level is FATAL |
| `LeveledError.Log` | error.go:123-128 | writes exactly one line, the rendering, iff `Logged` holds (the level is at least the configured logging level); nothing otherwise; never exits |
| `LeveledError.Fatal` | error.go:130-136 | with a non-empty message: level set to FATAL, its rendering written, process exited; with an empty message nothing changes |
| `ErrorList.MaxLevel` | lists.go:9-16 | the cached level a list should hold: at least 0, at least every stored level, and 0 or one of them |
| `ErrorList.MaxLevelConcat` | lists.go:61-64 | the level of a merged list is the larger of the two levels |
| `ErrorList.Visible` | lists.go:96-103 | the kept errors are no more than the list, all reach the threshold and all come from the list |
| `ErrorList.VisibleComplete` | lists.go:98-101 | every error that reaches the threshold is kept |
| `ErrorList.VisibleConcat` | lists.go:98-101 | filtering keeps the list's order: filtering a concatenation concatenates the filtered parts |
| `ErrorList.VisibleAll` | lists.go:99 | when every error reaches the threshold nothing is dropped |
| `ErrorList.Render` | lists.go:100 | one rendering per error, in order, each being that error's `String` |
| `ErrorList.AddSequenceExample` | lists.go:41-50 | a zero List given DEBUG, INFO and ERROR errors through Add holds all three in order at level ERROR: IsError but not IsFatal |
| `ErrorList.List.constructor` | lists.go:13-16 | the zero List has no errors and level 0, and is consistent |
| `ErrorList.List.Check` | lists.go:18-24 | reports true iff errors are held, and the count (0 when there are none) |
| `ErrorList.List.IsError` | lists.go:26-29 | depends on the cached level only: true iff it is ERROR or FATAL |
| `ErrorList.List.IsFatal` | lists.go:31-34 | depends on the cached level only: true iff it is FATAL, which implies IsError |
| `ErrorList.List.SetLevel` | lists.go:36-39 | replaces the cached level and leaves the errors unchanged |
| `ErrorList.List.Add` | lists.go:41-50 | an error with a level goes at the end and the level becomes the max; level 0 changes nothing; the level never decreases and stays the maximum if it was |
| `ErrorList.List.Stack` | lists.go:52-66 | empty other: no change; empty receiver: takes other's errors and level; otherwise other's errors first, levels merged by max; consistency preserved |
| `ErrorList.List.Append` | lists.go:68-82 | same cases as Stack, with the receiver's errors first |
| `ErrorList.List.Clear` | lists.go:84-88 | no errors, level 0 |
| `ErrorList.List.MarshalArray` | lists.go:90-105 | the renderings of exactly the errors at or above the logging level, in list order, never more than the list holds |
| `ErrorList.List.Log` | lists.go:114-126 | nothing on an empty list; otherwise one line per kept rendering, in order, then the list is cleared |
| `ErrorList.List.Fatal` | lists.go:128-134 | when the cached level is FATAL, writes the kept renderings joined by newlines and exits; otherwise nothing |
| `LegacyError.Blank` | errors.go:30-33 | a fresh error has level 0, no time, an empty message and empty metadata |
| `LegacyError.Chain` | errors.go:47-52 | the loop never removes a key |
| `LegacyError.ChainSnoc` | errors.go:47-52 | each further element is stored as the value of the element before it |
| `LegacyError.ChainKeys` | errors.go:47-52 | the keys afterwards are the old keys and every element but the last, values included |
| `LegacyError.ChainStoresValuesAsKeys` | errors.go:47-52 | `k1,v1,k2,v2` stores `k1 -> v1`, `v1 -> k2` and `k2 -> v2` |
| `LegacyError.New` | errors.go:37-55 | the result has level 0 and an empty message whatever is passed; a time iff logTime; the chained metadata over the caller entry; needs any argument count but 1 |
| `LegacyError.Serialised` | errors.go:57-60 | the receiver after String: level zeroed when levels are not recorded, nothing else changed |
| `LegacyError.String` | errors.go:57-63 | leaves the receiver as `Serialised` describes (its own level zeroed when levels are not recorded) and encodes the receiver as it then is |
| `LegacyError.SetLevel` | errors.go:76-78 | overwrites the level and nothing else |
| `LegacyError.IsError` | errors.go:66-68 | true iff the level is ERROR or FATAL |
| `LegacyError.IsFatal` | errors.go:71-73 | true iff the level is FATAL |
| `LegacyError.Logged` | errors.go:82 | Log's gate: the level equals the logging level exactly |
| `LegacyError.LogSkipsHigherLevels` | errors.go:81-85 | an error above the logging level is not logged |
| `LegacyError.Log` | errors.go:81-85 | writes the rendering iff the level equals the logging level, leaving the receiver as String left it |
| `LegacyError.Fatal` | errors.go:88-93 | with a non-empty message: level FATAL, then String (which zeroes it again when levels are not recorded), one line written, process exited; empty message: nothing |

## Findings

| source | as written | input that shows it | evidently intended | confidence | as-written member | corrected member |
|---|---|---|---|---|---|---|
| errors.go:37-55 | `New` never assigns its `l` and `msg` parameters | `New(ERROR, "boom")` has Level 0 and Message "" | store the level and message, as error.go:28-29 does | high; not executed | `LegacyError.New` | `LeveledError.NewError` |
| errors.go:47-52 | the metadata loop visits odd positions too, pairing each element with the next | `k1, v1, k2, v2` also stores `v1 -> k2` | store only `k1 -> v1` and `k2 -> v2`, as error.go:52-61 does | high; not executed | `LegacyError.ChainStoresValuesAsKeys` | `LeveledError.PairsExamples` |
| errors.go:81-85 | `Log` writes only when the level equals the logging level | an ERROR with logging level INFO writes nothing | write at or above the logging level, as error.go:125 and lists.go:99 do | medium; not executed | `LegacyError.LogSkipsHigherLevels` | `LeveledError.Log` |

## Left out

- Output destination (logs.go `SetLogOutput`, `log.SetFlags`): only selects where lines go; the model records the lines themselves.
- `getCaller` (error.go:138-151, errors.go:95-108) and the constants `callerDepth`/`callersShow` it uses: runtime stack inspection; the caller string is an opaque parameter.
- `time.Now()`: the clock is the parameter `now`; only whether a time is present matters.
- JSON encoding (`json.Marshal`, `omitempty`, the key layout): the encoder is the parameter `marshal`. `List.Marshal` (lists.go:107-112), which JSON-encodes the array of renderings, is not modelled for the same reason.
- `Error.Error` (error.go:89-92): returns `String`; nothing further to state.
- `fmt.Sprint` of non-string arguments: arguments are strings.
- Go map aliasing: copies of a Go `Error` share one metadata map, so a write through one copy shows in the others; the model treats metadata as a value. A zero `Error` literal has a nil map, which panics on a write; only errors built by the constructors are modelled.
- List.Stack, List.Append, List.Add: Go slices share backing arrays. After `Stack` or `Append` into an empty receiver (lists.go:58, lists.go:74), or after `append` leaves spare capacity (lists.go:64, lists.go:80, lists.go:48), two lists can share one array, so a later `Add` to one can overwrite an element of the other. The model's `errors` is a sequence value, so this sharing and its overwrites are not captured.
- `lists.go:43` compares a string `Message` with `nil`, which does not type-check: the `Add` guard is modelled as `Level != 0` only.
- The `Errors` collection of errors_test.go (`Remove`, `UpdateLevel`, `First`, `Last`, `ToArray`, `ToLogArray`): no shown file defines it.
- `Level.MarshalJSON` / `UnmarshalJSON` (levels_test.go:68-106): not defined in levels.go.
- Unsynchronised access to the package-level configuration: concurrency is out of scope.
- Process exit: `exited` is a flag; the model does not stop further calls once it is set.
- Integer width: `Level` and the config's integer fields are unbounded; no value in the package's range wraps.
- LegacyError.New: the index-out-of-range panic on exactly one argument is modelled as the precondition `|args| != 1`, not as a modelled panic.
