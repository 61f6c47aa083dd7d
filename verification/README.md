# influxdata/log — a Dafny model of the leveled, hierarchical logger

This project models the core of a small Go logging library: the severity
levels and their string codecs (`levels.go`), the logger tree with
level/handler inheritance, field overlay and level-gated dispatch
(`logger.go`, with the `Entry` record of `entry.go`), and the process-wide
root logger with its setters and delegating free functions (`pkg.go`).

Files:

- `wrappers.dfy` — `Option`, standing for Go's nil interface and nil error.
- `levels.dfy` (module `Levels`) — `Level` as a newtype over `int` with the
  six constants, the name table, `String`, `ParseLevel`, `MarshalText`,
  `MarshalJSON`, and class `LevelVar` for the pointer methods
  `UnmarshalText`/`UnmarshalJSON` that assign through `*l`.
- `logger.dfy` (module `Logging`) — field values, `Fields`, `Entry`,
  class `Logger` (mutable `level` and `handler`, constant `parent` and
  `fields`, a ghost `ancestors` chain that makes the walk up the tree
  finite), the derivations, the resolvers `level()`/`handler()` as loops,
  and `Log` with its level wrappers.
- `pkg.dfy` (module `DefaultLogger`) — class `Root` holding the singleton
  `Log`, the setters and the delegating functions.
- `scenarios.dfy` — client methods replaying `logger_test.go`, plus
  scenarios for field overlay, `WithError`, a failing handler and the root
  setters, checked against the contracts alone.

Modelling choices:

- A handler is an abstract identity `HandlerId`; nil is `None`. What the
  handlers answer is the parameter `respond: (HandlerId, Entry) -> Option<string>`
  (an error text or nil). The handler call itself is recorded as the
  returned `delivered: Option<Delivery>` (which handler got which entry),
  and the `stdlog.Printf` line on a handler error as the returned
  `diagnostic`; `Log` returns no error, which is how "handler errors are
  swallowed" shows up.
- The clock (`time.Now()`) is the parameter `now`.
- Field values (`interface{}`) are the datatype `Value`; an `error` is seen
  only through its `Error()` text (`GoError`).
- `Logger.Dispatched` is the specification of one log call: delivered iff
  the message level is at least the effective level and a handler is
  resolved; the entry then carries the node's own fields, the level, the
  message and the instant. `Log`, the wrappers and the root's free
  functions are all proved against it.
- The effective level and handler are the ghost functions
  `InheritedLevel`/`InheritedHandler` over the chain (self first); the
  loop methods `ResolveLevel`/`ResolveHandler` are proved equal to them,
  and lemmas characterise them as "first set value on the chain, else
  the default".
- Because resolution is done at call time through parent pointers, the
  root setters are seen by loggers derived before the call
  (`Scenarios.RootSetters`).

## Model

| member | source | states |
|---|---|---|
| `Levels.LevelOrder` | levels.go:11-19 | The levels are consecutive integers from 0 with Unset < Debug < Info < Warn < Error < Fatal. |
| `Levels.String` | levels.go:21-32 | The name is empty exactly for the unset level; each real level's name is one of the parse tokens (and never the alias). |
| `Levels.LevelNamesFixed` | levels.go:21-27 | The five real levels are named "debug", "info", "warn", "error", "fatal"; the unset slot is "". |
| `Levels.ParseLevel` | levels.go:72-88 | Succeeds exactly on {debug, info, warn, warning, error, fatal}, returning a real level that prints back as the token (or WarnLevel for "warning"); any other string yields -1 with InvalidLevel. |
| `Levels.ParseString` | levels.go:72-88 | Round trip: parsing the name of any real level returns that level without error. |
| `Levels.StringParse` | levels.go:29-32 | Round trip from the string side: every accepted token other than the alias prints back as itself. |
| `Levels.WarningAlias` | levels.go:79-80 | "warning" parses exactly as "warn": WarnLevel, no error. |
| `Levels.StringInjective` | levels.go:21-27 | Distinct real levels have distinct names. |
| `Levels.MarshalText` | levels.go:54-57 | The text form is exactly the level's name (so "warn", never the alias, for WarnLevel); for a real level it parses back to that level, and the unset level marshals to empty text. |
| `Levels.MarshalJSON` | levels.go:34-37 | The JSON form is the level's name between two double quotes. |
| `Levels.MarshalJSONRoundTrip` | levels.go:34-51 | Parsing the contents of the JSON string literal of a real level recovers the level. |
| `Levels.MarshalJSONUnsetRejected` | levels.go:34-51 | The unset level marshals to `""`, whose contents the JSON decoding path rejects with InvalidLevel. |
| `Levels.LevelVar.UnmarshalText` | levels.go:59-70 | Empty text: no error, level unchanged; unknown token: InvalidLevel, level unchanged; valid token: no error, level set to the parsed value. |
| `Levels.LevelVar.UnmarshalJSON` | levels.go:39-52 | A decoder failure comes back as MalformedJson with the level unchanged; an unknown token (including the empty string) gives InvalidLevel and leaves the level; a valid token sets it. |
| `Logging.Overlay` | logger.go:48-61 | The derived field map has the union of both key sets; keys of the additions take their new value, all other keys keep the receiver's. |
| `Logging.MergeFields` | logger.go:50-56 | The two copy loops into a fresh map produce exactly the overlay of the additions on the receiver's fields. |
| `Logging.OverlayLastWriteWins` | logger.go:48-61 | Deriving twice with the same key leaves only the later value. |
| `Logging.OverlayCompose` | logger.go:48-61 | Two successive derivations equal one derivation with the second additions overlaid on the first. |
| `Logging.InheritedLevelIsFirstSet` | logger.go:153-164 | The effective level is the level of the first node on the chain (self first) whose level is not unset. |
| `Logging.InheritedLevelDefault` | logger.go:153-164 | With no level set anywhere on the chain the effective level is InfoLevel. |
| `Logging.InheritedLevelIsSet` | logger.go:153-164 | The effective level is never the unset sentinel. |
| `Logging.InheritedLevelIsReal` | logger.go:153-164 | If every level on the chain is a named level or unset, the effective level is a real level, at most FatalLevel. |
| `Logging.InheritedHandlerIsFirst` | logger.go:166-177 | The effective handler is the handler of the first node on the chain that has one. |
| `Logging.InheritedHandlerNone` | logger.go:166-177 | No handler is resolved exactly when no node on the chain has a handler. |
| `Logging.Logger.New` | logger.go:31-37 | A root at InfoLevel with the given handler, no parent and no fields. |
| `Logging.Logger.InheritsLevel` | logger.go:153-164 | A node whose level is unset resolves the same level as its parent. |
| `Logging.Logger.InheritsHandler` | logger.go:166-177 | A node without a handler resolves the same handler as its parent. |
| `Logging.Logger.WithLevel` | logger.go:39-46 | A fresh child whose parent is the receiver, at the given level, with no handler and the receiver's own field map; the receiver is not modified. |
| `Logging.Logger.WithFields` | logger.go:48-61 | A fresh child whose parent is the receiver, level unset, no handler, fields the receiver's overlaid by the additions; the receiver is not modified. |
| `Logging.Logger.WithField` | logger.go:63-66 | A fresh child whose fields are the receiver's with the one key set to the value. |
| `Logging.Logger.WithError` | logger.go:68-71 | A fresh child whose fields are the receiver's with "error" set to the error's text. |
| `Logging.Logger.ResolveLevel` | logger.go:153-164 | The parent-chain walk returns the effective level of the chain. |
| `Logging.Logger.ResolveHandler` | logger.go:166-177 | The parent-chain walk returns the effective handler of the chain. |
| `Logging.Logger.Log` | logger.go:73-94 | Delivers iff the level is at least the effective level and a handler is resolved; then exactly one entry with the node's fields, the level, message and instant goes to that handler; a handler error produces only the diagnostic line and is not returned. |
| `Logging.Logger.FatalPassesGate` | logger.go:116-120 | With all chain levels named or unset and a handler resolved, a fatal message is always delivered. |
| `Logging.Logger.GateMonotone` | logger.go:73-82 | If a message is delivered at one level it is delivered, to the same handler, at any higher level. |
| `Logging.Logger.Debug` | logger.go:96-99 | Dispatch as Log at DebugLevel. |
| `Logging.Logger.Info` | logger.go:101-104 | Dispatch as Log at InfoLevel. |
| `Logging.Logger.Warn` | logger.go:106-109 | Dispatch as Log at WarnLevel. |
| `Logging.Logger.Error` | logger.go:111-114 | Dispatch as Log at ErrorLevel. |
| `Logging.Logger.Fatal` | logger.go:116-120 | Dispatch as Log at FatalLevel, then exit status 1 in every case. |
| `DefaultLogger.Root.constructor` | pkg.go:3-6 | The root `Log` starts at InfoLevel with no handler, no parent and no fields. |
| `DefaultLogger.Root.SetHandler` | pkg.go:8-11 | Sets the root's handler, keeping the root's invariant; the frame allows no other change. |
| `DefaultLogger.Root.SetLevel` | pkg.go:13-16 | Sets the root's level, keeping the root's invariant; the frame allows no other change. |
| `DefaultLogger.Root.WithLevel` | pkg.go:18-21 | A fresh child of the root at the given level, as the root's WithLevel. |
| `DefaultLogger.Root.WithFields` | pkg.go:23-26 | A fresh child of the root carrying exactly the given fields, as the root's WithFields. |
| `DefaultLogger.Root.WithField` | pkg.go:28-31 | A fresh child of the root carrying the one field, as the root's WithField. |
| `DefaultLogger.Root.WithError` | pkg.go:33-36 | A fresh child of the root carrying "error" = the error's text, as the root's WithError. |
| `DefaultLogger.Root.Debug` | pkg.go:38-41 | Same dispatch as the root's Debug. |
| `DefaultLogger.Root.Info` | pkg.go:43-46 | Same dispatch as the root's Info. |
| `DefaultLogger.Root.Warn` | pkg.go:48-51 | Same dispatch as the root's Warn. |
| `DefaultLogger.Root.Error` | pkg.go:53-56 | Same dispatch as the root's Error. |
| `DefaultLogger.Root.Fatal` | pkg.go:58-61 | Same dispatch as the root's Fatal, with exit status 1. |

## Left out

- `handlers/text/text.go`: the text handler (terminal detection, ANSI colours, width formatting, its mutex, writing to an `io.Writer`) is I/O and presentation; handlers are abstract identities here.
- The process exit of `Fatal`/`Fatalf` (`os.Exit(1)`) is represented only by the returned exit status; nothing after it is modelled.
- `Logf` and the `*f` variants (logger.go and pkg.go): `fmt.Sprintf` formatting is a foreign call; the formatted message would be an opaque string passed to `Log`, so these add nothing beyond the modelled wrappers.
- The timestamp source `time.Now()` is the parameter `now`; the diagnostic line goes to a returned value instead of the standard logger.
- `UnmarshalJSON`'s call to `json.Unmarshal` is not modelled: its outcome is the parameter `decoded` (None for a decoding error).
- The `Handler` interface, `HandlerFunc` adapter and `Fielder` interface: foreign capabilities, represented by `HandlerId` and `respond`; a handler's own state and its ability to mutate the entry it receives are not modelled.
- Thread-safety: the setters are documented as not safe for concurrent use; concurrency is not modelled.
- Bytes versus strings: `[]byte` results and inputs of the codecs are modelled as strings; all level tokens are ASCII.
- Logging.Logger.WithError: a nil `error` makes Go panic when `err.Error()` is called; `GoError` has no nil value, so the model covers only non-nil errors, and the free function `DefaultLogger.Root.WithError` is affected the same way.
- Levels.String: requires the level to index the name table (0 to 5); Go panics on any other value, so callers outside that range are excluded rather than modelled.
- Levels.MarshalText: the Go error result is always nil and is dropped from the model; likewise for MarshalJSON.
- `Level` is an unbounded integer here; Go's `int` width plays no role in the code.
- The package variable `Log` is a constant reference in `Root`; replacing the whole `Log` pointer from outside the package is not modelled (only its fields are updated).
- Sharing of the field map between a logger, its `WithLevel` children and the `Entry` it dispatches is modelled by value. The library itself never mutates a map after attaching it, but the entry handed to a handler shares the node's own map, so a handler that writes to the entry's fields changes the fields of that node and of every `WithLevel` child sharing the map; that aliasing effect is not captured.
