# A verified model of a minimal Go logging facade

This project models, in Dafny, the core of a small Go logging library.

- **Fields** are `map[string]interface{}`. `mergeFields` copies the base map into a fresh map, writes the overlay over it, and answers nil for an empty result.
- **Loggers** hold a fields snapshot and an adapter. `WithFields` derives a child logger. The four emit methods each make exactly one `Adapter.Write(clock, severity, msg, fields)` call.
- **Adapters**: the `StdlibAdapter` appends one ` key=value` segment per field and prints the line. The fan-out `multiAdapter` writes to each child in order.
- **Context helpers** attach a logger (`With`) or fields (`WithFields`) to a Go `context.Context`, and read them back (`From`, `ContextFields`). The package-level `Infof`/`Errorf`/`Fatalf` combine them.
- **Set-once defaults**: the default adapter and the default logger are each guarded by a `sync.Once`.

## Modules

- `Wrappers`: `Option`. `None` plays Go's nil.
- `FieldMaps`: `Fields = Option<map<string, Value>>`, with `Value` an opaque type. It defines the merge as a function (`Merge`) and as the two-loop method of the source (`MergeFields`), proved equal.
- `Adapters`: `Severity`, `Event`, `Call` (one `Write` call), `Adapter = Recording(id) | Stdlib | Multi(adapters)`.
  - `Trace` is the sequence of deliveries a write causes. `Sinks` is the independent reference order of sinks. `TraceDeliversToSinks` ties them together.
  - `StdlibLine` builds the StdlibAdapter's line with a loop over the keys.
- `MultiAdapters`: the `MultiAdapter` constructor and the dispatching `Write` method with its fan-out loop, plus the fan-out lemmas.
- `Contexts`: Go's context reduced to an immutable chain `Background | WithValue(parent, key, val)`. `Lookup` is `ctx.Value`, and two lemmas prove that it finds the nearest binding.
- `Loggers`: the `logger` struct as the datatype `Logger` with `WithFields`, `Info`, `Infof`, `Error` and `Errorf`.
  - The context keys and the attached values are modelled here.
  - So are `From`, `With`, `ContextFields` and `WithFields(ctx, …)`, with their lemmas.
- `Defaults`: class `Globals`, whose two `Option` fields are the once-guarded `defaultAdapter` and `defaultLogger`.
  - Its methods are `SetDefaultAdapter`, `DefaultAdapter`, `DefaultLogger` and `From`, which calls `DefaultLogger()` only when no logger is attached.
  - Client methods on a fresh state show the first-writer-wins behaviour.
- `Global`: `Infof`, `Errorf`, `Fatalf` of global.go.

How the model abstracts the environment:

- `time.Now()` is a `clock: Time` parameter.
- `fmt.Sprintf` is a `sprintf: (string, seq<Value>) -> string` parameter.
- The `%q` rendering of a value is a `quote: Value -> string` parameter.
- `DefaultLogger()` is a `dflt: Logger` parameter of the pure context functions. `Defaults.Globals.From` shows how that value arises.
- The model treats the four Go files as one library, although they declare two package names (`log` and `logger`).

### Behaviour of the library worth knowing

- **One context slot.** `fieldsKey` and `loggerKey` are both `struct{}{}` (logger.go:24-25). Equal values make the same context key, so both live in ONE slot.
  - `From` and `ContextFields` apply a type assertion to whatever value is nearest. So the latest `With` hides earlier fields, and the latest `WithFields` hides an earlier logger. Any other package's `struct{}{}` key hides both.
  - So `From(ctx).WithFields(ContextFields(ctx))` never combines an attached logger with attached fields. The model keeps the single slot: `Loggers.LatestAttachmentShadows`, `Loggers.AtMostOneAttachment` and `Global.LoggerThenFieldsUsesDefault` state the observable consequences.
- **No constructor.** logger.go has no constructor taking an adapter. Loggers come from `DefaultLogger()` and `WithFields`. The datatype constructor `Logger(fields, adapter)` stands for `&logger{…}`.
- **Fail-fast fan-out.** The fan-out has no recover. A panicking child would stop the remaining children. The model has no panics.
- **Rendering.** The StdlibAdapter renders values with `%q`. The model takes the renderer as a parameter.

## Model

| member | source | states |
|---|---|---|
| FieldMaps.Normalize | logger.go:104-108 | the entries are kept; the result is nil exactly when there are no entries, and otherwise a non-empty map |
| FieldMaps.Merge | logger.go:94-109 | the result is canonical (nil or non-empty) and its entries are b's written over a's |
| FieldMaps.MergeSemantics | logger.go:94-108 | the keys are those of a ∪ b; shared keys take b's value, a-only keys keep a's; the result is nil iff both inputs are nil or empty |
| FieldMaps.CopyInto | logger.go:97-102 | one `range` loop writing every entry of the source over the destination yields `dst + src` |
| FieldMaps.MergeFields | logger.go:94-109 | the two copy loops over a and then b, then the nil normalisation, yield exactly `Merge(a, b)`; the inputs are values and are not changed |
| FieldMaps.MergeAssociative | logger.go:94-109 | merge is associative, nil normalisation included |
| FieldMaps.MergeNil | logger.go:94-109 | nil is a left and right identity of the merge on canonical fields |
| FieldMaps.MergeEmptyIsNil | logger.go:104-106 | merging an empty non-nil map with nil answers nil, not an empty map |
| Adapters.SeveritiesDistinct | adapter.go:10-15 | Info and Error are distinct severities with display forms "info" and "error" |
| Adapters.TraceDeliversToSinks | multi_adapter.go:9-13 | a write reaches each sink of the adapter tree exactly once, in order, with the identical event |
| Adapters.TraceAllDeliversToSinks | multi_adapter.go:9-13 | the same for a list of children written in order |
| Adapters.StdlibLine | adapter.go:31-37 | the line is msg followed by one ` key=render(value)` segment per field, each key exactly once in some order; clock and severity are not used; nil fields give msg alone |
| MultiAdapters.MultiAdapter | multi_adapter.go:15-17 | the constructor stores the children as given |
| MultiAdapters.Write | multi_adapter.go:9-13 | the fan-out loop's deliveries are `Trace(a, e)`: every sink once, in the children's order, with identical arguments |
| MultiAdapters.EmptyMultiWritesNothing | multi_adapter.go:9-17 | a MultiAdapter of zero adapters makes no writes |
| MultiAdapters.TraceAllAppend | multi_adapter.go:9-13 | fanning out over xs + ys is fanning out over xs, then over ys |
| MultiAdapters.NestedMultiFlattens | multi_adapter.go:9-13 | a multi of two multis writes exactly like one multi over all their children |
| MultiAdapters.SingleMultiIsTransparent | multi_adapter.go:9-13 | a multi of one adapter writes exactly as that adapter |
| MultiAdapters.ThreeSinksInOrder | multi_adapter.go:9-13 | MultiAdapter(a1, a2, a3) delivers exactly one identical write to a1, a2, a3, in that order |
| Contexts.LookupNilIffAbsent | logger.go:31-54 | `ctx.Value(key)` is nil exactly when no pair of the chain has that key |
| Contexts.LookupIsNearest | logger.go:31-54 | `ctx.Value(key)` answers the value of the nearest pair with that key |
| Loggers.Logger.WithFields | logger.go:86-92 | the child has the receiver's adapter and the merged fields; the receiver is a value and is unchanged |
| Loggers.Logger.Info | logger.go:70-72 | one Write on the logger's adapter: the given clock, severity info, msg verbatim, the logger's fields |
| Loggers.Logger.Infof | logger.go:74-76 | one Write at info with message `Sprintf(msg, args)` and the logger's fields |
| Loggers.Logger.Error | logger.go:78-80 | one Write at error with msg verbatim and the logger's fields |
| Loggers.Logger.Errorf | logger.go:82-84 | one Write at error with message `Sprintf(msg, args)` and the logger's fields |
| Loggers.AttachedLogger | logger.go:31-37 | the type assertion succeeds exactly when the nearest slot value is a logger, and then answers it |
| Loggers.From | logger.go:31-37 | the attached logger if any, else the default logger |
| Loggers.With | logger.go:39-41 | a derived context whose slot holds the logger; the parent is kept as is |
| Loggers.ContextFields | logger.go:43-49 | the nearest slot value when it is a Fields map, and nil otherwise |
| Loggers.WithFields | logger.go:51-54 | a derived context whose slot holds `mergeFields(ContextFields(ctx), f)`; the parent is kept as is |
| Loggers.FromWith | logger.go:31-41 | `From(With(ctx, L)) == L` |
| Loggers.BackgroundIsEmpty | logger.go:31-49 | `From(Background)` is the default logger and `ContextFields(Background)` is nil |
| Loggers.ContextFieldsWithFields | logger.go:43-54 | `ContextFields(WithFields(ctx, f)) == mergeFields(ContextFields(ctx), f)`, whatever the slot held before |
| Loggers.LatestAttachmentShadows | logger.go:24-54 | because the two keys are equal, `ContextFields(With(ctx, L))` is nil, `From(WithFields(ctx, f))` is the default logger, and fields attached after a logger start from nil |
| Loggers.AtMostOneAttachment | logger.go:24-49 | no context ever shows both an attached logger and attached fields |
| Loggers.OtherKeysAreTransparent | logger.go:31-49 | values under keys other than `struct{}{}` do not affect From or ContextFields |
| Loggers.ForeignEmptyStructKeyHidesBoth | logger.go:24-49 | a foreign value under a `struct{}{}` key hides both the logger and the fields |
| Loggers.WithFieldsTwice | logger.go:86-109 | `L.WithFields(f).WithFields(g) == L.WithFields(mergeFields(f, g))` |
| Loggers.MergeAll | logger.go:94-109 | the accumulated fields of a derivation chain are canonical |
| Loggers.LoggerChainCollapses | logger.go:86-109 | any chain of logger derivations equals one derivation with the merge of all their fields |
| Loggers.ChainsAgree | logger.go:51-109 | a chain of context derivations and the same chain of logger derivations carry the same fields |
| Loggers.TwoDerivationsScenario | logger.go:43-54 | `WithFields(WithFields(bg, {a}), {b})` carries {a, b}, and the background context still has nil fields |
| Defaults.Globals.constructor | adapter.go:39-42 | a fresh process has neither default set, which satisfies the invariant |
| Defaults.Globals.SetDefaultAdapter | adapter.go:44-48 | sets the adapter only if the once-guard has not run; otherwise nothing changes; the default logger is untouched |
| Defaults.Globals.DefaultAdapter | adapter.go:50-55 | the first call fixes the slot (to a StdlibAdapter unless already set); every call answers the fixed adapter |
| Defaults.Globals.DefaultLogger | logger.go:56-63 | the first call builds a fields-less logger on `DefaultAdapter()`; later calls answer that same logger and change nothing |
| Defaults.Globals.From | logger.go:31-37 | the attached logger without touching the defaults, or else the default logger after initialising it |
| Defaults.FirstSetWins | adapter.go:44-55 | after two sets, the default adapter is the first one |
| Defaults.SetReadSetRead | adapter.go:44-55 | a read between two sets does not let the second set through |
| Defaults.SetAfterReadIsNoOp | adapter.go:44-55 | a set after the first read is a no-op; the default stays the StdlibAdapter |
| Defaults.DefaultLoggerIsFixed | logger.go:56-63 | the default logger captures the adapter set before it; later sets reach neither it nor the default adapter; repeated calls answer the same logger |
| Defaults.DefaultLoggerWithoutSet | logger.go:56-63 | with nothing set, the default logger writes to a StdlibAdapter, which also becomes the default adapter |
| Defaults.FromScenario | logger.go:31-63 | `From(With(c0, X)) == X`, and `From(c0)` is `DefaultLogger()` on the StdlibAdapter |
| Defaults.FromFixesDefaults | logger.go:31-63 | `From` on a context without a logger initialises the defaults, so a later `SetDefaultAdapter` leaves the StdlibAdapter in place |
| Global.Infof | global.go:10-12 | one Write at info with message `Sprintf(msg, args)` on the adapter of `From(ctx)`, with fields `mergeFields(From(ctx).fields, ContextFields(ctx))` |
| Global.Errorf | global.go:16-18 | the same at severity error |
| Global.Fatalf | global.go:21-24 | exactly the Errorf write, then exit status 1 |
| Global.ContextFieldsWin | global.go:10-12 | context fields win on shared keys; the logger's other keys are kept |
| Global.NoFieldsWritesNil | global.go:10-18 | with no logger fields and no context fields, the write carries nil fields |
| Global.AttachedLoggerHelpers | global.go:10-18 | on a context whose latest attachment is logger L, the helpers write exactly what L.Infof / L.Errorf write |
| Global.AttachedFieldsHelpers | global.go:10-18 | on a context whose latest attachment is fields, the write goes to the default logger's adapter with exactly the context's fields |
| Global.LoggerThenFieldsUsesDefault | global.go:10-12 | a logger attached before fields is ignored: the write goes to the default logger's adapter |

## Left out

- `time.Now()`, `fmt.Sprintf` and the `%q` renderer are parameters. Their internals, including how Go formats mismatched verbs, are not modelled.
- `log.Println`'s output (I/O) is left out. `StdlibLine` answers the line that would be printed.
- Go's map iteration order is unspecified. `StdlibLine` returns the order it chose, and the contract only requires it to be an enumeration of the keys.
- `sync.Once` thread safety and all concurrency are left out. Only sequential first-call-wins is modelled.
- `os.Exit(1)` is modelled only as the exit status `1` in `Global.Fatalf`. Process termination itself is not modelled.
- `AdapterFunc` (adapter.go:22-27) calls a three-parameter function with four arguments, so it does not compile. It is not modelled.
- Panics inside a child adapter are not modelled. The Go fan-out has no recover and is fail-fast.
- Nil adapters, nil loggers and `Logger` implementations other than the `logger` struct are not modelled. Adapters are the datatype `Adapter`.
- `Recording(id)` is not part of the library. It stands for any external sink that records what it is given.
- Go context deadlines and cancellation are left out. Only the value chain is modelled.
- `interface{}` values are the opaque type `Value`, and their dynamic types are not modelled.
- Aliasing of Go maps is not modelled: Dafny maps are values. So "neither input is modified" and "the receiver is unchanged" hold by construction rather than by a frame proof.
- MultiAdapters.MultiAdapter: aliasing of the variadic slice is not modelled. Go stores the caller's own slice without a copy (multi_adapter.go:15-16), so a later `s[i] = x` changes which children the next `Write` reaches, and putting the multi into its own slice makes `Write` recurse without end. The model's child list is a finite value fixed at construction.
- Global.Infof, Global.Errorf: the pure functions take the default logger as the parameter `dflt` and record no state change. In Go, when no logger is attached, `From(ctx)` calls `DefaultLogger()`, which fixes both defaults, so a later `SetDefaultAdapter` is ignored. Only `Defaults.Globals.From` models that effect, and `Defaults.FromFixesDefaults` shows it.
- The severity-bound `V(severity)` sub-logger belongs to a variant of the library that is not part of this model.
