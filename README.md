# slogbuffer in Dafny

A model of the two layers of the Go `slogbuffer` package, with proofs of what each promises.

- **`buffer[T]`** (buffer.go) is a ring buffer over a Go slice. An unbound buffer grows without limit. A bound buffer holds at most `maxElements`: once full, it overwrites the oldest slot and advances `startIndex`.
- **`BufferLogHandler`** (handler.go) is a `slog.Handler`. It stores records in a buffer until a real handler is set, then replays them and forwards everything after that. Handlers derived with `WithAttrs`/`WithGroup` form a tree. The nodes share one buffer, and each node finds its real handler by walking its parent chain.

Files:

| file | module | contents |
|---|---|---|
| `wrappers.dfy` | `Wrappers` | `Option`; `None` stands for Go's `nil` |
| `ring_spec.dfy` | `RingSpec` | Value-level meaning of the buffer. `Push` is one `Add` on the live contents, and `PushAll` is a run of them. Proves drop-oldest FIFO. |
| `ring.dfy` | `Ring` | `class Buffer<T>` over an `array` (its `Length` is the slice's `cap`) with `len`, `bound`, `startIndex`, plus the `record` struct as `BufferedRecord` |
| `slog.dfy` | `Slog` | Levels, `Attr`, an opaque `Record`, the real handler as a `Sink` value (`Base`, `Group`, `Attrs`), and `Downstream`, which records every emission in a `trace` |
| `scope.dfy` | `Scope` | How a real handler is scoped on the live path (`LiveScope`) and on the drain path (`DrainScope`), and what a drain emits (`Replay`) and returns (`Failures`) |
| `handler.dfy` | `Handlers` | `class BufferLogHandler` and its operations |
| `buffer_scenarios.dfy` | `BufferScenarios` | The behaviours of buffer_test.go as methods with exact postconditions |
| `scenarios.dfy` | `Scenarios` | The behaviours of handler_test.go and slogbuffer_test.go, and the corner cases of handler.go as written |

## The buffer

`Buffer` keeps a ghost `Contents`: the live elements, oldest first, as the sequence of `Add`s intends them. It also keeps a ghost `Limit`: `Bound(cap)` or `Unbound`. There are three predicates:

- `Wf()` holds the shape every operation keeps, `Clear` included: `len <= cap`, `startIndex < cap`, and `startIndex == 0` when unbound.
- `Valid()` adds the invariant the iteration relies on: `startIndex == 0` unless the buffer is full, so what `All` reads (`Items()`) is `Contents`.
- `Readable()` says that every slot `All` visits lies inside the slice.

`Add` states both its physical effect and `Contents == Push(old(Contents), x, Limit)`, and keeps `Valid()`. `RingSpec.DropOldestFromEmpty` proves the FIFO property: after N adds into capacity C, the contents are the last min(N, C) elements, and the buffer is full exactly when N >= C.

`Clear` is modelled as written: it allocates a new slice of the same capacity and leaves `startIndex` alone. Its contract says so, and `Valid()` holds afterwards exactly when `startIndex` was already 0. `BufferScenarios.ClearAfterWrap` shows the consequence. A buffer bound to 3 that wrapped once and was then cleared has `startIndex == 1`. After one more `Add`, the first slot `All` would read is 1, but `len` is 1, so Go would index outside the slice. `Buffer.UnreadableIndexesPastLen` states the general case. `Scenarios.DiscardAfterWrap` shows the same through the handler: `Discard` on a wrapped handler bound to 3, then one more `Handle`, leaves a buffer that `SetRealHandler` could not read. When the buffer is instead refilled to capacity, it is readable but out of order: `Scenarios.DiscardAfterWrapRotates` logs a, b, c after such a `Discard`, and the replay emits b, c, a, the oldest record last. The handler operations that iterate (`SetRealHandler`) therefore require `Readable()`, and this is exactly where the source would panic.

## The handler

A node has a `const level`, a `const buffer` shared by the tree, and a `const parent`. Its mutable fields are `realHandler`, `attrs` and `groups`. A ghost `depth` makes the parent chain well-founded. `attrs` is `Option<seq<Attr>>` so that a nil slice and an empty one stay distinct.

The real handler is a `Sink` value that records how it was scoped. Whether it accepts a level, and whether it fails on a record, are the two function-valued fields of `Downstream`, which are left open. Calling `Handle` on a real handler appends an `Emission` to `down.trace`.

The model exposes three behaviours of the source as written:

- **`Handle` does not check the level.** Only `Enabled` does, and a logger asks `Enabled` first. `Scenarios.HandleIgnoresLevel` stores and replays a Debug record handed straight to an Info handler.
- **Forwarding nodes drop their context.** Once a real handler is reachable, `WithAttrs`/`WithGroup` return a new unlinked node. It wraps the resolved real handler with only the new attributes or group, not the node's own. `Scenarios.DerivedAfterAttachDropsContext` opens a group on a node that carries attributes; the attributes are lost.
- **nil versus empty attributes.** The live path applies attributes when the slice is non-nil. The drain path applies them only when it is non-empty. `Scope.DrainMatchesLive` proves that the two paths agree exactly when the context's attributes are not `Some([])`, and `Scenarios.EmptyAttrsLiveVersusDrain` shows the difference.

On nodes derived before a real handler is reachable, attributes added before a group end up inside that group. This differs from the convention of log/slog's own handlers, where `logger.With(a).WithGroup(g)` leaves `a` outside `g`. Such a node keeps one list of groups and one list of attributes, and both paths apply all the groups first and then the attributes (handler.go:80-85, handler.go:150-155). So `With(a).WithGroup(g)` reaches the real handler as `WithGroup(g).WithAttrs(a)`; `Scenarios.AttrsBeforeGroupEndInside` shows the emission `Attrs(Group(Out, "g1"), [common])`. Nodes derived after a real handler is reachable nest the other way. Each forwarding node wraps the real handler it resolved (handler.go:99-102, handler.go:121-124), so `a` stays outside `g`, as in log/slog; `Scenarios.AttrsBeforeGroupAfterAttach` shows `Group(Attrs(Out, [common]), "g1")` for the same two calls.

`SetRealHandler` with a nil real handler (`None`) on an empty buffer resets the node: it goes back to buffering unless an ancestor has a real handler. `Scenarios.DetachResumesBuffering` stores a record after such a reset and replays it when a real handler is set again.

## Model

| member | source | states |
|---|---|---|
| RingSpec.Push | buffer.go:32-49 | One Add on the live contents ends with the new element and never takes a bound buffer over its capacity |
| RingSpec.PushIsLastN | buffer.go:42-48 | An Add into a bound buffer keeps the last `cap` of the old contents followed by the new element |
| RingSpec.PushAllBound | buffer.go:32-49 | Drop-oldest FIFO: a run of Adds into a bound buffer leaves the last `cap` elements of everything added, oldest first |
| RingSpec.PushAllUnbound | buffer.go:37-39 | An unbound buffer keeps every element added, in insertion order |
| RingSpec.DropOldestFromEmpty | buffer.go:32-49 | From empty, N Adds into capacity C leave the last min(N, C) elements, and the buffer is full exactly when N >= C |
| Ring.OverwriteOldest | buffer.go:45-48 | Writing the oldest slot of a full ring and advancing the start by one drops the oldest element and appends the new one |
| Ring.Buffer.SlotHoldsItem | buffer.go:67-73 | On a readable buffer, slot (startIndex + i) % cap lies below len and holds the i-th live element |
| Ring.Buffer.UnreadableIndexesPastLen | buffer.go:67-73 | If the buffer is not Readable, some slot the iteration visits lies at or past len |
| Ring.Buffer.constructor | buffer.go:125-139 | n > 0 gives an empty bound buffer of capacity n; otherwise an empty unbound buffer of capacity 16; startIndex 0 |
| Ring.Buffer.Grow | buffer.go:37-39 | Growing a full unbound slice gives a larger fresh array holding the same elements, with the same contents |
| Ring.Buffer.Append | buffer.go:37-39 | With room in the array: len + 1, startIndex unchanged, the element appended to the slice and to Contents; Valid kept |
| Ring.Buffer.Overwrite | buffer.go:45-48 | On a full bound buffer: len unchanged, the slot at startIndex replaced, startIndex advanced modulo cap, the oldest element dropped; Valid kept |
| Ring.Buffer.Add | buffer.go:32-49 | Append when unbound or below capacity, else overwrite the oldest slot; Contents becomes Push of the old contents; Wf and Valid kept |
| Ring.Buffer.All | buffer.go:57-75 | Exactly len pairs (i, element), i numbered from 0, the elements in iteration order |
| Ring.Buffer.Values | buffer.go:81-89 | The elements All yields, in the same order; on a Valid buffer, the live contents oldest first |
| Ring.Buffer.Do | buffer.go:92-96 | Applies the callback once per element, oldest first: a left fold over what All yields |
| Ring.Buffer.Clear | buffer.go:99-107 | len 0, same capacity, empty contents; startIndex unchanged, so the buffer is Valid again only if startIndex was 0 |
| Ring.Buffer.Len | buffer.go:110 | The number of live elements |
| Ring.Buffer.IsFull | buffer.go:113-118 | Never for an unbound buffer; for a bound one exactly when len == cap |
| Scope.ScopeGroupsPath | handler.go:80-82 | Scoping by a list of groups nests keys under exactly those groups, in order, on the same base handler |
| Scope.ScopeGroupsAppend | handler.go:128-132 | Scoping by groups a then b equals scoping by a + b, so a node's appended group nests inside its inherited ones |
| Scope.DrainMatchesLive | handler.go:153-155 | A replayed record gets the scope the live path would have given it, if and only if its attributes are not a non-nil empty slice |
| Scope.ReplayInOrder | handler.go:148-157 | A drain emits every buffered record exactly once, in buffer order, each in its own captured scope |
| Scope.FailuresIffSomeFailed | handler.go:156 | The drain's error list is non-empty if and only if some replayed record failed, and it holds at most one error per record |
| Handlers.LiveSink | handler.go:79-85 | The real handler a live record goes to: the node's groups in order, then its attributes when the slice is non-nil |
| Handlers.RecordSink | handler.go:149-155 | The real handler a buffered record is replayed into: its groups in order, then its attributes when non-empty |
| Handlers.ReplayAll | handler.go:148-157 | Hands every record to its own scope in order, appending to the trace exactly Replay and returning exactly Failures |
| Handlers.BufferLogHandler.NoRealOnChain | handler.go:184-192 | NoReal holds if and only if no node of the self-then-parent chain has a real handler |
| Handlers.BufferLogHandler.GetRealHandler | handler.go:184-192 | Nil exactly when no node on the chain has a real handler; the node's own real handler when it has one |
| Handlers.BufferLogHandler.GetRealHandlerIsNearest | handler.go:184-192 | The result is the real handler of the nearest node on the chain that has one, and such a node exists whenever the result is non-nil |
| Handlers.BufferLogHandler.Enabled | handler.go:68-74 | level >= the node's level while no real handler is reachable, else the reachable real handler's answer |
| Handlers.BufferLogHandler.EnabledFollowsNearest | handler.go:68-74 | Once a real handler is reachable, Enabled answers as the nearest node's real handler does |
| Handlers.BufferLogHandler.NewBound | handler.go:53-61 | A root node with no real handler or context, and an empty buffer bound to maxRecords (unbound when maxRecords <= 0) |
| Handlers.BufferLogHandler.New | handler.go:47-49 | A root node with no real handler or context, and an empty unbound buffer |
| Handlers.BufferLogHandler.Forwarder | handler.go:100-102 | A node with only a real handler: no buffer, no parent, no context |
| Handlers.BufferLogHandler.Clone | handler.go:169-180 | A child of h sharing its buffer, with h's level, real handler, attributes and groups |
| Handlers.BufferLogHandler.Handle | handler.go:76-95 | While a real handler is reachable: the buffer is untouched, and exactly one emission goes to that handler scoped by the node's groups and then its attributes, returning its result. Otherwise: nothing is emitted, nil is returned, and the record with the node's context is added to the shared buffer exactly as Buffer.Add does it. It is appended to the slice with startIndex kept, or on a full bound buffer written over slot startIndex with startIndex advanced modulo cap. The live contents become Push of the old ones. The level is not checked in either case |
| Handlers.BufferLogHandler.WithAttrs | handler.go:97-112 | While forwarding: an unlinked node with the reachable real handler plus only the new attributes. While buffering: a child with the same buffer and level, still buffering, whose attributes are the node's followed by the new ones (nil only if both are nil) |
| Handlers.BufferLogHandler.WithGroup | handler.go:114-134 | "" returns the node itself. While forwarding: an unlinked node with the real handler in the new group. While buffering: a child whose groups are the node's followed by the name |
| Handlers.BufferLogHandler.Discard | handler.go:137-139 | The shared buffer is emptied (a nil buffer is left alone); startIndex unchanged |
| Handlers.BufferLogHandler.SetRealHandler | handler.go:146-165 | With a real handler: replays the buffered records in order, each in its own scope, without stopping at failures, and returns every failure; then empties the buffer and makes it the node's real handler. With nil on an empty buffer: emits nothing, returns no error, and resets the node's real handler to nil, so it falls back to its parent chain |
| Handlers.BufferLogHandler.Drain | handler.go:147-160 | The replay and clear of SetRealHandler: the trace grows by Replay of what the buffer held, the result is its Failures, and the buffer is left empty |
| Scenarios.LogOnRoot | handler.go:88-94 | Handle on a buffering root stores the record with no context and emits nothing |
| Scenarios.LogOnChild | handler.go:88-94 | Handle on a buffering child stores the record with the child's attributes and groups in the shared buffer |
| Scenarios.LogFiltered | handler_test.go:10-32 | Behind a logger that asks Enabled first, an Info handler stores the Info and Warn records and not the Debug one |
| Scenarios.LevelFiltering | handler_test.go:10-32 | Setting the real handler then emits exactly the Info and Warn records, in order |
| Scenarios.HandleIgnoresLevel | handler.go:76-95 | A Debug record handed straight to Handle on an Info handler is stored and later replayed |
| Scenarios.LogWithOwnAttrs | handler_test.go:34-57 | Two records, each with attributes of its own, are stored in order |
| Scenarios.RecordAttributesKept | handler_test.go:34-57 | Both records come out in order, each with its own attributes |
| Scenarios.NumberedStep | handler_test.go:153-156 | Each record logged into a handler bound to 3 moves the window of the last three by one |
| Scenarios.LastThreeNumbered | handler_test.go:148-176 | Of the five records, the last three are those numbered 2, 3 and 4 |
| Scenarios.LogNumbered | handler_test.go:148-176 | After five records into a handler bound to 3, the buffer holds records 2, 3 and 4 |
| Scenarios.LimitedBufferDropsOldest | handler_test.go:148-176 | Setting the real handler emits records 2, 3 and 4 in order; 0 and 1 are gone |
| Scenarios.LogThroughSubCommon | handler_test.go:59-92 | A record logged two WithAttrs away from the root is stored with both nodes' attributes, outer first |
| Scenarios.WithAttrsAccumulate | handler_test.go:59-92 | The three records come out scoped by the attributes of the node each was logged on |
| Scenarios.LogInGroup | handler_test.go:94-117 | A record logged in group g1 is stored with groups [g1] |
| Scenarios.LogInNestedGroup | handler_test.go:94-117 | A record logged in g2 inside g1 is stored with groups [g1, g2] |
| Scenarios.WithGroupNests | handler_test.go:94-117 | The records come out in g1 and in g2 nested in g1 |
| Scenarios.AttachThenLog | handler_test.go:119-146 | After the real handler is set on an empty handler, a record goes straight to it |
| Scenarios.AttachedForwards | handler_test.go:119-146 | Records logged after attaching are emitted at once, scoped by the context of the node they are logged on |
| Scenarios.DiscardDropsBuffered | handler_test.go:178-194 | After Discard, setting the real handler emits nothing and returns no error |
| Scenarios.DerivedBeforeAttach | handler_test.go:196-215 | A node derived before the real handler is set forwards through the root's real handler with its own attributes |
| Scenarios.DerivedAfterAttachDropsContext | handler.go:119-125 | A group opened after attaching, on a node that carries attributes, wraps the real handler with the group only: the attributes are lost |
| Scenarios.LogThroughEmptyAttrs | handler.go:105-110 | A record logged through a child with a non-nil empty attribute slice is stored with that empty slice |
| Scenarios.EmptyAttrsLiveVersusDrain | handler.go:83-85 | A non-nil empty attribute slice is skipped on replay and applied on the live path |
| Scenarios.LogInGroupAfterAttrs | handler.go:105-133 | A record logged in g1 on a node that carries an attribute is stored with that attribute and groups [g1] |
| Scenarios.AttrsBeforeGroupEndInside | handler.go:150-155 | An attribute added before group g1 reaches the real handler inside g1: the emission goes to Attrs(Group(Out, g1), [common]) |
| Scenarios.FillThree | handler.go:88-92 | Three records into a handler bound to 3 fill the buffer without wrapping: len 3, startIndex 0 |
| Scenarios.WrapOnce | handler.go:88-92 | A fourth record into a full handler bound to 3 overwrites the oldest slot and moves startIndex to 1 |
| Scenarios.WrapThenDiscard | handler.go:137-139 | A fourth record wraps the buffer (startIndex 1); Discard empties it and keeps startIndex 1 |
| Scenarios.DiscardAfterWrap | handler.go:137-139 | One more record after that is stored at slot 0 with len 1 and startIndex 1: the buffer is not Readable, so a replay would read past the live element |
| Scenarios.AttachEmpty | handler.go:146-165 | Setting a real handler on a fresh root with an empty buffer emits nothing and makes the root forward |
| Scenarios.AttrsBeforeGroupAfterAttach | handler.go:97-134 | With(common).WithGroup(g1) derived after attaching nests the other way: the emission goes to Group(Attrs(Out, [common]), g1) |
| Scenarios.AttachThenDetach | handler.go:146-165 | Resetting the real handler to nil on an empty buffer leaves a buffering root again |
| Scenarios.DetachResumesBuffering | handler.go:146-165 | After the reset, a record is stored and replayed when a real handler is set once more |
| Scenarios.RefillAfterDiscard | handler.go:137-139 | Three records after Discard on a wrapped handler bound to 3 fill slots 0, 1, 2 while startIndex stays 1 |
| Scenarios.DiscardAfterWrapRotates | buffer.go:99-107 | Replaying that buffer emits b, c, a: the oldest record comes out last |
| Scenarios.LogBeforeAttach | slogbuffer_test.go:12-18 | An Info handler bound to 256 stores the Info and Warn records; the Debug one is filtered out |
| Scenarios.ExampleLifecycle | slogbuffer_test.go:10-43 | The two stored records are replayed without error on attach, and a later record goes straight through: three emissions in order |
| BufferScenarios.UnboundAddTwo | buffer_test.go:16-27 | Two Adds to an unbound buffer: length 2, not full, All yields (0,1), (1,2) |
| BufferScenarios.UnboundAddThree | buffer_test.go:29-36 | A third Add goes last; length 3, still not full |
| BufferScenarios.UnboundClear | buffer_test.go:38-42 | Clear leaves length 0 and All yields nothing |
| BufferScenarios.BufferDo | buffer_test.go:45-55 | Do visits 2, 3 and 4 in order; summing gives 9 |
| BufferScenarios.BoundBufferTwo | buffer_test.go:57-69 | Two Adds to a buffer bound to 3: length 2, not full |
| BufferScenarios.BoundBuffer | buffer_test.go:57-77 | The third Add fills it; All yields 1, 2, 3 numbered from 0 |
| BufferScenarios.BoundBufferOverCapacity | buffer_test.go:79-94 | Five Adds into a buffer bound to 3: full, length 3, All yields 2, 3, 4 numbered from 0 |
| BufferScenarios.WrappedThenCleared | buffer.go:99-107 | A buffer bound to 3 that wrapped once is empty after Clear, with startIndex still 1 |
| BufferScenarios.ClearAfterWrap | buffer.go:67-69 | One Add after that leaves len 1 and startIndex 1: the first slot the iteration reads lies past len |

## Left out

- Locking (`sync.Mutex` in buffer.go) and every data race, such as the unsynchronised read and write of the real handler. The model is single-threaded.
- Go iterator laziness and early exit from `yield`. `All`, `Values` and `Do` produce or fold the whole sequence.
- Ring.Buffer.Grow: Go's slice growth factor is not modelled; the model doubles the capacity. The initial unbound capacity of 16 is kept.
- `multierr.AppendFunc` internals. The aggregate error is the sequence of errors in order, and "non-nil" means "non-empty".
- `context.Context` is only passed through, so it is dropped.
- The internals of `slog.Record`, `slog.Attr` and `slog.Level`. A record is opaque, an attribute is a key and a rendered value, and a level is an integer.
- The behaviour of real `slog.Handler`s (formatting, dotted group keys). The real handler is the `Sink` value plus the two oracles of `Downstream`, which are fields fixed when it is built rather than uninterpreted functions.
- Nil receivers. `All` and `Clear` on a nil buffer are modelled at the handler's call sites (`Discard`, `SetRealHandler`), where the buffer may be null.
- The zero-value `BufferLogHandler`, which has no buffer and would crash in `Handle`. Handlers.BufferLogHandler.Handle requires a buffer whenever no real handler is reachable.
- Handlers.BufferLogHandler.SetRealHandler requires an empty buffer when the real handler passed is nil. With records buffered, Go calls Handle on the nil interface and panics; the panic is not modelled.
- Handlers.BufferLogHandler.SetRealHandler requires `Readable()` of the buffer, the condition under which the source's iteration stays inside the slice. The out-of-range panic itself is not modelled.
- The test helpers of utils_test.go and the text output of the example in slogbuffer_test.go. These are I/O and formatting; the scenarios state the emissions instead.
- Aliasing between a slice passed to `WithAttrs` and the node's own attributes. Slices are values here.
