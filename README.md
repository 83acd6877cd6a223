# event-router in Dafny

A model of `event-router.js`, a small router that lets code subscribe to
events of emitter objects that may not exist yet. A handler is registered with
`on("[emitterName]eventName", handler)`. The router keeps one record per emitter
name, `{emitter, config, handlers}`. `setEmitter(name, emitter, config)` supplies
(or replaces) the concrete emitter and binds every handler recorded for that
name to it. When a config (a binding adapter) is stored, binding goes through
`config.on(emitter, eventName, handler)`; otherwise through
`emitter.on(eventName, handler)`.

Also modelled: the fixtures of `test/test.js` (the `PropertySupport` emitter,
the `emitterConfig` adapter that reads `change:<property>` event names, the
assumed Node EventEmitter) and its six scenarios, each proved to call the
handler the number of times the test expects.

Files:

- `Wrappers.dfy`: `Option`, standing for JavaScript's null / undefined.
- `Descriptor.dfy`: the regular expression `/\[(.+)\](.+)/` and `exec` as
  functions over strings. A declarative statement of the match `exec`
  reports (leftmost start, greedy groups, `.` not matching line terminators),
  with lemmas tying the two together.
- `Routing.dfy`: the registry records and the `EventRouter` class, whose
  methods update `registry` and `binds` in place. Also the functions
  `OnSpec` / `SetEmitterSpec` that specify them, and lemmas about those
  functions and about whole call sequences (`Run`). Binding is a call into
  foreign code, so each bind is appended to the log `binds` rather than made.
- `Fixtures.dfy`: `PropertySupport`, the assumed `EventEmitter`, `split` /
  `join` on one character, and `emitterConfig.on`.
- `Scenarios.dfy`: the six tests. Each logged bind is delivered to the
  concrete fixture object right after the router call that logged it, which
  is when the router makes that call.

The router's `on` reads `exec(desc).length` before anything else. When `exec`
returns null that read throws a TypeError, so the explicit length test at
`event-router.js:22` never fires and the "Incorrect event description" error
is never raised. The model follows the code: `EventRouter.On` returns
`ok == false` and changes nothing, and no error value carries the descriptor.

## Model

| member | source | states |
|---|---|---|
| Descriptor.RunEndSpec | event-router.js:4 | The run `.` can match from k stops exactly at the first line terminator or at the end of the string. |
| Descriptor.LastCloseSpec | event-router.js:4 | The backtracking search finds the rightmost `]` of a range, or reports that the range holds none. |
| Descriptor.MatchesWithinRun | event-router.js:4 | No match starting at i extends past the first line terminator after it. |
| Descriptor.MatchAtSpec | event-router.js:4 | At one start position the matcher finds the match with the rightmost possible `]` and the longest event name, or reports that none starts there. |
| Descriptor.ExecFromSpec | event-router.js:4 | Scanning from k finds the leftmost start that has a match, with its greedy groups, or reports that no match starts at or after k. |
| Descriptor.Exec | event-router.js:21 | A reported match has a non-empty emitter name between its brackets and a non-empty event name after them; which match it is, is stated by ExecSpec. |
| Descriptor.ExecSpec | event-router.js:21 | `exec` returns the leftmost-greedy match, and returns null exactly when the string holds no match at all. |
| Descriptor.ExecMatchUnique | event-router.js:4 | The leftmost-greedy match is unique. |
| Descriptor.Parse | event-router.js:21-26 | Both groups `on` reads are non-empty; their meaning is stated by ParseMeaning. |
| Descriptor.ParseMeaning | event-router.js:21-26 | `on` reads a descriptor exactly when some match exists, and then reads the two groups of the match `exec` reports. |
| Descriptor.ParseBracketed | event-router.js:21-26 | `[A]B` with non-empty A and B, no line terminators and no `]` in B splits into emitter name A and event name B. |
| Descriptor.ParseIgnoresLeadingText | event-router.js:4 | The expression is unanchored: text before the first `[` does not change the result. |
| Descriptor.ParseRejectsMalformed | event-router.js:21-24 | `noBrackets`, `[]x` and `[A]` have no match. |
| Routing.Registered | event-router.js:49-57 | `_registerEmitter` adds the name with `{null, null, []}` only when absent, and leaves every existing record untouched. |
| Routing.RegisteredIdempotent | event-router.js:49-57 | Registering a name twice is the same as registering it once. |
| Routing.BindStep | event-router.js:66-78 | `_setHandler` makes at most one bind, none exactly when no emitter is stored, and that bind carries the stored emitter and config. |
| Routing.Replay | event-router.js:59-64 | Replaying the handlers makes one bind per pair, in order, against the record's emitter and config, and none when the emitter is null. |
| Routing.OnSpec | event-router.js:20-36 | `on` succeeds exactly when the descriptor parses; then it keeps every name, and the log keeps its calls and gains at most one. |
| Routing.SetEmitterSpec | event-router.js:38-47 | `setEmitter` leaves a record for the name holding the given emitter, and the given config when there is one; the log keeps its earlier calls. |
| Routing.OnAppendsOnePair | event-router.js:20-36 | A successful `on` appends exactly one pair to its name's handlers, keeps that record's emitter and config, and leaves other records alone. |
| Routing.OnBindsOnceWhenEmitterStored | event-router.js:28-35 | A successful `on` binds the new pair once, through the stored config if any, when an emitter is stored; otherwise it binds nothing. |
| Routing.OnRejectsMalformed | event-router.js:21-24 | `on` with any descriptor that has no match fails and leaves the router unchanged (for example `noBrackets`, `[]x`, `[A]`, by ParseRejectsMalformed). |
| Routing.SetEmitterReplaysAll | event-router.js:38-47 | `setEmitter` stores the emitter, keeps the old config unless a new one is given, and keeps the handlers. It leaves other records alone, then binds every recorded pair exactly once, in order, against the new emitter. |
| Routing.HandlersRecordEveryOn | event-router.js:20-47 | From a fresh router, a name's handlers are exactly the pairs of the successful `on` calls for that name, in order. |
| Routing.HandlersOnlyGrow | event-router.js:20-47 | No sequence of calls removes a record or shortens its handlers. |
| Routing.EventRouter.constructor | event-router.js:6-8 | A new router has no records and has made no binds. |
| Routing.EventRouter.On | event-router.js:20-36 | `on` reports failure exactly when there is no match, and then changes nothing; otherwise the new state is `OnSpec`'s. |
| Routing.EventRouter.SetEmitter | event-router.js:38-47 | The new state is `SetEmitterSpec`'s. |
| Routing.EventRouter.RegisterEmitter | event-router.js:49-57 | The registry becomes `Registered` of the old one. |
| Routing.EventRouter.SetAllHandlers | event-router.js:59-64 | The `forEach` loop appends exactly `Replay` of the record's handlers to the log. |
| Routing.EventRouter.SetHandler | event-router.js:66-78 | One bind through config or emitter when an emitter is stored, none otherwise. |
| Fixtures.WithListener | test/test.js:56-61 | Adding a listener appends it to its key's list, creating the list if needed, and leaves other keys' lists unchanged. |
| Fixtures.PropertySupport.constructor | test/test.js:54-55 | A new PropertySupport has no listeners. |
| Fixtures.PropertySupport.AddPropertyListener | test/test.js:56-61 | The listener table becomes `WithListener` of the old one. |
| Fixtures.PropertySupport.ChangeProperty | test/test.js:62-68 | Calls each listener of the property once, in registration order, and none when there are none. |
| Fixtures.EventEmitter.constructor | test/test.js:20 | A new EventEmitter has no listeners. |
| Fixtures.EventEmitter.On | test/test.js:2 | The assumed Node emitter appends the listener to the event's list. |
| Fixtures.EventEmitter.Emit | test/test.js:2 | The assumed Node emitter calls each listener of the event once, in order. |
| Fixtures.Split | test/test.js:74 | `split` yields at least one segment, no segment holds the separator, and joining the segments gives back the string. |
| Fixtures.SplitJoin | test/test.js:74 | Splitting undoes joining segments that hold no separator. |
| Fixtures.ConfigProperty | test/test.js:74-76 | The property `emitterConfig.on` subscribes under never holds a `:`; when it binds is stated by ConfigPropertyWhen. |
| Fixtures.ConfigPropertyWhen | test/test.js:73-78 | `emitterConfig.on` binds exactly when the event name's first `:`-segment is `change`. |
| Fixtures.ConfigPropertyNamed | test/test.js:73-78 | `change:<p>`, with anything after a further `:`, subscribes under property p. |
| Fixtures.EmitterConfigOn | test/test.js:72-79 | Adds the handler under the second segment when the first is `change`, and changes nothing otherwise. |
| Scenarios.DeliverToEventEmitter | event-router.js:76 | A logged default-convention bind, made on the EventEmitter it names. |
| Scenarios.DeliverToPropertySupport | event-router.js:74 | A logged bind through `emitterConfig`, made on the PropertySupport it names. |
| Scenarios.SetEmitterThenOn | test/test.js:25-26 | Emitter first, then `on`: the record holds the one pair, and exactly one bind is made. |
| Scenarios.OnThenSetEmitter | test/test.js:32-33 | `on` first, then the emitter: the record holds the one pair, and exactly one bind is made, by `setEmitter`. |
| Scenarios.DefaultEmitterThenOn | test/test.js:24-29 | One emit calls the handler once. |
| Scenarios.DefaultOnThenEmitter | test/test.js:31-36 | One emit calls the handler once. |
| Scenarios.ReplaceEmitter | test/test.js:44-45 | Replacing the emitter with no config argument binds the one recorded pair to the new emitter under the stored config. |
| Scenarios.ReplaceEventEmitterThenEmit | test/test.js:44-46 | One emit on the replacement emitter calls the handler once more. |
| Scenarios.DefaultReplaceEmitter | test/test.js:38-48 | The count is 1 after the first emit and 2 after the emit on the replacement. |
| Scenarios.CustomEmitterThenOn | test/test.js:93-98 | Through `emitterConfig`, one change calls the handler once. |
| Scenarios.CustomOnThenEmitter | test/test.js:100-105 | Through `emitterConfig`, one change calls the handler once. |
| Scenarios.ReplacePropertySupportThenChange | test/test.js:113-117 | The stored config still applies to the replacement, and one change calls the handler once more. |
| Scenarios.CustomReplaceEmitterKeepsConfig | test/test.js:107-118 | The count is 1 after the first change and 2 after the change on the replacement. |
| Scenarios.ReadsAsProperty | test/test.js:73-78 | `change:<property>` is read back whole by `on`, and `emitterConfig` subscribes it under property. |

## Left out

- Module export, AMD `define` and the `window` global (event-router.js:80-93): environment plumbing with no behaviour of its own.
- Node's `events.EventEmitter` and the `should` library (test/test.js:1-2) are not part of this model. `Fixtures.EventEmitter` assumes the same append-then-call-in-order listener table as `PropertySupport`.
- The mocha `describe` / `it` / `beforeEach` harness and the "should exist" test (test/test.js:5-8): each scenario starts from a fresh router, emitter and zero count, as `beforeEach` sets them up.
- Scenarios: they are proved for any emitter name and event or property name of the tests' form (no line terminators, no `]` in the event name, no `:` in the property), not only for `objectA`, `testEvent` and `testProperty`.
- Handler bodies and arguments: handlers are opaque ids. `handlerCalled` is the number of times a fired event calls the handler, that is, its count in the list of listeners called.
- Exceptions thrown by `emitter.on` / `config.on`: binding is total. In the source the bind comes before the append (event-router.js:30-32), so a throwing immediate bind would leave the pair unrecorded; the model does not capture that.
- Routing.EventRouter.On: a failed parse returns `ok == false` instead of throwing a TypeError; nothing after the throw is modelled, and no caller observes the exception object.
- Property names that clash with `Object.prototype` members (`constructor`, `__proto__`, ...) in `this._emitter` and `_listeners`: the registry and listener tables are clean maps.
- JavaScript truthiness of `emitter` and `config` beyond null / undefined (for example `0` or `""`): these are `Option` values.
- Fixtures.ConfigProperty: with no second `:`-segment, `desc[1]` is undefined, and the model uses the key `"undefined"` that JavaScript coerces it to.
- Strings are sequences of Unicode scalar values, while JavaScript strings are sequences of UTF-16 code units, so a lone surrogate cannot be represented. On well-formed strings the two groups come out the same, because `[`, `]` and the line terminators are all in the Basic Multilingual Plane and a group boundary never falls inside a surrogate pair.
- Binds made to a replaced emitter are never undone; the model keeps them in the log, and the scenarios fire only the newest emitter, as the tests do.
