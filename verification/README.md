# A verified model of McApp's BLE service and update runner

McApp talks to a MeshCom node over Bluetooth LE. The node's firmware cuts register texts at a
byte clamp, BlueZ answers every D-Bus call as it pleases, links drop at any `await`, and updates
are deployed into three slots that must always leave a way back. This project models the parts of
the system that have to be right under all of that, and proves what they promise.

| modules | what they model |
|---|---|
| Json, RoundTrip | JSON texts as `json.loads` reads them, a compact printer, and the round trip between the two |
| JsonForms, JsonGrammar | numbers, strings and whole texts as the grammar of RFC 8259 has them, and that the reader accepts exactly these |
| Scanner, Traversal, Locality, Salvage, SalvageExact | the repair of truncated register texts, and its exactness over every text and every cut |
| Heuristic | the "looks truncated" test by counting braces, and exactly where it is right |
| Utf8, RegisterFrame | UTF-8 (RFC 3629), and the decoding of `D{...}` frames cut at any byte |
| RegisterCache, SseQueue, Service | the service's mutable state: register cache, notification queue and event, background tasks and PIN probe |
| Protocol | routes, background tasks, PIN probe, bus and operation lock as a transition system |
| Promises, Stretches | what each step of it does, told by the fields it finds, with what follows for runs; and what one background task does within a run |
| OperationLock | the adapter's lock and bus, by what each caller's own code does next |
| BlueZ | what BlueZ answers during `ensure_connected`, and what comes of it |
| DBusErrors, BondMonitor, Session, BleAdapter | the BLE adapter: one class whose D-Bus calls are oracles, with a watch over the BlueZ operations it issues |
| Frames | the frames written to the device and a reader of their layout |
| Feed, EventBus | the update runner's event broadcaster |
| Slots, UpdateRunner | slot choice, update, automatic and manual rollback |

Three ideas carry most of the proofs. For the salvage, a parser and the one-pass scanner are run
over the same text: crossing a value below the top level leaves the scanner as it was, and a
top-level value makes the next safe point. The results are about every text the parser accepts,
with whitespace anywhere, and not only about printed ones. For the stateful parts, each operation
is a function on a value (`Step`, `Apply`, `Happened`, ...), the class methods are proved equal to
that function on the fields they update, and the promises are proved about the function over all
runs. And no such function is the last word on itself: what it is built on is stated a second time in
other terms (the grammar's, literal names and bytes, the fields before and after), and the two are
proved equal (`NumberVerdict`, `SecurityVerdict`, `LinkLostVerdict`, `KeyVerdict`, the `...Layout`
lemmas of `Frames`, and others).

In the adapter, `Suspend` is an `await`: any number of link drops, agent releases, foreign pieces
of `start_notify`, bus resets and steps of other callers may strike while it lasts, each where its
own code stands. Facts about the world outside (`handlers`, `drops`, the trace of BlueZ operations)
are kept beside the adapter's own fields so that the contracts can speak about them; `calm` says of
a run that nothing strikes. In the service, a notice is put down to the background task whose code is
running (`speaker`, `said`), so that the retry loop can promise what it announces. What BlueZ answers is given to each operation as a
parameter: for all answers the contracts say what holds whatever strikes, and for calm runs they
name the result (`BlueZ.EnsureOutcome`).

That only the caller inside the lock touches the bus is nowhere assumed. `OperationLock` has one
boolean lock without an owner, and steps on the bus that look at where their caller's code stands,
never at the lock; that callers exclude each other is proved of it. Every write of the bus in
`BLEAdapter` is such a step (`Act`), or the reset that takes no lock (`DropStaleBus`), and the
steps of others in `Suspend` and in the runs of `Protocol` are the very same.

## What turned out not to hold

- The truncation test counts braces inside strings as well. `{"a":"}"}` cut after seven characters
  passes as intact, `{"a":"{"}` in full counts as truncated (`Heuristic.ClosingBraceMisleads`,
  `Heuristic.OpeningBraceMisleads`). `Heuristic.WholeTextVerdict` and `Heuristic.CutVerdict` say
  exactly when the test is right.
- A failed `ensure_connected` does not always leave the bus closed. When stale-bond recovery opens a
  bus to read the paired state and the device is not paired, or cannot be removed, that bus stays
  open (ble_service/src/ble_adapter.py:1984-1994, ble_service/src/ble_adapter.py:2134-2139).
  `BleAdapter.BLEAdapter.EnsureConnected` says so of the request, of the last failure to connect
  before recovery began, and of BlueZ's answers, in both directions, and that a request not made by
  a user never keeps it; `BleAdapter.FailureKeepsBus` is a run that does.
- What escapes from `ensure_connected` as an exception leaves the state at CONNECTING or
  DISCONNECTED rather than ERROR, or a link up that may have no handler.
- "connected" is returned although the link may have dropped while `StartNotify` was awaited
  (`BleAdapter.ConnectedButFallen`); the link is up exactly if no drop came after it was counted as
  connected.
- "already connected" is returned without looking whether anybody listens. A link that was connected
  and never subscribed to, as after a `start_notify` that raised in the legacy connect
  (ble_service/src/main.py:857-859), stays without a handler (`BleAdapter.ConnectedWithoutHandler`);
  the handler is there exactly if it was there before the call.
- A `start_notify` outside the lock that fails late takes the handler off whatever characteristic is
  live by then, be it another session's (`Session.HandlerIsTaken`); `Session.FailedNotifyVerdict`
  says exactly when.
- The comment beside the PIN probe says a deadline is cleared "by identity". It is compared by
  value (ble_service/src/main.py:1697), and a request whose window lies inside another's replaces
  and then disarms the other's probe (`Protocol.OverlapDisarms`). `Protocol.ProbeVerdict` says
  exactly which steps take a route's probe from it, and `Protocol.ProbeStays` the same of runs.
- A reconnect task created while a route waits for the old one to be cancelled is forgotten but
  runs on (`Protocol.OrphanWitness`); `Protocol.OrphanVerdict` says exactly which steps make orphans.
- A route refused with status 409 has by then ended the reconnecting it interrupted
  (`Protocol.RefusalEndsReconnecting`). `Protocol.StartVerdict` says exactly which tasks a route
  interrupts, and `Protocol.RefusalVerdict` what a refusal leaves, of every refused route.
- A client of the event stream that leaves in the middle of a drain can strand queued items
  (`SseQueue.AbortStrandsItems`, `SseQueue.AbortVerdict`).
- After an unhealthy update, or after a manual rollback, the next successful update leaves a
  rollback target that is not the version that ran before (`Slots.UnhealthyVersionComesBack`,
  `Slots.RejectedVersionComesBack`); `Slots.RollbackVerdict` is the exact condition.
- Where there is no database (or no file to snapshot) before an update, an older snapshot stays,
  and an automatic rollback puts that one back, or leaves what the bootstrap wrote
  (`UpdateRunner.OlderSnapshotComesBack`). `UpdateRunner.DatabaseVerdict` and
  `UpdateRunner.FileVerdict` are the exact conditions.
- A message whose group holds a closing brace does not come back (`Frames.MessageComesBack`).

## Model

| member | source | states |
|---|---|---|
| Scanner.Repair | ble_service/src/main.py:308-370 | the scanning loop computes the repair specification, for every string |
| Scanner.ScanInvariant | ble_service/src/main.py:339-370 | after an opening brace the depth stays at least 1 until the object closes, so a stray bracket is never met, whatever the string |
| Scanner.SafePoint | ble_service/src/main.py:347-366 | every remembered trim point lies at depth 1 outside every string |
| Scanner.RepairAccounting | ble_service/src/main.py:339-370 | kept text and discard count add up to the input, plus the added brace when trimmed; all but that brace is a prefix of the input |
| Scanner.RepairIdempotent | ble_service/src/main.py:308-370 | repairing a repaired text returns it unchanged with nothing discarded |
| Scanner.RepairGrows | ble_service/src/main.py:319-337 | for any string, a longer cut is repaired whenever a shorter one is, and never keeps less |
| Scanner.RunPrefix | ble_service/src/main.py:344-366 | the scan of a prefix does not depend on what follows |
| Traversal.CrossBody | ble_service/src/main.py:373-393 | the scan crosses a string literal with any escapes, brackets and commas in it without leaving the string |
| Traversal.CrossValue | ble_service/src/main.py:373-433 | the scan crosses any nested value unchanged, and makes exactly its end the safe point when it is a string or container at the top level |
| Traversal.CrossMembers | ble_service/src/main.py:396-433 | commas, colons and closings inside nested objects never touch the top-level state |
| Traversal.CrossItems | ble_service/src/main.py:396-433 | the same inside arrays |
| Locality.LocalValue | ble_service/src/main.py:308-337 | what a value reads as depends on its own characters and, for a scalar, on being delimited |
| Salvage.KeptIsLargest | ble_service/src/main.py:319-337 | the kept count is the number of members finished within the cut: strings and containers at their closing character, scalars at the comma or brace after them; it grows with the cut |
| Salvage.CrossTopMembers | ble_service/src/main.py:339-370 | at every cut among the top-level members, the trimmed text parses to exactly the members finished before it |
| SalvageExact.ScanInside | ble_service/src/main.py:339-370 | inside the object the scan goes on, and its safe point tells the members kept |
| SalvageExact.ScanCloses | ble_service/src/main.py:413-433 | the scan closes at the object's own brace, having met exactly the braces its strings hold |
| SalvageExact.SalvageIsExact | ble_service/src/main.py:308-370 | for every object text and every cut: the whole text and the overhang past its brace, else exactly the first k members with their full values, else nothing when k is 0 |
| SalvageExact.NoProperPrefixIsJson | ble_service/src/main.py:436-558 | no prefix that stops before the closing brace is a JSON text of any kind |
| SalvageExact.PrefixWithClose | ble_service/src/main.py:339-344 | from the closing brace on, every prefix is the same object |
| Heuristic.LooksTruncatedMeans | ble_service/src/main.py:268-291 | the brace count, told by structure: open objects against the braces inside strings |
| Heuristic.WholeTextVerdict | ble_service/src/main.py:268-291 | a complete text counts as truncated if and only if the braces in its strings do not balance |
| Heuristic.CutVerdict | ble_service/src/main.py:268-291 | a proper cut passes as intact if and only if it ends in a brace and its strings hold as many surplus closing braces as objects are open |
| Heuristic.RightWithoutStringBraces | ble_service/src/main.py:268-291 | with no brace in any string, every non-empty proper prefix counts as truncated and the complete text does not |
| Heuristic.ClosingBraceMisleads | ble_service/src/main.py:268-291 | a text and a cut of it that the test takes for intact |
| Heuristic.OpeningBraceMisleads | ble_service/src/main.py:268-291 | a complete text the test takes for truncated |
| Heuristic.StripVerdict | ble_service/src/main.py:288-291 | stripping takes off whitespace, and all there is at the end |
| Heuristic.SpaceVerdict | ble_service/src/main.py:288-291 | what Python counts as whitespace, character by character |
| JsonForms.NumberVerdict | ble_service/src/main.py:500-501 | what is read as a number is exactly a sign, an integer without a leading zero, an optional fraction and an optional exponent (RFC 8259, section 6) |
| JsonForms.ScalarVerdict | ble_service/src/main.py:500-501 | and a scalar exactly one of those, one of the three literal names, or one of the three Python adds |
| JsonForms.UnescapeVerdict | ble_service/src/main.py:500-501 | a lexeme is read as given code points if and only if it is made of plain characters, two-character escapes and four-digit escapes that stand for them, surrogate pairs combined (section 7) |
| JsonForms.PlainMeansItself | ble_service/src/main.py:500-501 | without quotes, backslashes and control characters, a lexeme stands for its own characters |
| JsonGrammar.LoadsVerdict | ble_service/src/main.py:500-501 | `json.loads` accepts a text as a value if and only if the grammar has it as a text of that value, whitespace anywhere it may be (sections 2 to 7) |
| JsonGrammar.ObjectTextVerdict | ble_service/src/main.py:308-337 | the texts of the salvage results are exactly the grammar's object texts that start with their brace |
| JsonGrammar.WellFormedVerdict | ble_service/src/main.py:500-501 | a value has a text if and only if its scalars and strings have their forms |
| RoundTrip.PrintIsFaithful | ble_service/src/main.py:495-510 | a value is read back from its compact text if and only if some text reads as it |
| RoundTrip.LoadsInvertsPrint | ble_service/src/main.py:495-510 | `json.loads` inverts the printer |
| RoundTrip.PrintedObject | ble_service/src/main.py:308-337 | printed objects are among the texts of the salvage results |
| Utf8.DecodeInvertsEncode | ble_service/src/main.py:483-498 | decoding inverts encoding, for every string |
| Utf8.EncodeInvertsDecode | ble_service/src/main.py:483-498 | whatever decodes strictly is the encoding of its text: no overlong forms, no surrogates |
| Utf8.CutDecodes | ble_service/src/main.py:483-498 | a byte cut decodes exactly when it falls between two characters, and then to the prefix |
| RegisterFrame.Notification.DecodeRegisterFrame | ble_service/src/main.py:436-558 | the decoder reports whether a register came out and sets format, parsed and partial accordingly |
| RegisterFrame.DecodeEveryCut | ble_service/src/main.py:436-558 | for every object text, byte cut and NUL padding: the outcome the cut position calls for, and a dropped frame when the cut splits a character |
| RegisterFrame.DecodeWithoutStringBraces | ble_service/src/main.py:436-558 | with no brace in any string: clean exactly for the full text, partial with exactly the k finished members, dropped when there is none |
| RegisterFrame.CleanVerdict | ble_service/src/main.py:483-510 | a frame is a register in full if and only if, NUL padding aside, it is UTF-8 and a JSON text of the grammar stands behind its first character |
| RegisterFrame.PrintedIsClean | ble_service/src/main.py:436-558 | every printed object, whatever its numbers and strings, comes out as it went in |
| RegisterFrame.DecimalsAreClean | doc/a0-commands.md:265 | a coordinate with decimals is one of them |
| RegisterCache.CacheIsLatest | ble_service/src/main.py:561-638 | after any log of frames and targets, a type is cached if and only if a `D{` frame that decodes to a register of that type came after the last change of target, with the last such frame's value |
| RegisterCache.KeyVerdict | ble_service/src/main.py:592-595 | a value is cached under a key if and only if it is an object whose last member named TYP is a string that stands for one of twelve types, and under that type |
| RegisterCache.MarkersAreNoRegisters | ble_service/src/main.py:131-146 | CONFFIN and MH are not among them |
| RegisterCache.SecondTypDecides | ble_service/src/main.py:592-595 | of two members named TYP the second decides |
| RegisterCache.PrintedIsStored | ble_service/src/main.py:641-681 | every printed register is stored under its type, in place of what was there |
| RegisterCache.CutYieldsPrefix | ble_service/src/main.py:436-558 | whatever a cut frame decodes to is a prefix of the members that were sent |
| RegisterCache.CachedIsPrefix | ble_service/src/main.py:641-681 | if every register frame is a cut of some text, each cached value is a whole-member prefix of one of those texts |
| SseQueue.EveryRunConserves | ble_service/src/main.py:985-995 | over every run, deliveries and evictions in time order followed by the queue are the pushes; an item is evicted only once as many newer ones were pushed as the queue holds |
| SseQueue.EveryRunWakes | ble_service/src/main.py:2118-2135 | with no client leaving mid-drain, a non-empty queue means the event is set or somebody is draining |
| SseQueue.AbortVerdict | ble_service/src/main.py:2118-2135 | exactly when a client that leaves loses the wakeup |
| SseQueue.AbortStrandsItems | ble_service/src/main.py:2118-2135 | a run in which it does |
| Service.ServiceState.NotificationCallback | ble_service/src/main.py:641-681 | a dropped register frame touches neither cache nor queue; a clean or salvaged one is queued as json, the latter as partial, and cached if it is a register; data starting with `@` are queued as binary and all other data as unknown; a full queue loses its oldest notice |
| Service.ServiceState.NoteRegisterCacheTarget | ble_service/src/main.py:598-638 | a change of target empties the cache, a repeated one does not |
| Service.ServiceState.CacheRegisterIfApplicable | ble_service/src/main.py:561-595 | a register replaces the entry of its type and no other; any other value leaves the cache alone |
| Service.ServiceState.PushStatusEvent | ble_service/src/main.py:985-995 | a status event is queued, evicting the oldest if need be, and the event raised |
| Service.ServiceState.ConsumerWakes | ble_service/src/main.py:2118-2122 | waking clears the event and starts a drain |
| Service.ServiceState.ConsumerTakes | ble_service/src/main.py:2126-2135 | the oldest item is taken, or the drain ends on an empty queue |
| Service.ServiceState.OnAdapterDisconnect | ble_service/src/main.py:998-1028 | a disconnect is announced, the probe consumed, and a reconnect task created and referenced if and only if the user did not disconnect, no probe's window is open and no reconnect task is under way; otherwise tasks and reference stay; the invariants hold on |
| Service.ServiceState.BeginEnsureConnected | ble_service/src/main.py:1602-1628 | the route cancels what is under way, waits exactly if there was something, and notes its target first |
| Service.ServiceState.AdmitRoute | ble_service/src/main.py:1617-1628 | the tasks are forgotten; a busy adapter refuses the route, which otherwise lifts the user's disconnect |
| Service.ServiceState.BeginInit | ble_service/src/main.py:1680-1682 | the probe is armed for five seconds and the initialisation counted |
| Service.ServiceState.EndInit | ble_service/src/main.py:1695-1698 | counted down, and the probe cleared only if its deadline is this one |
| Service.ServiceState.StopBackgroundTasks | ble_service/src/main.py:1736-1751 | pending tasks are cancelled and forgotten, finished ones stay referenced |
| Service.ServiceState.ConnectAndInitialize | ble_service/src/main.py:830-855 | the target is noted, and the bus dropped only with the lock free and no route initialising |
| Service.ServiceState.BeginLegacyConnect | ble_service/src/main.py:1558-1561 | the legacy route asks for a connection and starts it, and the protocol's invariants hold on |
| Service.ServiceState.SleepBefore | ble_service/src/main.py:1121-1147 | the back-off before a reconnect attempt is announced, and ends the ladder exactly if the user disconnected or the link is up afterwards |
| Service.ServiceState.OneAttempt | ble_service/src/main.py:1165-1206 | one attempt: the task is over, having announced the connection, or what follows a failure is due, as the protocol has it |
| Service.ServiceState.SleepAfter | ble_service/src/main.py:1208-1210 | a startup task backs off after a failed attempt but the last, a reconnect does not |
| Service.ServiceState.Turn | ble_service/src/main.py:1105-1210 | one turn of the loop is a stretch of a run of the protocol, or several |
| Service.ServiceState.RetryConnect | ble_service/src/main.py:1088-1231 | the retry loop, with anything at all happening at its awaits, is a run of the protocol that ends with the task over and the invariants intact; it reports success if and only if its last stretch is an attempt that succeeded; it announces each back-off or attempt begun, by number, then the connection exactly if it has it, or exhaustion exactly if four attempts failed, and nothing else; unless cancelled it has cleared the reconnecting flag |
| Protocol.InvAfter | ble_service/src/main.py:998-1028 | all invariants hold after any run of any number of routes, tasks and lock holders |
| Protocol.ProbeBelongsToARoute | ble_service/src/main.py:1680-1698 | the counter is the number of routes in their window, and a set deadline is that of a route still inside |
| Protocol.DisconnectSchedulesReconnect | ble_service/src/main.py:998-1028 | with no route in its window, a disconnect the user did not ask for leaves a reconnect task under way, being cancelled only if a route waits for that |
| Protocol.SuppressionHasAnOwner | ble_service/src/main.py:1014-1024 | a disconnect is suppressed only inside the window of a route that is still inside, and then no task is created |
| Protocol.SuppressedAtMostArmed | ble_service/src/main.py:1014-1024 | over any run, no more disconnects are suppressed than probes were armed |
| Protocol.LadderIsBounded | ble_service/src/main.py:1088-1231 | no background task makes more than four attempts, and "reconnecting" is shown only while a task retries or a route clears the field |
| Promises.LinkLostVerdict | ble_service/src/main.py:998-1028 | a lost link adds one reconnect task, and refers to it, if and only if the user wants the link, no window is open and no reconnect is under way; otherwise the tasks are as they were |
| Promises.TasksAreCreatedByCalls | ble_service/src/main.py:998-1028 | over any run, as many tasks are created as such links were lost |
| Promises.AdmissionLiftsTheStop | ble_service/src/main.py:1617-1628 | after a route is let in, and until the user disconnects again, every link lost outside all windows leaves a reconnect task under way |
| Promises.WishVerdict | ble_service/src/main.py:1014-1028 | the user's disconnect holds exactly from a stop until a route is let in, a connect asked for, or a startup task begun |
| Promises.StopVerdict | ble_service/src/main.py:1736-1751 | stopping cancels exactly the referenced tasks that are under way, forgets these, and touches nothing else |
| Promises.WindowVerdict | ble_service/src/main.py:1680-1682 | arming opens a window of five seconds |
| Promises.ResetVerdict | ble_service/src/main.py:830-857 | connecting drops the bus if and only if nobody is inside the lock and no route in its window |
| Promises.AttemptVerdict | ble_service/src/main.py:1105-1210 | a background task counts an attempt exactly when it begins one: the user has not disconnected, the link is down, and its wait is over |
| Promises.EndVerdict | ble_service/src/main.py:1105-1231 | and is over exactly when it has nothing to do, has succeeded, has used up its attempts, or may not go on |
| Promises.FourAttempts | ble_service/src/main.py:1088-1231 | a reconnect left alone whose attempts all fail makes four and ends |
| Stretches.OwnMore | ble_service/src/main.py:1088-1231 | what a task does in a run and then in another is what it does in both together |
| OperationLock.ExclusiveAfter | ble_service/src/ble_adapter.py:603-690 | over every run of any number of callers, at most one is inside the lock; while it awaits a bus there is none to be lost, and while it registers the agent the bus is the one it registers on |
| OperationLock.OthersAreShutOut | ble_service/src/ble_adapter.py:603-690 | while one caller is inside, no other has a next step on lock or bus, and a reset does nothing |
| OperationLock.BusIsKept | ble_service/src/ble_adapter.py:603-690 | from a caller's entry to its own next step, no run of the others changes the bus |
| Protocol.LockExcludes | ble_service/src/ble_adapter.py:603-690 | the same exclusion in every run of the service |
| Protocol.BusChangesByRule | ble_service/src/main.py:854-857 | the bus changes only by a step of the one caller inside the lock, or by a reset with nobody inside and no route in its window |
| Protocol.LockHolderKeepsTheBus | ble_service/src/ble_adapter.py:635-690 | while one caller is inside the lock, no run of everybody else changes lock or bus |
| Protocol.NoAttemptWhileStopped | ble_service/src/main.py:1105-1143 | after the user disconnects, no background task starts another attempt until a connection is asked for again |
| Protocol.OrphanVerdict | ble_service/src/main.py:869-905 | a running task is lost from sight exactly where a route clears one created while it waited, or a cancellation is swallowed |
| Protocol.OrphanWitness | ble_service/src/main.py:895-905 | a run that leaves such a task |
| Protocol.ProbeVerdict | ble_service/src/main.py:1680-1698 | while a route is inside its window, the probe stops being its own exactly when another deadline is armed, an equal one is cleared, or a disconnect consumes it |
| Protocol.ProbeStays | ble_service/src/main.py:1680-1698 | over any run within its window, a route keeps its probe exactly if no step of the run takes it |
| Protocol.OverlapDisarms | ble_service/src/main.py:1680-1698 | a run in which one route's end disarms another's probe |
| Protocol.StartVerdict | ble_service/src/main.py:869-905 | a starting route cancels exactly the tasks under way, and waits exactly if there are any |
| Protocol.RefusalVerdict | ble_service/src/main.py:1604-1628 | every refused route leaves nothing of reconnecting: no reference, no flag, and the tasks it waited for over; it waited exactly if there were any |
| Protocol.RefusalEndsReconnecting | ble_service/src/main.py:1604-1626 | a run in which a refused route has ended reconnecting |
| DBusErrors.TimeoutIsNoStaleBond | ble_service/src/ble_adapter.py:2048-2067 | the timeout gate and the stale-bond signature exclude each other |
| DBusErrors.SecurityVerdict | ble_service/src/ble_adapter.py:235-276 | an error asks for pairing if and only if it is a D-Bus error with one of three names, or whose text has one of five phrases in it in whatever case |
| DBusErrors.LowerVerdict | ble_service/src/ble_adapter.py:275-276 | lower case, letter by letter |
| DBusErrors.NotFoundVerdict | ble_service/src/ble_adapter.py:218-228 | an unknown device shows by one phrase in a `ConnectionError` |
| DBusErrors.AlreadyPairedVerdict | ble_service/src/ble_adapter.py:2214-2218 | "already paired" is one D-Bus error |
| DBusErrors.StaleBondVerdict | ble_service/src/ble_adapter.py:298-318 | a stale bond is one D-Bus error, raised as it is or as the cause of a failed connect |
| BlueZ.AttemptVerdict | ble_service/src/ble_adapter.py:973-1048 | an attempt fails if and only if one of the answers on its way is bad |
| BlueZ.ConnectErrorVerdict | ble_service/src/ble_adapter.py:183-214 | a failed connect keeps its cause: the D-Bus error, or that it was a timeout |
| BlueZ.ScanVerdict | ble_service/src/ble_adapter.py:1837-1852 | a device BlueZ does not know is scanned for and tried once more, and no other failure is |
| BlueZ.NotifyVerdict | ble_service/src/ble_adapter.py:1238-1273 | subscribing raises nothing, or asks for pairing, exactly as BlueZ's answers say |
| BlueZ.PairVerdict | ble_service/src/ble_adapter.py:2177-2243 | pairing works if and only if the device is there, paired at the end, and `Pair` was not called, raised nothing or "already exists" |
| BlueZ.SuccessVerdict | ble_service/src/ble_adapter.py:1766-1808 | after a first attempt that connects, the whole succeeds if and only if subscribing raises nothing, or raises an error that asks for pairing and pairing and subscribing again work |
| BlueZ.PairsOnDemand | ble_service/src/ble_adapter.py:1879-1958 | a link whose subscription asks for pairing, by any of the names and phrases, is paired by one call and connected |
| BlueZ.RecoveryVerdict | ble_service/src/ble_adapter.py:2033-2157 | recovery is due exactly for a user's request and a stale bond, and succeeds exactly if everything on its way goes well; a last attempt that fails is reported as such |
| BlueZ.PairingVerdict | ble_service/src/ble_adapter.py:1879-1908 | a failure to become ready is one of subscribing exactly if it does not ask for pairing |
| BlueZ.FailureVerdict | ble_service/src/ble_adapter.py:2081-2157 | recovery hands back the very failure it started from, unless it got as far as removing the device |
| BlueZ.ReportVerdict | ble_service/src/ble_adapter.py:140-155 | a failure is reported with the D-Bus name, else the exception's type, and its text |
| BlueZ.UnpairVerdict | ble_service/src/ble_adapter.py:2245-2276 | unpairing succeeds exactly if the removal raises nothing, and fails exactly if it raises a D-Bus error |
| BondMonitor.RemovalIsJustified | ble_service/src/ble_adapter.py:2081-2113 | a bond is removed only on a user's request, right after `Paired` read true, with a recognised error before it and no connect since |
| BondMonitor.ScanBeforeReconnect | ble_service/src/ble_adapter.py:2114-2120 | a scan stands between a removal and every later connect |
| BondMonitor.UnbrokenIsDisciplined | ble_service/src/ble_adapter.py:2081-2157 | what the watch accepts is, in terms of the trace: at most 3 connects, 2 scans, 1 pairing and 1 removal, each removal justified |
| BondMonitor.WatchesFailure | ble_service/src/ble_adapter.py:2081-2157 | the failure recovery starts from is the last failure to connect in the trace before it asks for the paired state |
| Session.Drop | ble_service/src/ble_adapter.py:1346-1380 | a drop keeps the session invariants and, the first time, takes everything of the session |
| Session.Attach | ble_service/src/ble_adapter.py:1254-1262 | the handler is attached once per proxy |
| Session.Detach | ble_service/src/ble_adapter.py:1275-1280 | the handler is detached from the live proxy, and the flag cleared |
| Session.FailedNotifyVerdict | ble_service/src/ble_adapter.py:1263-1273 | a `start_notify` that fails outside the lock takes the live handler exactly if there is one, and another session's exactly if the live proxy is not the one it started on |
| Session.HandlerIsTaken | ble_service/src/ble_adapter.py:1263-1273 | a run in which it takes a later session's handler |
| Session.EveryRunIsSound | ble_service/src/ble_adapter.py:655-750 | over every run of drops, releases, attaching, detaching, resets, new buses, new proxies and registrations by any number of callers: the agent flag implies a live bus with RegisterAgent issued on it, and the live proxy carries one handler if the flag is set and none otherwise |
| Session.SuspensionGrows | ble_service/src/ble_adapter.py:1163-1184 | while an operation is inside the lock, no event of the others changes lock, bus or what the operation recorded; the link stays as it was or drops |
| Session.TasksVerdict | ble_service/src/ble_adapter.py:1682-1710 | a task that was only created goes on while there is a link and ends without one |
| BleAdapter.BLEAdapter.OnDisconnectDetected | ble_service/src/ble_adapter.py:1346-1380 | the event as specified, and no effect when already disconnected |
| BleAdapter.BLEAdapter.Act | ble_service/src/ble_adapter.py:1163-1190 | every step of an operation on lock and bus is one its code stands at, and does what that step does to the session |
| BleAdapter.BLEAdapter.DropStaleBus | ble_service/src/ble_adapter.py:635-656 | bus and agent flag go together |
| BleAdapter.BLEAdapter.EnsureBus | ble_service/src/ble_adapter.py:662-690 | a live bus is reused, a dead one replaced; fails exactly if none was live and none opens; with no agent registered, registering one is tried once |
| BleAdapter.BLEAdapter.RegisterAgent | ble_service/src/ble_adapter.py:703-750 | the flag is set exactly if all three calls work, on the bus they were made on; failures leave the invariants and the bus |
| BleAdapter.BLEAdapter.Suspend | ble_service/src/ble_adapter.py:603-690 | an `await` of an operation inside the lock: whatever strikes, lock and bus are as they were |
| BleAdapter.BLEAdapter.CallConnect | ble_service/src/ble_adapter.py:973-1015 | at most one Connect, and exactly one when it succeeds; in a calm run a failure is the one BlueZ's answers call for |
| BleAdapter.BLEAdapter.FindCharacteristics | ble_service/src/ble_adapter.py:1034-1048 | success leaves both characteristics and a fresh properties proxy without a handler |
| BleAdapter.BLEAdapter.AttemptConnection | ble_service/src/ble_adapter.py:973-1048 | the same for the whole attempt, whatever drops meanwhile; in a calm run the outcome is the one the answers call for |
| BleAdapter.BLEAdapter.Finalize | ble_service/src/ble_adapter.py:908-938 | the link is up for the device, its keepalive and time-zone tasks under way, or dropped after it had come up |
| BleAdapter.BLEAdapter.CleanupFailedConnection | ble_service/src/ble_adapter.py:1147-1184 | nothing of the session is left |
| BleAdapter.BLEAdapter.ConnectStage | ble_service/src/ble_adapter.py:1854-1877 | one attempt, up or fallen on success, nothing left behind on failure |
| BleAdapter.BLEAdapter.StartNotify | ble_service/src/ble_adapter.py:1238-1273 | without an exception and without a drop, the handler is attached to the live proxy; what is raised is what BlueZ raises, or that the link has gone |
| BleAdapter.BLEAdapter.StopNotify | ble_service/src/ble_adapter.py:1282-1294 | stopping keeps the handler invariant, whatever BlueZ answers; in a calm run the handler is off |
| BleAdapter.BLEAdapter.DisconnectInternal | ble_service/src/ble_adapter.py:1192-1236 | nothing of the session and no background task is left; no effect when already disconnected |
| BleAdapter.BLEAdapter.PairUnlocked | ble_service/src/ble_adapter.py:2177-2243 | the outcome for every answer; `Pair` is called exactly if the device is there and not paired, and "already exists" counts as success |
| BleAdapter.BLEAdapter.PairThenResume | ble_service/src/ble_adapter.py:1910-1958 | pairs as above, once, and subscribes again in the same session; success means that the device is paired; a failure names its cause |
| BleAdapter.BLEAdapter.Resume | ble_service/src/ble_adapter.py:1946-1958 | the second subscription, whose failure is what BlueZ raised, or that the link has gone |
| BleAdapter.BLEAdapter.EnsureGattReady | ble_service/src/ble_adapter.py:1879-1908 | pairing is tried exactly if subscribing asks for it; a failure to subscribe is the very exception raised, and asks for none |
| BleAdapter.BLEAdapter.TeardownAfterPostConnectFailure | ble_service/src/ble_adapter.py:1810-1835 | the session goes, the error state stays |
| BleAdapter.BLEAdapter.ConnectWithScanRetry | ble_service/src/ble_adapter.py:1837-1852 | at most two attempts with one scan between; "device not found" is returned only after the scan; in a calm run the outcome the answers call for |
| BleAdapter.BLEAdapter.ScanAndRetry | ble_service/src/ble_adapter.py:1849-1852 | the scan, and one more attempt unless the scan raises |
| BleAdapter.BLEAdapter.ReadPairedLive | ble_service/src/ble_adapter.py:1960-1993 | false unless the bus opens and BlueZ says so; the bus stays open |
| BleAdapter.BLEAdapter.StaleBondRecoveryAllowed | ble_service/src/ble_adapter.py:2033-2079 | allowed exactly for a user's request, a stale-bond signature and a live paired state; the bus is open exactly if the state could be read |
| BleAdapter.BLEAdapter.RemoveDeviceUnlocked | ble_service/src/ble_adapter.py:1995-2031 | one removal if nothing escapes before it |
| BleAdapter.BLEAdapter.MaybeRecoverStaleBond | ble_service/src/ble_adapter.py:2081-2157 | nothing happens unless the gates pass; otherwise one removal; a failure is handed back with the bus open exactly if a bus was opened and the device was not paired or not removed; in a calm run the outcome the answers call for |
| BleAdapter.BLEAdapter.EnsureConnected | ble_service/src/ble_adapter.py:1766-1808 | for all answers of BlueZ and all that strikes: a failure names its cause, has state ERROR and leaves nothing behind, and keeps the bus exactly as request, last failure before recovery and answers say; pairing is tried exactly when asked for; "connected" without a drop is a link to the device with exactly one handler; "already connected" has one exactly if it had before; an escaping exception leaves the link up or nothing; the trace is disciplined and the lock free in every case; in a calm run the result is the one the answers call for, success included |
| BleAdapter.BLEAdapter.FirstFailureIsInTrace | ble_service/src/ble_adapter.py:2081-2157 | that last failure, read off the trace |
| BleAdapter.FailureKeepsBus | ble_service/src/ble_adapter.py:1960-1994 | a fresh adapter and answers of BlueZ after which a failed connect keeps the bus |
| BleAdapter.ConnectedButFallen | ble_service/src/ble_adapter.py:1263-1273 | a fresh adapter and answers after which "connected" is returned for a link that has fallen |
| BleAdapter.ConnectedWithoutHandler | ble_service/src/ble_adapter.py:1780-1783 | a fresh adapter connected and never subscribed, for which "already connected" is returned with no handler |
| BleAdapter.PairedOnDemand | ble_service/src/ble_adapter.py:1879-1958 | whatever the adapter did before, a calm run in which the device is reached and asks for pairing ends connected, after exactly one call of `Pair` |
| BleAdapter.BLEAdapter.KeepTrying | ble_service/src/ble_adapter.py:879-906 | the attempts one after the other: in a calm run, success if and only if one of them works |
| BleAdapter.BLEAdapter.Connect | ble_service/src/ble_adapter.py:855-906 | up or fallen on success, and at a boundary once the created tasks have run; a failed or cancelled connect leaves nothing behind and tells the two apart; in a calm run it succeeds if and only if one of its attempts works, and then without a handler |
| BleAdapter.BLEAdapter.Disconnect | ble_service/src/ble_adapter.py:1186-1190 | asks a connect in progress to give up, and ends disconnected with nothing left |
| BleAdapter.BLEAdapter.ScanUnlocked | ble_service/src/ble_adapter.py:770-853 | what is raised is what BlueZ raises; one scan is seen if nothing is; the link stays as it was or drops |
| BleAdapter.BLEAdapter.Scan | ble_service/src/ble_adapter.py:752-768 | the session stays as it is, or drops, and the lock is free again |
| BleAdapter.BLEAdapter.Pair | ble_service/src/ble_adapter.py:2159-2243 | the result for every answer of BlueZ; the session stays as it is, or drops |
| BleAdapter.BLEAdapter.Unpair | ble_service/src/ble_adapter.py:2245-2276 | true exactly if BlueZ removes the device, false for its errors, other exceptions escape; the session stays as it is, or drops |
| Frames.CallsignComesBack | ble_service/src/ble_adapter.py:1475-1518 | framed exactly for 1 to 9 characters, never an overflow, first byte is the length, and read back unchanged |
| Frames.WifiComesBack | ble_service/src/ble_adapter.py:1520-1550 | framed exactly within the character limits and the 247-byte limit, and name and password read back unchanged |
| Frames.InnerLengthsFit | ble_service/src/ble_adapter.py:1543-1544 | the length bytes of name and password never overflow, at up to four bytes a character |
| Frames.AltitudeComesBack | ble_service/src/ble_adapter.py:1594-1613 | framed exactly from -1000 to 10000, and read back with its sign and its save flag |
| Frames.TimeComesBack | ble_service/src/ble_adapter.py:1471-1473 | the four-byte time is read back, and overflows exactly from 2 to the 32 on |
| Frames.SymbolsComeBack | ble_service/src/ble_adapter.py:1615-1636 | framed exactly for two single characters below 256, and read back |
| Frames.CommandComesBack | ble_service/src/ble_adapter.py:1417-1442 | framed exactly up to 253 bytes, never an overflow, and read back |
| Frames.MessageComesBack | ble_service/src/ble_adapter.py:1383-1409 | group and text come back if and only if the group holds no closing brace |
| Frames.HelloIsLengthPrefixed | ble_service/src/ble_adapter.py:353-365 | either hello names its own length, for any 32-byte hash |
| Frames.DigitsOf | ble_service/src/ble_adapter.py:362-364 | what is hashed are the decimal digits of the PIN, padded to six, from which the PIN is recovered |
| Frames.CallsignLayout | ble_service/src/ble_adapter.py:1475-1518 | byte by byte: length, 0x50, the callsign's length, the callsign |
| Frames.WifiLayout | ble_service/src/ble_adapter.py:1520-1550 | length, 0x55, name and password each behind its length |
| Frames.AltitudeLayout | ble_service/src/ble_adapter.py:1594-1613 | 7, 0x90, four bytes in two's complement with the lowest first, and 0x0A or 0x0B |
| Frames.TimeLayout | ble_service/src/ble_adapter.py:1471-1473 | 6, 0x20, and four bytes with the lowest first |
| Frames.SymbolsLayout | ble_service/src/ble_adapter.py:1615-1636 | 4, 0x95, the two symbols |
| Frames.CommandLayout | ble_service/src/ble_adapter.py:1383-1442 | length, 0xA0, the command; a message is its group in braces and its text |
| Frames.HelloLayout | ble_service/src/ble_adapter.py:353-366 | the four bytes without a PIN, and 36 bytes with one |
| Feed.ClientSeesTheLog | scripts/update-runner.py:121-156 | over any publishing and taking, a client's stream is in order, without repetition, at most the history size back, and complete if its queue was never full |
| Feed.DropVerdict | scripts/update-runner.py:149-156 | an event is dropped if and only if 2000 others wait already |
| EventBus.ClientQueue.Replay | scripts/update-runner.py:139-141 | the replay puts the whole history and no `put` of it can block |
| EventBus.ClientQueue.PutOrDrop | scripts/update-runner.py:153-156 | an event is queued, or dropped exactly on a full queue |
| EventBus.EventBus.Subscribe | scripts/update-runner.py:132-143 | the new client holds exactly the history; the others are unaffected |
| EventBus.EventBus.Unsubscribe | scripts/update-runner.py:145-147 | exactly that client is gone |
| EventBus.EventBus.Publish | scripts/update-runner.py:149-156 | the event is logged, remembered within the bound, and offered once to every client |
| EventBus.EventBus.Take | scripts/update-runner.py:912-926 | a client gets its next logged event and nobody else's queue changes |
| Slots.TargetVerdict | scripts/update-runner.py:189-223 | the update target is the rollback target if and only if it is marked empty although deployed, and newest |
| Slots.TargetIsSpare | scripts/update-runner.py:205-223 | with empty slots consistently marked, an update overwrites neither the running version nor the rollback target |
| Slots.RollbackInFields | scripts/update-runner.py:189-202 | the rollback target by what the metadata says: the last deployed of the other slots, the higher of two at once; none if none was deployed |
| Slots.TargetInFields | scripts/update-runner.py:205-223 | the update target likewise: the first free slot, else the longest deployed, never the active one |
| Slots.RollbackVerdict | scripts/update-runner.py:189-202 | after a successful update the rollback target is the version before, if and only if that was deployed and nothing else left over is newer |
| Slots.UpdatesKeepRollback | scripts/update-runner.py:189-223 | over any history of successful updates, each leaves a rollback to the version before it |
| Slots.RollbackAndForward | scripts/update-runner.py:649-687 | a manual rollback goes to what ran before, and a second one forward again |
| Slots.UnhealthyVersionComesBack | scripts/update-runner.py:189-223 | a history in which the unhealthy version becomes the rollback target |
| Slots.RejectedVersionComesBack | scripts/update-runner.py:189-223 | a history in which the version rolled back from becomes the rollback target |
| UpdateRunner.Installation.GetRollbackSlot | scripts/update-runner.py:189-202 | the newest deployed slot that is not active, or none |
| UpdateRunner.Installation.GetOldestSlot | scripts/update-runner.py:205-223 | the first slot that looks empty, else the oldest, never the active one; an error exactly if a null stamp meets a string |
| UpdateRunner.Installation.SnapshotEtc | scripts/update-runner.py:226-243 | exactly the listed files that exist are archived; with none, the older archive stays |
| UpdateRunner.SnapshotVerdict | scripts/update-runner.py:226-243 | the files saved are those of five names |
| UpdateRunner.Installation.SnapshotDatabase | scripts/update-runner.py:246-255 | the backup is what a reader sees; without a database the older backup stays |
| UpdateRunner.Installation.RestoreDatabase | scripts/update-runner.py:271-279 | a reader sees exactly the backup afterwards, whatever journal lay beside the file |
| UpdateRunner.Installation.DoRollback | scripts/update-runner.py:752-784 | the slot is current, and archive and backup of it are in place |
| UpdateRunner.Installation.PutBack | scripts/update-runner.py:613-635 | after an automatic rollback, exactly what a reader of the database and of every file sees, given what was there, the older snapshots and what the bootstrap left |
| UpdateRunner.Installation.WhatExistedIsBack | scripts/update-runner.py:613-635 | so whatever existed, database or snapshotted file, is there again |
| UpdateRunner.DatabaseVerdict | scripts/update-runner.py:246-279 | the database is as before if and only if there was one, or neither an older backup nor the bootstrap supplies one |
| UpdateRunner.FileVerdict | scripts/update-runner.py:226-268 | a snapshotted file is as before if and only if it existed, or neither an older archive nor the bootstrap supplies it |
| UpdateRunner.OlderSnapshotComesBack | scripts/update-runner.py:226-279 | an installation on which an older snapshot of both comes back |
| UpdateRunner.Installation.RunUpdate | scripts/update-runner.py:423-646 | success exactly for an update that begins, deploys and is healthy; each failure exactly for its cause; success is an update of a spare slot; "rolled back" means the old slot is current with its database and files, whatever the bootstrap did; a bootstrap failure leaves the active slot |
| UpdateRunner.Installation.RunRollback | scripts/update-runner.py:649-687 | with working tools and a target it succeeds: the newest other slot is current with its snapshots in place, and what was there is saved under the slot left |
| UpdateRunner.Installation.RollBackAndForward | scripts/update-runner.py:649-687 | two manual rollbacks put back slot, database and snapshotted files |

## Left out

- BleAdapter.BLEAdapter.EnsureConnected: cancellation by the route's deadline is not modelled.
- BleAdapter.BLEAdapter.StartNotify: the handler stays attached unless a `start_notify` outside the lock takes it (a counted event); that one may do so is allowed, not excluded.
- BleAdapter.BLEAdapter.RegisterAgent: the flag says on which bus the calls were made, not that BlueZ still holds the agent; a Release that arrives between them defeats the latter.
- Protocol.DisconnectSchedulesReconnect: the task may find no remembered device when it first runs, and then ends.
- Utf8.EncodeChar: Python strings with lone surrogates, which have no encoding.
- The tasks of the BLE service are modelled by the stretches between two `await`s; the order in which the event loop picks them is left open.
- The devices a scan finds, the routes' own checks before pairing and unpairing, the keepalive and time-zone tasks beyond their being started and stopped, and writing to the characteristic.
- The order in which waiting callers get the lock: whoever finds it free may take it.
- A keepalive or time-zone task that ends by an exception of its own while the link is up.
- The names and timing of log and status entries, and the mapping of results to error codes.
- `_typ_hint`, recursion limits and huge integers in `json.loads`, and the conversion of numbers: scalars keep their text and strings their lexeme.
- Case folding of error texts outside ASCII, and the words of the exception behind "device not found".
- Persistence of state and PIN, API keys, HTTP routing and request models.
- The contents of SHA-256, and the packing of latitude and longitude as floats.
- Health probes, the download and the shell code of the bootstrap; it is an adversary that may write the target's metadata, /etc and the database, and activate the target, but no snapshot and no other slot.
- Deploy times are numbers; that ISO strings sort alike in one format is not part of the model.
- A `current` link whose name does not end in a number, and slot numbers of three and more as link targets.
- The event bus's lock, and HTTP clients of the stream.
- Configuration loading, the clients of the BLE service, storage, UDP and commands.
