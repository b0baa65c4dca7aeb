# Pairing and relay broker of the glasses simulator, in Dafny

This project models the WebSocket broker in `server.js`. The broker pairs one
device-simulator browser tab with third-party "SDK" applications and relays
messages between each bound pair. The model covers:

- the connection table (`io.sockets.sockets`, in connection order);
- the flags and links the handlers set on each socket: `isSimulator`,
  `isSDK`, `appInfo`, `simulatorId` and `sdkId`;
- the module-level `currentPairingCode` and `currentModel`;
- every event the handlers emit, recorded in order in an outbox.

Modules:

- `Wrappers`: `Option`.
- `Catalog`: `HARDWARE_SPECS`, the model lookup with its `even-g1` fallback,
  and the `{camera, display}` subset an application is told about.
- `PairingCode`: `generatePairingCode`. The random part is an explicit
  oracle value, `Draw` = floor(`Math.random()` × 900000). The code is the
  decimal numeral of 100000 + draw. The numeral functions are proved to be
  mutual inverses, and every code is proved to have six digits.
- `Handlers`: the broker state and one pure transition per socket event
  (connect, `simulator:register`, `simulator:model-changed`, `sdk:connect`,
  `message`, `simulator:message`, disconnect), with their per-event
  properties. The `Wf` invariant holds that:
  - the table is well formed;
  - a `simulatorId` sits only on a socket marked `isSDK` that has an `appInfo`;
  - an `sdkId` sits only on a socket marked `isSimulator`;
  - the pairing code is always a six-digit numeral in [100000, 999999].

  Every transition preserves `Wf`.
- `Properties`: lemmas that span several events. They cover which simulator
  a pairing picks, the single use of a code, retrying after `NO_SIMULATOR`,
  rebinding, and the unbinding a disconnect performs.
- `Server`: the `Broker` class. Its fields are updated in place, one method
  per event, and each method is proved to perform exactly the matching
  `Handlers` transition. Beside it is a client scenario, `EndToEnd`: start
  with code 123456, pair, one message each way, disconnect, then a dropped
  relay. It is proved from the method contracts alone.

Points where the code differs from an idealised single-simulator broker:

- The model follows the code in each case below.
- Registering never demotes an earlier simulator. Pairing binds the *first*
  socket in table order whose `isSimulator` flag is set
  (`Properties.RegisterKeepsEarlierSimulator`).
- After another application rebinds the simulator, the first application's
  messages still reach the simulator (`Properties.RebindKeepsOldSdkSending`).
- An application that was rebound away still clears the simulator's link
  when it disconnects. That cuts off the newer application's replies
  (`Properties.StaleDisconnectUnbindsNewer`).
- A correct code with no simulator gets `NO_SIMULATOR`, but the sender is
  still marked `isSDK` and keeps its `appInfo`.
- Rotation may hand out the same code again.

The model follows two behaviours of the socket.io library:

- A socket leaves the table before its `disconnect` handler runs. So an SDK
  whose `simulatorId` is its own id notifies nobody.
- Socket ids are non-empty strings, so a stored id always counts as set.

Two fallback models exist. The server falls back to `even-g1` for
capabilities, while the browser client's own default is `demo-all`
(`src/lib/hardware-specs.ts`). This model uses the server's `even-g1`
throughout.

## Model

| member | source | states |
|---|---|---|
| Catalog.ModelSpecAsWritten | server.js:136-144 | the lookup as written: it throws exactly for names inherited from Object.prototype; otherwise it returns an own catalog entry, or the even-g1 entry |
| Catalog.InheritedNameDefeatsFallback | server.js:136 | "constructor" is not a catalog model, yet the lookup as written throws on it instead of falling back |
| Catalog.SpecFor | server.js:136 | the corrected lookup always yields a catalog entry; it agrees with the as-written lookup wherever that one does not throw, and gives even-g1 for every unknown name |
| Catalog.ReportedCapabilities | server.js:139-146 | for every model name: camera is reported only for demo-all and mentra-live; display (textDisplay or imageDisplay) is reported for everything except mentra-live; unknown names report camera=false, display=true |
| PairingCode.DecimalString | server.js:89 | the positional decimal numeral of a natural number, which is what toString prints for integers below 10^21 (only 100000..999999 are ever converted): digits only, with no leading zero unless the number is 0 |
| PairingCode.ValueOfDecimalString | server.js:89 | reading back the numeral gives the number |
| PairingCode.DecimalStringOfValue | server.js:89 | writing the value of a canonical numeral gives the numeral back |
| PairingCode.DecimalStringLength | server.js:88-90 | a number in [10^(k-1), 10^k) is written with exactly k characters |
| PairingCode.PairingCodeHasSixDigits | server.js:87-90 | every numeral whose value lies in [100000, 999999] has exactly six characters |
| PairingCode.Generate | server.js:88-90 | a generated code is a canonical six-digit numeral whose value is 100000 + draw, so it lies in [100000, 999999] |
| PairingCode.GenerateInjective | server.js:88-90 | different draws give different codes |
| PairingCode.DrawFor | server.js:157 | every well-formed code, the current one included, is something the generator can output |
| Handlers.FindSimulator | server.js:127-128 | the lookup returns None iff no socket in the table is flagged isSimulator; otherwise it returns the id at the first flagged position in table order |
| Handlers.FindSimulatorReturnsFirst | server.js:127-128 | whenever position k holds the first simulator, the lookup returns exactly that socket |
| Handlers.FindSimulatorReadsOnlyFlags | server.js:123-128 | the lookup depends on nothing but the isSimulator flags |
| Handlers.MarkingSdkKeepsLookup | server.js:123-128 | setting isSDK and appInfo before the lookup does not change which simulator is found |
| Handlers.Init | server.js:93-94 | process start: an empty table and outbox, a generated code, the model 'demo-all'; the invariant holds |
| Handlers.Connect | server.js:97-98 | a new socket joins at the end of the table with no flags or links; nothing else changes; the invariant is preserved |
| Handlers.Register | server.js:101-105 | only isSimulator is set, on the sender; one simulator:registered carrying the current code goes to the sender; the invariant is preserved |
| Handlers.ChangeModel | server.js:110-114 | the model becomes data.model verbatim when the sender is a simulator, and otherwise nothing changes; there is no catalog check and no event |
| Handlers.ConnectedReply | server.js:136-146 | the connected reply carries the sender's id, the current model, camera from the model's spec, and display = textDisplay or imageDisplay |
| Catalog.Project | server.js:142-145 | the reported camera is the spec's camera, and display is reported exactly when the spec has a text or an image display |
| Handlers.SdkConnect | server.js:118-174 | table order, model and the set of sockets never change |
| Handlers.SdkConnectWrongCode | server.js:168-172 | a code other than the current one changes nothing; its only effect is one INVALID_PAIRING_CODE error sent to the sender |
| Handlers.SdkConnectNoSimulator | server.js:121-166 | the right code with no simulator: the code and every other socket are unchanged; the sender still gets isSDK and appInfo, but no link; one NO_SIMULATOR error goes to the sender |
| Handlers.SdkConnectPairs | server.js:130-161 | success: the sender is linked to the first simulator in table order and back, no other socket changes, and the code becomes the generator's output; the sender then gets connected, and the simulator gets sdk:connected followed by pairing:updated carrying the new code |
| Handlers.SdkConnectKeepsWf | server.js:118-174 | every outcome of sdk:connect preserves the invariant, the rotated code included |
| Handlers.SdkMessageText | server.js:182 | a string payload is passed through unchanged; any other payload is encoded |
| Handlers.RelayFromSdk | server.js:177-186 | only the outbox changes; exactly one sdk:message goes to simulatorId iff the sender isSDK and has a simulatorId that is still in the table; otherwise nothing is emitted |
| Handlers.RelayFromSimulator | server.js:189-196 | only the outbox changes; exactly one message carrying the encoded payload goes to sdkId iff the sender isSimulator and has an sdkId that is still in the table; otherwise nothing is emitted |
| Handlers.Disconnect | server.js:199-214 | the socket leaves the table and is no longer found, and exactly the other ids stay (their relative order is `Handlers.DisconnectKeepsOrder`); an SDK with a live simulatorId sends sdk:disconnected to that simulator and clears its sdkId, whatever that sdkId was; in every other case the remaining sockets are unchanged and nothing is emitted |
| Handlers.DisconnectKeepsOrder | server.js:127-128 | in a well-formed table, the removal socket.io performs before the disconnect handler takes the socket out of its own position and the remaining sockets keep their insertion order, so which simulator a later pairing finds is decided by the same order |
| Properties.EarlierFlagWins | server.js:127-128 | flagging a socket that comes after an existing simulator in table order leaves the lookup's answer unchanged |
| Properties.RegisterKeepsEarlierSimulator | server.js:101-105 | registering does not take over from a simulator that is earlier in table order, and it clears no flag |
| Properties.SoleRegistrantIsFound | server.js:127-128 | with no simulator in the table, the socket that registers is the one pairing picks |
| Properties.CodeIsSingleUse | server.js:121-161 | after a successful pairing with code C, a second attempt with C from any socket is refused with INVALID_PAIRING_CODE iff the rotated code differs from C |
| Properties.RotationMayRepeat | server.js:157 | some draw makes rotation return the current code again |
| Properties.RetryAfterSimulatorRegisters | server.js:118-166 | a NO_SIMULATOR failure keeps the code; once a simulator registers, the same code from the same socket pairs that socket with it |
| Properties.RebindKeepsOldSdkSending | server.js:130-184 | when a second application pairs, the simulator's replies go to it, while the first application's messages still reach the simulator |
| Properties.DisconnectUnbinds | server.js:199-210 | when the bound application disconnects, the simulator gets sdk:disconnected and loses its link, and later simulator messages are dropped |
| Properties.StaleDisconnectUnbindsNewer | server.js:204-209 | a rebound-away application disconnecting clears the simulator's link to the newer application: the simulator's replies are dropped, but the newer application still reaches the simulator |
| Properties.SimulatorDisconnectIsSilent | server.js:211-213 | a socket that is not an SDK leaves without changing any other socket and without emitting anything |
| Server.Broker.constructor | server.js:93-94 | the fields start as the initial state from one draw |
| Server.Broker.Connect | server.js:97-98 | the fields become the connect transition of the old fields |
| Server.Broker.Register | server.js:101-105 | the fields become the registration transition of the old fields |
| Server.Broker.ChangeModel | server.js:110-114 | the fields become the model-change transition of the old fields |
| Server.Broker.SdkConnect | server.js:118-174 | the fields become the sdk:connect transition of the old fields, and the invariant is kept |
| Server.Broker.RelayFromSdk | server.js:177-186 | the fields become the SDK-relay transition of the old fields |
| Server.Broker.RelayFromSimulator | server.js:189-196 | the fields become the simulator-relay transition of the old fields |
| Server.Broker.Disconnect | server.js:199-214 | the fields become the disconnect transition of the old fields |
| Server.OpeningDrawGivesOpeningCode | server.js:88-93 | draw 23456 produces the code "123456" |
| Server.OpenSession | server.js:97-114 | start, two connects, registration and a model change give a known table, model, code and outbox |
| Server.PairApplication | server.js:118-161 | pairing with the opening code appends connected {camera true, display false} for mentra-live, then sdk:connected, then the rotated code |
| Server.ExchangeAndLeave | server.js:177-214 | one message each way, then a disconnect, append sdk:message, message and sdk:disconnected; a later simulator message emits nothing |
| Server.EndToEnd | server.js:93-214 | a full session emits exactly the seven expected events, in order, and the rotated code differs from 123456 |

## Left out

- HTTP serving, the SPA fallback, `listen` and the SIGTERM/SIGINT shutdown (server.js:10-26, 217-246): transport and process plumbing.
- `console.log` calls, including the display-name lookup at server.js:113: logging only.
- The `sessions` and `pairingCodes` maps (server.js:29-31): they are never read or written.
- The floating-point arithmetic of `Math.random` (server.js:89): the oracle value `Draw` stands for floor(`Math.random()` × 900000).
- What `JSON.stringify` produces: payloads other than strings are the opaque type `Document`, and encoding is the parameter `encode`.
- Malformed inbound payloads. These cases are not modelled:
  - `data` or `data.payload` missing at server.js:119 (a TypeError before any change);
  - a non-string `code` (strict equality fails, which is the same as a wrong code);
  - a non-string `data.model`;
  - a missing or null `appInfo`: on the NO_SIMULATOR path it is stored as is, which `appInfo := Some(info)` cannot express; on the pairing path it throws at server.js:154, after the links and the first two emits and before rotation. An `appInfo` that merely lacks `packageName` does not throw and is modelled like any other `AppInfo`.
- Handlers.SdkConnect, Server.Broker.SdkConnect: both use the corrected catalog lookup `Catalog.SpecFor`. If the current model is a name inherited from Object.prototype, server.js throws at line 143 after linking the sockets: no reply, no notification, no rotation. That path is an error of the source (see Findings). Whether the transport then survives is not modelled.
- Socket ids and socket lifetime come from socket.io, which is not part of this model. New ids are assumed unique, and removal from the table before the `disconnect` handler runs is assumed, as described above.
- Sockets are modelled as records in an id-keyed table, not as shared objects. server.js reaches other sockets only through the table (by `find` or by id), so no aliasing is lost.
- Concurrency: each handler runs to completion before the next, so each event is one atomic transition.
- Everything under `src/`: the React UI, browser media APIs and the socket.io client. The client-side catalog `src/lib/hardware-specs.ts` is not part of this model.

## Findings

| source | as written | input that shows it | evidently intended | confidence | as-written member | corrected member |
|---|---|---|---|---|---|---|
| server.js:136 | `HARDWARE_SPECS[currentModel] \|\| HARDWARE_SPECS['even-g1']` also finds properties inherited from Object.prototype. A model such as "constructor" then yields a function, so the fallback is skipped. Reading `.capabilities.camera` at server.js:143 throws after both sockets were linked. | The simulator sends `simulator:model-changed {model: "constructor"}`, then an application sends `sdk:connect` with the current code | every model name outside the catalog falls back to even-g1 | not executed; high (JavaScript property lookup on a plain object) | Catalog.ModelSpecAsWritten (shown by Catalog.InheritedNameDefeatsFallback) | Catalog.SpecFor |
