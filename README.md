# Extension hot reloader: a Dafny model of the hot-swap core

ExtensionHotReloader scaffolds a Scratch/TurboWarp extension project. The
generated project has two parts that carry the hot-reload logic, both written
out by `init.js` as template strings:

- the **loader** (`scripts/loader.js`), which Scratch loads as the extension.
  It registers one `HotProxy` object with the host. That object keeps its
  identity while the implementation behind it is replaced. `checkUpdate(force)`
  asks the dev server for the source hash. When the hash changed, or when the
  check is forced, it shows a loading placeholder descriptor. It then fetches
  the extension code and evaluates it with `Scratch.extensions.register`
  temporarily replaced by a capture closure. If an object was captured, it
  rebinds the proxy's method slots to that object. Finally it shows the real
  descriptor again.
- the **dev server** (`scripts/server.js`). It serves the loader with the
  extension id substituted for the first `{{EXTENSION_ID}}`. It watches the
  source file, and a one-flag gate (`fsWait`) lets the first change event
  through and broadcasts it to every open WebSocket client.

The model has six modules:

- `Descriptor` (descriptor.dfy): the descriptor returned by `getInfo`, as functions.
- `Update` (update.dfy): `__updateMethods` and one `checkUpdate` run, as functions over the proxy's state. The network answers are inputs. `refreshBlocks` and the requests are an ordered list of effects. Lemmas cover series of calls.
- `Loader` (loader.dfy): the `HotProxy` class and the parts of the global `Scratch` object it uses. Its methods change fields step by step, as the source does. Each method is proved against the `Update` functions.
- `Substitution` (substitution.dfy): `String.prototype.replace` with a string pattern. This includes the `$` patterns that the replacement string still honours.
- `Server` (server.dfy): the open-client filter of `broadcastChange`, and the `fsWait` gate as a class with a pure step function and lemmas over event series.
- `Wrappers` (wrappers.dfy): `Option`.

Behaviour of the code that the model keeps:

- `lastHash` is advanced before the code is fetched (init.js:173). It therefore stays advanced after a failed fetch or evaluation.
- `checkUpdate` has no in-flight guard. Calls are treated as running to completion one at a time.
- The only refresh is the placeholder swap (init.js:178-180, 206-208). The only reconnect is a retry after 2000 ms (init.js:162-164).
- The watcher broadcasts on the first change of a burst, at once (init.js:302-305). The timer only re-opens the gate.
- Every caller in the loader passes `force = true` (init.js:145, 154, 159), so the hash comparison never suppresses an update in practice.

## Model

| member | source | states |
|---|---|---|
| `Descriptor.Describe` | init.js:96-131 | The id is always the configured extension id, even when the implementation reports another. While loading, the descriptor is the placeholder with exactly one block, opcode `__loading__`, whatever the target is, even one whose `getInfo()` throws. Otherwise a descriptor exists exactly when the target's `getInfo()` gives one. It has the target's name and colour and the target's blocks (`[]` when absent) in order, then `'---'`, then the `__forceReload__` block. Its opcodes are the target's followed by `__forceReload__`. |
| `Loader.HotProxy.GetInfo` | init.js:96-131 | Building the descriptor by pushing onto the block list and then overwriting the id gives exactly `Describe` of the proxy's current loading flag and target. The id is the configured one, and the loading case holds the single `__loading__` block. When not loading, it throws (`None`) exactly when the target's `getInfo()` does. |
| `Update.CallablePrefix` | init.js:139-140 | The `forEach` reaches the first rebindable prototype member that is not a function, where `.bind` throws. Every rebindable member before it is a function. |
| `Update.Rebind` | init.js:139-141 | Every rebindable name is bound to the new object. Every other slot keeps its value. No other name appears. |
| `Update.UpdateMethods` | init.js:137-143 | It completes exactly when the prototype is not `null` and every rebindable member is a function. Then `target` is the new object and every prototype name except `constructor` and `getInfo` is bound to it. The `getInfo` and `constructor` slots and every slot the new prototype does not name are unchanged, including methods only the old target had. When it stops early, `target` is unchanged, exactly the names before the failing member are rebound, and every other slot keeps its value or stays absent. A `null` prototype changes nothing. `lastHash` and `isLoading` never change. |
| `Loader.HotProxy.UpdateMethods` | init.js:137-143 | It stops before any slot on a `null` prototype, runs the binding loop, and adopts the target only after the loop completes. Its result and new state are exactly `Update.UpdateMethods`, including the partial rebind left when `.bind` throws. |
| `Loader.HotProxy.BindPrototype` | init.js:139-141 | The loop assigns slots one prototype name at a time and stops at the first rebindable member that is not a function. It gets through exactly `CallablePrefix` members, and the slots are exactly those names rebound. |
| `Update.CheckUpdateSpec` | init.js:167-218 | Every run starts with the version fetch. Every descriptor shown to the host carries the configured id. An unchanged hash without force is a bare version fetch with no state change. A failed version fetch fetches no code and keeps `lastHash`, target and slots. When the branch is taken, `lastHash` becomes the fetched hash whatever happens after. Target and slots change only when a payload's last register call passed an object. A changed target is that object, and `__updateMethods` ran to the end on it. A capture becomes the target exactly when `__updateMethods` completes on it; otherwise the target is kept. A run never turns loading on for good. With a vm, a taken branch shows the loading placeholder first, and every acting run ends not loading, with a refresh that shows the steady descriptor. Without a vm, nothing is refreshed. |
| `Loader.HotProxy.CheckUpdate` | init.js:167-218 | The imperative run has exactly the state and effect list of `CheckUpdateSpec`. `Scratch.extensions.register` ends as it started, and `ws` is untouched. |
| `Loader.HotProxy.ApplyUpdate` | init.js:172-211 | The update branch: record the hash, enter loading and refresh with a vm, request the code, then continue as `LoadCode`. The result equals `Update.RunUpdate`. |
| `Loader.HotProxy.LoadCode` | init.js:188-210 | The hook is installed before evaluation and restored afterwards, whether or not the payload threw. A capture is rebound. A throwing `.bind` or a failed code fetch takes the catch path. The result equals `Update.AfterFetch`. |
| `Loader.HotProxy.RefreshBlocks` | init.js:180 | The host re-reads `getInfo()`. The trace gains one refresh showing the current descriptor, and nothing else changes. |
| `Loader.HotProxy.Recover` | init.js:212-216 | The catch block leaves loading unconditionally and refreshes only with a vm, as `Update.Recover`. |
| `Update.SteadyBetweenChecks` | init.js:178-182 | Starting from a steady proxy, any series of `checkUpdate` runs leaves it steady. Each run resets `isLoading` on every path that set it. |
| `Update.TargetIsLastKnownGood` | init.js:191-201 | After any series of runs, with any network and payload behaviour, the target is the initial one or an object that some payload registered last and that `__updateMethods` completed on. A failed run never changes the target. A run whose `.bind` throws can still leave a partial rebind of slots (see `Update.UpdateMethods`). |
| `Update.ThrowingPayloadSameOutcome` | init.js:195 | The payload's exception is caught and logged. A payload that throws after its register calls gives the same run as one that does not, so an object registered before the throw is still rebound. |
| `Loader.HotProxy.ForceReload` | init.js:145 | `__forceReload__` is a forced `checkUpdate`. |
| `Loader.HotProxy.TryWebSocket` | init.js:147-151 | `start`/`tryWebSocket` leave the socket connecting. |
| `Loader.HotProxy.OnOpen` | init.js:152-155 | A successful connection marks the socket open and runs a forced check. |
| `Loader.HotProxy.OnMessage` | init.js:156-161 | Only a parsed message of type `change` runs a forced check. Any other message, including one that does not parse, changes nothing. |
| `Loader.HotProxy.OnClose` | init.js:162-164 | A close leaves the socket closed and runs no check. The reconnect is a later `TryWebSocket`. |
| `Loader.HotProxy.constructor` | init.js:87-94 | A new proxy holds the "connecting" placeholder target, an empty `lastHash`, no socket, no loading and no slots. |
| `Substitution.IndexFrom` | init.js:270 | The result is the first occurrence of the pattern at or after `from`, or no occurrence exists there. |
| `Substitution.IndexOf` | init.js:270 | The result is the first occurrence of the pattern, or there is none. |
| `Substitution.ReplaceFirst` | init.js:270 | Text without the pattern is unchanged. With a replacement free of `$`, only the first occurrence is replaced, literally. |
| `Substitution.ExpandLiteral` | init.js:270 | A replacement string without `$` is inserted as written. |
| `Substitution.ServeLoader` | init.js:270 | For a loader whose first placeholder follows `prefix` and an id without `$`, the served text is `prefix + id + suffix`. Everything after the first placeholder, any later placeholder included, is kept verbatim. |
| `Substitution.DollarAmpersandRestoresMatch` | init.js:270 | An id of `$&` puts the placeholder back. The substitution is not literal for every id. |
| `Server.OpenClients` | init.js:287-292 | The recipients are exactly the clients whose `readyState` is 1. |
| `Server.OpenClientsAppend` | init.js:287-292 | The filter keeps the clients' order, since it distributes over concatenation. |
| `Server.BroadcastChange` | init.js:287-292 | The loop sends to exactly the open clients in order, and `count` is the number of sends. |
| `Server.Step` | init.js:301-305 | An event broadcasts exactly when it has a filename and the gate is open. A broadcast arms the gate. An event without a filename leaves the gate as it was. A timer expiry disarms it. |
| `Server.OnePerWindow` | init.js:301-305 | Among events with no timer expiry, an armed gate broadcasts nothing. An open gate broadcasts exactly once if some event has a filename, namely the one that armed it, and never otherwise. |
| `Server.BroadcastsBoundedByTimers` | init.js:299-307 | Over any series of events, broadcasts exceed timer expiries by at most one, and by none from an armed gate. |
| `Server.Watcher.OnFsEvent` | init.js:301-306 | The watcher callback moves the flag as `Step` does. It broadcasts to the open clients exactly when `Step` says so. |
| `Server.Watcher.OnTimerFired` | init.js:304 | The timer clears `fsWait`. |
| `Server.Watcher.constructor` | init.js:299 | The gate starts open. |

## Left out

- Project scaffolding: prompts, directory creation, `package.json`, the extension and build-script templates and `yarn` runs (init.js:6-73, 338-367). These are file and process I/O with no invariants.
- HTTP routing, CORS, cache headers, `sendFile`, the listen banner and browser auto-open (init.js:240-272, 310-335). Only the substitution at init.js:270 is modelled.
- `getHash` (init.js:250-254): MD5 is a foreign call, so hashes are opaque strings given by the network input. A missing file's `''` is one such string.
- `fetch`, `res.json()`/`res.text()`, `window.eval` and the WebSocket object are inputs: the version answer, the code answer and what the payload registers. A payload that changes `Scratch.extensions.register` itself is not modelled.
- The change message's JSON body and its hash are not modelled. `broadcastChange` is modelled by its recipients and count.
- The size display with `toFixed` and the console logs (init.js:279-285, 294-296) are floating-point formatting and output.
- Time: the 50 ms settle delay, the 100 ms gate timer and the 2000 ms reconnect delay appear only as abstract events.
- Concurrency: overlapping `checkUpdate` calls can interleave at their awaits because the source has no in-flight guard. Each call is modelled as running to completion.
- The startup check for unsandboxed mode, the one-time `register(proxy)` and `proxy.start()` (init.js:84, 221-223) are left out. So is the watcher being installed only when the file exists at start (init.js:300).
- `__loading__` (init.js:133-135) only logs a warning.
- `Loader.HotProxy.UpdateMethods`: slots are kept in a table apart from the proxy's fields and own methods. A prototype name that collides with `target`, `lastHash`, `isLoading`, `ws` or a proxy method such as `checkUpdate` is recorded as a slot. It does not overwrite that field or redirect that method, whereas in the source it would.
- `Descriptor.Describe`: it assumes the target's `getInfo()` builds a fresh object on each call. A target that returns the same object would, in the source, collect another separator and force-reload block on every call, because the proxy pushes onto that object's array.
- `Descriptor.Describe`: block `arguments` and any descriptor fields other than id, name, `color1` and blocks are not carried.
- `Descriptor.Describe`: a target `getInfo()` that throws, or whose `blocks` is truthy without a `push`, is one case: the proxy's `getInfo` throws. The model records that refresh as showing nothing (`None`) and lets `checkUpdate` go on. That rests on `refreshBlocks()` reporting the failure through the promise it returns, which the loader never awaits (init.js:180, 208, 216). The host's code is not part of this model. A host whose `refreshBlocks` throws synchronously would send the run into the catch block instead.
- `Update.CheckUpdateSpec`: a version answer without a `hash` field is not modelled. In the source, `undefined !== lastHash` takes the update branch and sets `lastHash` to `undefined` (init.js:170-173).
