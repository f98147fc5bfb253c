# rust-cms plugin and token core, modelled in Dafny

This project models six pieces of sequential logic from the rust-cms server:

- the plugin registry: a name-to-plugin map changed only through a log of `New` / `Remove` operations, kept in two copies that a single writer publishes;
- the plugin call router: lookup, build, export check, call, and rendering of the results;
- the router error type, with its display text, HTTP status and plain-text response;
- the token-issuing gate, which trades an e-mail verification for an access token;
- the `TokenGenerator`, which holds the bytes to hash and the hex SHA-256 token;
- the token middleware's decision to forward a request or refuse it.

Files and modules:

- `wrappers.dfy` (`Wrappers`): `Option` and `Result`.
- `hex.dfy` (`Hex`): bytes, and the `{:x}` rendering of a digest as lower-case hex. It proves the rendering is exactly two digits per byte and that parsing it gives the bytes back.
- `plugin_config.dfy` (`PluginConfig`): the configuration values that serde produces.
- `manager.dfy` (`Manager`): `PluginBuilder`, `SystemOp`, the class `PluginSystem` (`absorb_first`, `sync_with`), and the class `PluginRegistry`. `PluginRegistry` combines the left-right pair with the writer's op log and the reader's `get`.
- `run_plugin.dfy` (`RunPlugin`): `run_plugin_function` as written, plus a corrected copy (see Findings).
- `router_error.dfy` (`RouterErrors`): `RouterError`, `Display`, `status_code`, `error_response`.
- `token.dfy` (`Token`): the class `TokenGenerator`.
- `token_middleware.dfy` (`TokenMiddleware`): `TokenAuthMiddleware::call`.
- `get_token.dfy` (`GetToken`): the gate and the class `AccountStore`, whose method `GetToken` models the router over in-memory tables.

Several inputs become parameters:

- SHA-256 is a function parameter whose every digest is 32 bytes long (section 6.2 of FIPS 180-4 fixes the 256-bit length).
- The wasm engine's export list, `run_func` and `Value::to_string` are the fields of an `Engine` value.
- The token checker and the wrapped service are function parameters.
- The clock is an integer number of seconds.
- The random salt is a 32-byte input.

## Model

| member | source | states |
|---|---|---|
| `Hex.LowerHex` | auth/src/token/token.rs:32 | `{:x}` on a digest gives two characters per byte, all of them lower-case hex digits |
| `Hex.ParseLowerHex` | auth/src/token/token.rs:32 | the hex rendering loses nothing: reading it back gives the original bytes |
| `Hex.LowerHexInjective` | auth/src/token/token.rs:32 | different digests never render to the same token text |
| `Hex.AsciiBytes` | src/core_routers/account/get_token.rs:79 | `as_bytes` on an ASCII token gives one byte per character, equal to its code point |
| `Manager.PluginBuilder.Build` | plugin_manager/src/manager.rs:107-112 | build always returns `Ok`, carrying the builder's own source bytes and no instance yet |
| `Manager.BuilderSurface` | plugin_manager/src/manager.rs:87-112 | metadata and source are the configured ones; permissions and routers are empty; build cannot fail |
| `Manager.Apply` | plugin_manager/src/manager.rs:160-170 | `New(name, p)` leaves `p` at `name` and replaces any earlier entry; `Remove(name)` deletes only that key and is a no-op when it is absent; every other key keeps its entry |
| `Manager.Lookup` | plugin_manager/src/manager.rs:237 | `plugins.get(name).cloned()`: `None` exactly when the name is absent, otherwise the stored plugin |
| `Manager.ApplyAll` | plugin_manager/src/manager.rs:204-205 | the in-order absorb that publish performs: names the log never mentions keep their entry, and a new name only comes from a `New`; the per-name result is stated by `ApplyAllLookup` |
| `Manager.ApplyAllLookup` | plugin_manager/src/manager.rs:160-170 | after absorbing a log in order, each name holds what its last operation left there, or its old entry if the log never names it |
| `Manager.LastInsertWins` | plugin_manager/src/manager.rs:162-164 | two `New`s under one name leave the second plugin |
| `Manager.RemoveLast` | plugin_manager/src/manager.rs:166-168 | a log that ends with `Remove(name)` leaves `name` absent |
| `Manager.ApplyAllWellKeyed` | plugin_manager/src/manager.rs:189-190 | if every `New` is keyed by its plugin's metadata name, every key of the resulting map equals that plugin's metadata name |
| `Manager.PluginSystem.AbsorbFirst` | plugin_manager/src/manager.rs:160-170 | the map is updated in place to `Apply` of the old map and the operation |
| `Manager.PluginSystem.SyncWith` | plugin_manager/src/manager.rs:172-174 | this copy becomes equal to `first`, so both copies give the same lookups |
| `Manager.PluginRegistry.constructor` | plugin_manager/src/manager.rs:148-153 | two distinct, empty copies and an empty log |
| `Manager.PluginRegistry.Add` | plugin_manager/src/manager.rs:189-193 | appends `New(plugin.metadata().name, plugin)`; readers see no change |
| `Manager.PluginRegistry.Remove` | plugin_manager/src/manager.rs:196-201 | appends `Remove` of the plugin's metadata name only; readers see no change |
| `Manager.PluginRegistry.Publish` | plugin_manager/src/manager.rs:204-208 | readers now see the old map with every pending operation applied in append order; both copies agree again; the log is empty |
| `Manager.PluginRegistry.AddFromConfig` | plugin_manager/src/manager.rs:212-223 | always `Ok`; appends `New(config.metadata.name, PluginBuilder(config, bytes))` |
| `Manager.PluginRegistry.Get` | plugin_manager/src/manager.rs:236-238 | `None` exactly for unregistered names; a hit is the published plugin, whose metadata name is the one asked for; nothing changes |
| `Manager.AddPublishGet` | plugin_manager/src/manager.rs:189-238 | after `add`, `get` still returns the old entry; after `publish`, it returns the added plugin |
| `RunPlugin.AnyDiffers` | src/core_routers/plugin/run_plugin.rs:34-38 | the export check is true exactly when some export name differs from the requested name |
| `RunPlugin.Stringify` | src/core_routers/plugin/run_plugin.rs:52-55 | the response has the same length and order as the raw values, each one passed through `to_string` |
| `RunPlugin.RunPluginFunction` | src/core_routers/plugin/run_plugin.rs:18-58 | the router as written: an unknown plugin gives the plugin 404; a registered one gets the function 404 exactly when some export differs from the requested name; otherwise the result is that of the call with no arguments (`InternalError` on failure, the rendered values on success); see also `RunPluginOutcome` |
| `RunPlugin.UnknownPlugin` | src/core_routers/plugin/run_plugin.rs:26-28 | an unknown plugin gives 404 "Plugin name {name} not found!" whatever the engine does |
| `RunPlugin.RunPluginOutcome` | src/core_routers/plugin/run_plugin.rs:18-58 | success exactly when the plugin is registered, every export equals the requested name and the call with no arguments succeeds; the response then renders that call's values in order |
| `RunPlugin.InternalErrorOnlyFromCall` | src/core_routers/plugin/run_plugin.rs:30-48 | `InternalError` exactly when every check passed and `run_func` failed; the build-failure branch is never taken |
| `RunPlugin.RejectedExportNotRun` | src/core_routers/plugin/run_plugin.rs:34-46 | a rejected export gives 404 "Function name {name} not found!", and the function is not run |
| `RunPlugin.NoExportsPass` | src/core_routers/plugin/run_plugin.rs:34-38 | as written, zero exports pass the check for any name |
| `RunPlugin.TwoDistinctExportsFail` | src/core_routers/plugin/run_plugin.rs:34-38 | as written, two different export names fail the check for every requested name |
| `RunPlugin.ListedExportRejected` | src/core_routers/plugin/run_plugin.rs:34-43 | an export listed beside any other export is answered with the function 404 |
| `RunPlugin.ExportListed` | src/core_routers/plugin/run_plugin.rs:34-38 | corrected check: true exactly when some export equals the requested name |
| `RunPlugin.RunPluginFunctionIntended` | src/core_routers/plugin/run_plugin.rs:18-58 | the corrected router: a registered plugin's function gets the function 404 exactly when no export equals the requested name; a listed one is run with no arguments |
| `RunPlugin.IntendedExportCheck` | src/core_routers/plugin/run_plugin.rs:34-48 | with the corrected check, a registered plugin's function gets the 404 exactly when it is not an export; a listed one is run |
| `RunPlugin.AgreeOnSingleExport` | src/core_routers/plugin/run_plugin.rs:34-43 | when the only export is the requested name, the as-written and corrected routers agree |
| `RouterErrors.Display` | src/error/router_error.rs:26-35 | `Auth`, `NotFound` and `Expired` display exactly their message; `InternalError` displays "InternalError" |
| `RouterErrors.StatusCode` | src/error/router_error.rs:44-51 | `Auth` is 401, `NotFound` 404, `Expired` 410 Gone and `InternalError` 500, each in both directions; every variant except `InternalError` is a 4xx |
| `RouterErrors.StatusIdentifiesKind` | src/error/router_error.rs:44-51 | two errors share a status exactly when they are the same variant |
| `RouterErrors.ErrorResponse` | src/error/router_error.rs:38-42 | the response's status is `status_code()`, its body is the `Display` text and its content type is plain text |
| `RouterErrors.ResponseIdentifiesError` | src/error/router_error.rs:38-51 | two errors give the same response exactly when they are equal |
| `Token.Digest` | auth/src/token/token.rs:27-33 | the generated token is 64 lower-case hex (ASCII) characters |
| `Token.DigestIdentifiesHash` | auth/src/token/token.rs:27-33 | two sources give the same token exactly when their SHA-256 digests agree |
| `Token.TokenGenerator.constructor` | auth/src/token/token.rs:14-19 | `source` is the argument and `result` is `None` |
| `Token.TokenGenerator.SetSource` | auth/src/token/token.rs:22-24 | only `source` changes; `result` stays until the next `generate` |
| `Token.TokenGenerator.Generate` | auth/src/token/token.rs:27-33 | `result` becomes `Some` of the hex digest of the current source, overwriting any earlier one; `source` is kept |
| `Token.TokenGenerator.GetResult` | auth/src/token/token.rs:36-38 | returns a copy of `result` and changes nothing; a token it returns is 64 lower-case hex digits |
| `Token.GeneratorScenario` | auth/src/token/test.rs:19-28 | before `generate` the result is `None`; after it, a 64-character token that a second `generate` reproduces |
| `TokenMiddleware.HeaderText` | auth/src/token/token_middleware.rs:90-93 | a header is text exactly when every byte is visible ASCII or a tab, and the text is those same bytes |
| `TokenMiddleware.Authorize` | auth/src/token/token_middleware.rs:90-104 | the forward-or-reject decision: `Some` exactly when the header is present, reads as text and the checker returns `Some` for exactly that text, and then the checker's data |
| `TokenMiddleware.AuthorizeSpec` | auth/src/token/token_middleware.rs:90-104 | a request passes exactly when the header is present, readable, and the checker, asked about exactly that text, returns `Some`; the data is the checker's |
| `TokenMiddleware.UnreadableIsMissing` | auth/src/token/token_middleware.rs:90-94 | an unreadable header is treated the same as a missing one |
| `TokenMiddleware.Call` | auth/src/token/token_middleware.rs:85-106 | on acceptance the data is inserted into the request's extensions and the service's response is returned; otherwise Unauthorized "This Token is not valid", with the service not called and the request unchanged |
| `TokenMiddleware.MiddlewareScenario` | auth/src/token/test.rs:30-47 | with a checker that accepts everything, no header is refused and "secret-token" is forwarded |
| `GetToken.Gate` | src/core_routers/account/get_token.rs:24-53 | the checks in source order; passes exactly when the verification exists, its e-mail has a user, and it is verified, unused and under 70 seconds old, yielding that record and user; the refusals are stated by `GateRefusals` |
| `GetToken.GateAccepts` | src/core_routers/account/get_token.rs:24-53 | a request passes exactly when the verification exists, its e-mail has a user, and it is verified, unused and under 70 seconds old |
| `GetToken.GateRefusals` | src/core_routers/account/get_token.rs:24-53 | each refusal in check order: `NotFound`, then `InternalError` for a missing user (before the verified flag), `Auth`, `Used`, and `Expired` once the age reaches 70 |
| `GetToken.GateExpiryMonotone` | src/core_routers/account/get_token.rs:48-53 | a code accepted now was accepted earlier, and one expired now stays expired |
| `GetToken.GateOneShot` | src/core_routers/account/get_token.rs:44-60 | once a request has passed and the record is marked used, the same id gets `Used` at any later time |
| `GetToken.AccountStore.GetToken` | src/core_routers/account/get_token.rs:15-95 | a refusal changes nothing. On success the record becomes used, the returned token is H(salt), and the row stored for the user is H(bytes of the token) |
| `GetToken.AskTwice` | src/core_routers/account/get_token.rs:44-60 | if the first call succeeds, the second call with the same id returns `Used`, and exactly one token row was written |

## Left out

- The concurrency inside left-right is not modelled: atomic swap, reader epochs, and sharing the `ReadHandleFactory` across threads. `PluginRegistry` gives the sequential meaning only. Publish absorbs the log into the standby copy, swaps the copies, then replays the log on the other copy.
- Left-right's one-time use of `sync_with` on the first publish is not modelled. `PluginSystem.SyncWith` is stated on its own.
- `drop_first` does nothing and is not modelled.
- The writer and the reader are one class. Their separate handle types matter only for concurrency.
- The wasm engine is not modelled: `Module::new`, `Instance::new`, the exports iterator and `run_func`. `run_func` (a method on `WasmPlugin`) is not part of this model. The router takes the export list and the call result as `Engine` functions.
- `export_names` in plugin_manager/src/wasm.rs:44-51 unwraps an instance. `build` (plugin_manager/src/manager.rs:107-112) never creates one, so as written the router would panic at the export check. The model takes the export list as given and does not model this panic.
- `Value::to_string` is not defined in this repository. It is a parameter, `Engine.show`.
- Each function's declared result type (`string` or `number`, `PluginAbiParamType` in plugin_manager/src/config.rs:6-14) is never consulted: run_plugin.rs:52-55 only renders each returned value with `to_string`. The model keeps the ABI as plain data in `PluginConfig`.
- Config parsing with serde (`PluginConfig::try_from`, plugin_manager/src/config.rs:41-53) is not modelled. `PluginConfig` holds only the parsed values, and `ManagerError::Config` is never produced here.
- SHA-256 internals and `random_bytes` are not modelled. The hash is a parameter whose digests are 32 bytes long. The salt is an input of 32 bytes.
- `hash_bytes` in hash/src/lib.rs is not part of this model.
- The database and ORM are not modelled. The verification table becomes a map keyed by `uu_id`, and the user table becomes a map keyed by e-mail. The user entity is not part of this model.
- The `update` at get_token.rs:60 discards its error. The `insert` at get_token.rs:92 unwraps its result. The model treats both as always succeeding.
- `GetToken.AccountStore.GetToken`: the clock is integer seconds, with the `f64` to `i64` truncation already applied. The `i64` subtraction's overflow is not modelled.
- `get_token` returns `Used`, but `RouterError` has no such variant. The model returns a separate `Rejection.Used` outcome, and no HTTP status is modelled for it.
- The doc comment on `Expired` says "403 Gone", but `status_code` returns `StatusCode::GONE`. The model follows the code: 410.
- `TokenChecker::get_user_id` is declared to return `Option<u32>`, but the application's checker returns `Option<AuthResult>`. The checker's data type is a type parameter `D`.
- `TokenMiddleware.Call`: the downstream service is a total function of the request's extension slot. The panic from `service.call(req).await.unwrap()` on a service error is not modelled. Apart from that slot, the request's contents are not passed to the service.
- `TokenMiddleware.HeaderText` follows the http crate's `HeaderValue::to_str` rule: visible ASCII or a tab. That crate is not part of this model.
- `init_hello_world` in src/main.rs:57-62 builds a `PluginBuilder` from a `PluginMetadata` and a `String`, which does not match the declared types. Server wiring, e-mail, verification and migrations are not modelled.

## Findings

| source | as written | input that shows it | evidently intended | confidence | as-written member | corrected member |
|---|---|---|---|---|---|---|
| src/core_routers/plugin/run_plugin.rs:34-43 | `.any(\|i\| i != function_name)` rejects a request when any export differs from the requested name | exports `["get_msg", "memory"]`, request `get_msg`: the answer is 404 "Function name get_msg not found!". With exports `[]`, every name passes the check | reject only when no export equals the requested name | high; not executed | `RunPlugin.ListedExportRejected` | `RunPlugin.IntendedExportCheck` |
