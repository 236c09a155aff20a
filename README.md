# Local network service of the game server

A Dafny model of `LocalNetService`, the supervisor that starts and stops the game
server's network listeners. It manages four listeners:
- the primary TCP game server;
- the UDP server;
- the RPC TCP server;
- the proxy TCP front end.

`startup()` first installs the four Netty channel initializers. It then builds and starts
the listeners in the fixed order TCP, UDP, RPC, proxy:
- TCP is always built and started;
- UDP only when `isUdpOpen()` holds;
- RPC only when `isRpcOpen()` holds;
- the proxy only when an `SdProxyConfig` is present.

The first `startService()` that returns false aborts startup with a `StartUpException`
naming that listener. `shutdown()` walks the same order and stops every handle that is
set. For UDP and RPC it also checks the configuration flag again.

The project has three files:
- `wrappers.dfy` holds the `Option` type, which stands for a field that may be `null`.
- `net_spec.dfy` (module `NetSpec`) holds the value types:
  - the configuration snapshot;
  - the listener kinds and their fixed order;
  - the initializers and handles;
  - the `Start`/`Stop` trace events.

  It also holds a specification of startup and shutdown as functions, and the lemmas
  that state the lifecycle properties:
  - `Attempted` lists the kinds whose start is attempted;
  - `Outcome` is the result of startup;
  - `Installed` is the handle fields after startup;
  - `Stopped` lists the kinds that shutdown stops.
- `local_net_service.dfy` (module `LocalNet`) holds the class `LocalNetService`:
  - its fields are the four handle fields and the four initializer fields, plus a ghost
    trace of the `startService()`/`stopService()` calls made so far;
  - its methods assign those fields as the Java methods do;
  - each method is proved against the `NetSpec` functions.

The four listener blocks of `initNetService()` share one method, `Launch`, which the
Java code writes out inline. The outcome of each listener's `startService()` is an oracle
`ok: Kind -> bool`. The thrown `StartUpException` becomes the result `Failure(kind)`. The configuration that the
Java code fetches from the service locator is a parameter of `InitNetService`, `Startup`
and `Shutdown`. Shutdown reads the configuration again, so its configuration need not be
the one startup used.

The code as written behaves as follows:
- **Failed handles stay set.** A handle field is assigned *before* its start is called.
  After a failed start that field is set, and the handles of the listeners started earlier
  stay set too. Nothing is discarded or rolled back (`FailureLeavesHandles`).
- **Shutdown clears nothing.** It never nulls a field. A second `shutdown()` therefore
  stops the same handles again (`Shutdown` keeps `Handles()` unchanged); it is not a no-op.
- **The proxy is stopped whenever its field is set.** There is no configuration check for
  it (`StoppedIff`).
- **Shutdown is not best-effort.** The code does not catch a `stopService()` that throws,
  so no property about stopping the rest after a failed stop is claimed.

## Model

| member | source | states |
|---|---|---|
| LocalNet.LocalNetService.constructor | game-core/src/main/java/com/snowcattle/game/service/net/LocalNetService.java:27-45 | A new supervisor has all four handle fields and all four initializer fields null, and has called nothing. |
| LocalNet.LocalNetService.InitChannelInitializer | game-core/src/main/java/com/snowcattle/game/service/net/LocalNetService.java:100-105 | Sets all four initializers to their classes, whatever the configuration. No handle is touched and no listener is called. |
| LocalNet.LocalNetService.Launch | game-core/src/main/java/com/snowcattle/game/service/net/LocalNetService.java:62-93 | One listener block, for each of the four blocks (TCP :62-64, UDP :70-72, RPC :79-81, proxy :91-93): assigns the handle field of `k` from the configuration and the current initializer, leaving the other fields alone. It then records one `Start(k)` and returns the oracle's answer. |
| LocalNet.LocalNetService.InitNetService | game-core/src/main/java/com/snowcattle/game/service/net/LocalNetService.java:59-98 | The result is `Outcome`. The handle fields become `Installed(old fields, Attempted)`, built with the existing initializers, which are left unchanged. The trace gains exactly one `Start` per attempted kind, in attempt order. |
| LocalNet.LocalNetService.Startup | game-core/src/main/java/com/snowcattle/game/service/net/LocalNetService.java:52-57 | Installs all initializers first, so every handle startup builds carries its initializer. Otherwise behaves as `InitNetService`. |
| LocalNet.LocalNetService.Shutdown | game-core/src/main/java/com/snowcattle/game/service/net/LocalNetService.java:107-131 | No handle or initializer field changes. The trace gains one `Stop` per kind in `Stopped(cfg, fields)`, in the fixed order. |
| NetSpec.Eligible | game-core/src/main/java/com/snowcattle/game/service/net/LocalNetService.java:69-89 | The activation conditions: TCP always, UDP iff `isUdpOpen()`, RPC iff `isRpcOpen()`, the proxy iff an `SdProxyConfig` is present. An eligible kind always has what its handle is built from. |
| NetSpec.BuildHandle | game-core/src/main/java/com/snowcattle/game/service/net/LocalNetService.java:62-92 | The constructor arguments of each listener: the handle has its kind and the current initializer; only the UDP server has no boss group; every listener but the proxy takes the server id, and the proxy takes the id and port of its `SdProxyConfig`. |
| NetSpec.Outcome | game-core/src/main/java/com/snowcattle/game/service/net/LocalNetService.java:64-96 | The `StartUpException` as a result: a failure names an attempted, eligible kind whose start returned false; on success every attempted start returned true. |
| NetSpec.StopGuard | game-core/src/main/java/com/snowcattle/game/service/net/LocalNetService.java:112-130 | A kind is stopped iff its field is non-null and, except for the proxy, its startup activation condition holds under the configuration read at shutdown. |
| NetSpec.AttemptFrom | game-core/src/main/java/com/snowcattle/game/service/net/LocalNetService.java:62-97 | Every attempted kind comes from the candidates and is eligible. Every attempt but the last one started. The last attempt started (or there was none) iff every eligible candidate starts. |
| NetSpec.Attempted | game-core/src/main/java/com/snowcattle/game/service/net/LocalNetService.java:62-67 | Startup always attempts something, and its first attempt is the primary TCP listener. |
| NetSpec.Installed | game-core/src/main/java/com/snowcattle/game/service/net/LocalNetService.java:62-97 | After building the handles of the attempted kinds, each attempted kind's field holds the handle built from the configuration and its initializer. Every other field keeps its previous value. |
| NetSpec.StopFrom | game-core/src/main/java/com/snowcattle/game/service/net/LocalNetService.java:112-130 | A kind is stopped iff it is a candidate and its shutdown guard holds. |
| NetSpec.AttemptStarted | game-core/src/main/java/com/snowcattle/game/service/net/LocalNetService.java:62-97 | Building and successfully starting the next eligible kind keeps the startup invariant. That invariant says: exactly the eligible kinds before the current position were attempted, all of them started, and fields and trace match the specification. |
| NetSpec.AttemptFailed | game-core/src/main/java/com/snowcattle/game/service/net/LocalNetService.java:64-96 | When the next eligible kind's start fails, the attempts are the earlier ones plus that kind, and the result names that kind. The fields (the failed handle included) and the trace are those of the specification. |
| NetSpec.FailedAttempts | game-core/src/main/java/com/snowcattle/game/service/net/LocalNetService.java:64-96 | The first eligible kind whose start fails ends the attempts and is the failure's kind. |
| NetSpec.AttemptSkipped | game-core/src/main/java/com/snowcattle/game/service/net/LocalNetService.java:69-89 | Passing over a kind whose activation condition is false keeps the startup invariant. |
| NetSpec.Finished | game-core/src/main/java/com/snowcattle/game/service/net/LocalNetService.java:59-98 | When all four kinds have been considered without a failure, startup succeeds. The invariant's attempts, fields and trace are then exactly those of the specification. |
| NetSpec.StopTaken | game-core/src/main/java/com/snowcattle/game/service/net/LocalNetService.java:112-130 | Stopping the next kind when its guard holds keeps the shutdown invariant: exactly the guarded kinds before the current position were stopped, in order. |
| NetSpec.StopSkipped | game-core/src/main/java/com/snowcattle/game/service/net/LocalNetService.java:112-130 | Passing over the next kind when its guard fails keeps the shutdown invariant. |
| NetSpec.StopFinished | game-core/src/main/java/com/snowcattle/game/service/net/LocalNetService.java:107-131 | After all four kinds, the trace holds exactly the stops of `Stopped`. |
| NetSpec.AttemptFromInOrder | game-core/src/main/java/com/snowcattle/game/service/net/LocalNetService.java:62-97 | Attempts keep the order of the candidates. |
| NetSpec.AttemptedInOrder | game-core/src/main/java/com/snowcattle/game/service/net/LocalNetService.java:62-97 | Start attempts follow the fixed order TCP, UDP, RPC, proxy, each kind at most once. |
| NetSpec.StopFromInOrder | game-core/src/main/java/com/snowcattle/game/service/net/LocalNetService.java:112-130 | Stops keep the order of the candidates. |
| NetSpec.AttemptFromMembership | game-core/src/main/java/com/snowcattle/game/service/net/LocalNetService.java:62-97 | A candidate is attempted iff it is eligible and every eligible candidate of lower rank started. |
| NetSpec.TcpFailureAbortsAll | game-core/src/main/java/com/snowcattle/game/service/net/LocalNetService.java:62-67 | If the TCP start fails, only TCP is attempted and startup fails naming TCP. No UDP, RPC or proxy handle is built or started. |
| NetSpec.IneligibleUntouched | game-core/src/main/java/com/snowcattle/game/service/net/LocalNetService.java:69-89 | A listener whose condition (`isUdpOpen`, `isRpcOpen`, proxy config present) is false is neither built nor started, and its field keeps its value. |
| NetSpec.AttemptedIff | game-core/src/main/java/com/snowcattle/game/service/net/LocalNetService.java:62-97 | A listener is built and started iff its own condition holds and every eligible listener before it started. |
| NetSpec.FailureIff | game-core/src/main/java/com/snowcattle/game/service/net/LocalNetService.java:64-96 | Startup fails naming `k` iff `k` is the first eligible kind whose start returns false. After such a failure no later kind is attempted. |
| NetSpec.SuccessIff | game-core/src/main/java/com/snowcattle/game/service/net/LocalNetService.java:59-98 | Startup succeeds iff every eligible listener's start returns true. |
| NetSpec.SuccessHandles | game-core/src/main/java/com/snowcattle/game/service/net/LocalNetService.java:59-98 | On success, each eligible listener's field holds its new handle and the others are untouched. Starting from all-null fields, the non-null handles are exactly TCP, UDP if `udpOpen`, RPC if `rpcOpen`, and the proxy if configured. |
| NetSpec.FailureLeavesHandles | game-core/src/main/java/com/snowcattle/game/service/net/LocalNetService.java:62-97 | After a failure naming `k`, the field of `k` is set and the earlier eligible listeners keep their handles. Nothing is rolled back; that startup issues no `Stop` at all is `InitNetService`'s trace clause, which appends only `Start` events. |
| NetSpec.StoppedIff | game-core/src/main/java/com/snowcattle/game/service/net/LocalNetService.java:112-130 | Shutdown stops, in the fixed order: TCP iff its field is set; UDP iff `udpOpen` and its field is set; RPC iff `rpcOpen` and its field is set; the proxy iff its field is set, whatever the configuration. |
| NetSpec.ShutdownBeforeStartup | game-core/src/main/java/com/snowcattle/game/service/net/LocalNetService.java:107-131 | With every field null, shutdown stops nothing. |
| NetSpec.ShutdownMirrorsStartup | game-core/src/main/java/com/snowcattle/game/service/net/LocalNetService.java:59-131 | Under the startup configuration, shutdown after a first startup stops exactly the attempted listeners, in the same order, the failed one included. |

## Left out

- The service-locator lookup of the configuration (`LocalNetService.java:60-61`, `:109-110`) is out of scope. The configuration snapshot is a parameter instead.
- Netty internals are out of scope: channel pipelines, NIO channel types, and the values of the `GlobalConstants.Thread` boss and worker counts. Initializers are tokens of their classes, and thread counts are named constants without values.
- The network code of the four listener services is not part of this model. Their `startService()` results are the oracle `ok`; their start and stop calls are `Start`/`Stop` events in a ghost trace.
- Exceptions thrown by `startService()` or `stopService()` are out of scope. So is the `NullPointerException` when `getNetProxyConfig()` returns null (`:87-88`). The code handles none of these.
- The message text of each `StartUpException` (`:66`, `:74`, `:83`, `:95`) is not modelled; the result `Failure(kind)` carries the listener the message names.
- The getters and setters (`:133-171`) and `getId` (`:47-50`) are trivial accessors and are omitted.
- Concurrency inside the listeners is out of scope.
- Handles are values, not object references. The model does not capture object identity: two handles built from the same configuration compare equal.
