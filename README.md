# demo-playground-cli-mount-db, modelled in Dafny

This project models the core of a small Node.js harness. The harness boots WordPress Playground on PHP-WASM in a worker thread, mounts host directories into PHP's virtual filesystem, and hands tests a process-wide handler that sends HTTP requests to the local server. The model covers five parts:

- **The worker** (`worker-thread.ts`, modules `ProcessIds` and `WorkerThread`).
  - `PlaygroundCliWorker` is a class with a `booted` field. A second `boot` throws "Playground already booted".
  - The runtime factory hands out process ids. They go round from `firstProcessId` to `firstProcessId + processIdSpaceLength - 1`, then wrap. This counter is a `ProcessIdAllocator` object, proved equal to the closed form `IdAt`.
  - `mountResources` is a loop over a `Php` object that records each call.
  - Every effect of `boot` is appended, in order, to one `Recorder` log. That log is proved equal to a reference trace, `BootTrace`. The effects are: the lock manager connecting, `bootWordPress` starting, runtimes created, `mkdir`/`mount` calls, the primary PHP being set, and the readiness or error signal.
  - The WordPress boot library is abstract. A script says how often it calls the runtime factory, when it runs the `beforeWordPressFiles` hook, and how it ends.
- **The cached downloader** (`download.ts`, module `Download`).
  - A `FileSystem` class holds a map from path to bytes and a set of directories.
  - `DownloadTo` streams a response body into `<path>.partial`. It renames that file to `<path>` only when the write stream finishes. It is proved equal to a reference function, `DownloadEffect`.
  - `CachedDownload` fetches only when the artifact is absent. `ReadAsFile` names the file after its path's basename.
- **The redirect follower** (`utils.ts`, module `Redirects`).
  - The source's loop-around-a-recursive-call is modelled as a method with the same shape. The request handler is a finite script of replies.
  - The method is proved equal to a flat reference chain, `Chain`, and properties of the chain are proved as lemmas.
- **The boot entry point** (`bootPlaygroundNode.ts`, module `BootPlaygroundNode`).
  - The blueprint merge works over JavaScript values, with JavaScript's `??`, `||` and object-spread rules.
  - The options handed to the worker's `boot` are modelled, with the consequence that process ids simply count up.
  - The spawn handshake is a fold over the worker's `message` and `error` events.
- **The singleton handler** (`playgroundHandler.js`, module `PlaygroundHandler`).
  - The `globalThis` slot is a class field. It is filled on first use and returned afterwards, even when the stored promise was rejected.
  - The base URL is `http://127.0.0.1:<port>`, and the port can be read back from it.
  - The handler's `request` hands its options on unchanged, together with that base URL.

`Wrappers` holds `Option`, `Result`, `Outcome` and bytes. `Decimal` renders and parses natural numbers in decimal.

Three behaviours of the code are worth noting:

- **Read errors.** A `reader.read()` that rejects leaves `<path>.partial` on disk. `downloadTo` removes the partial file only on a write-stream `error` event (`Download.ReadErrorLeavesPartial`).
- **Missing location.** A 301 or 302 without a `location` header is an error, not a clean stop. Reading `.length` of `undefined` throws (`Redirects.MissingLocationThrows`).
- **Short ranges.** A process-id space of length 1 or less always yields `firstProcessId`. The test `nextProcessId < lastProcessId` is then never true (`ProcessIds.IdAt`).

## Model

| member | source | states |
|---|---|---|
| `ProcessIds.IdAt` | worker-thread.ts:94-101 | reference definition of the k-th id handed out: it lies in [firstProcessId, lastProcessId] for a space of length at least 1, and is always firstProcessId for a length of 1 or less; its other properties are the lemmas FirstIdIsFirst, NextIdFollowsPrevious, IdPeriodic and IdsDistinctWithinPeriod |
| `ProcessIds.Advance` | worker-thread.ts:96-101 | the closure's step: the cursor goes up by one or back to firstProcessId, and a cursor in [firstProcessId, lastProcessId] stays there |
| `ProcessIds.AdvanceIdAt` | worker-thread.ts:96-101 | one increment-or-wrap step moves the reference id of call k to that of call k + 1 |
| `ProcessIds.FirstIdIsFirst` | worker-thread.ts:79 | the first runtime gets firstProcessId |
| `ProcessIds.NextIdFollowsPrevious` | worker-thread.ts:94-101 | each id is the previous plus one while the previous is below lastProcessId, and firstProcessId right after lastProcessId |
| `ProcessIds.IdPeriodic` | worker-thread.ts:96-101 | ids repeat with period processIdSpaceLength |
| `ProcessIds.IdsDistinctWithinPeriod` | worker-thread.ts:94-101 | no id repeats among processIdSpaceLength consecutive calls from the start |
| `ProcessIds.ProcessIdAllocator.constructor` | worker-thread.ts:79-80 | the cursor starts at firstProcessId with nothing issued |
| `ProcessIds.ProcessIdAllocator.Next` | worker-thread.ts:94-101 | returns the reference id of the call number it is, and counts the call |
| `WorkerThread.BootTrace` | worker-thread.ts:74-154 | reference definition of a first boot's effects: none when the lock manager fails to connect, otherwise starting with its connection; its properties are the lemmas LockManagerFirst, LockFailureIsSilent, ReadyExactlyOnSuccess, ErrorSignalledAndRethrown and BootRuntimeIds |
| `WorkerThread.BootResult` | worker-thread.ts:74-154 | reference definition of how a first boot ends: it succeeds exactly when the lock manager connects, bootWordPress resolves, and getPrimaryPhp and setPrimaryPHP resolve; a lock failure is rethrown as it is |
| `WorkerThread.PhpVersionOf` | worker-thread.ts:65 | the PHP version is the option's, or "8.0" when none is given |
| `WorkerThread.BootConfig` | worker-thread.ts:91-140 | bootWordPress gets the absolute URL as site URL, the "cli" SAPI, no cookie store, a CA bundle file that openssl.cafile points to, and each zip exactly when given, under its fixed file name |
| `WorkerThread.MountCallsAppend` | worker-thread.ts:31-36 | one more mount adds its mkdir then its mount call at the end |
| `WorkerThread.MountCallsShape` | worker-thread.ts:31-36 | mountResources makes exactly two calls per mount, in list order: mkdir(vfsPath), then mount(vfsPath, handler for hostPath) |
| `WorkerThread.MountCallsTargets` | worker-thread.ts:31-36 | every call of mountResources is a mkdir or mount on the given PHP at one of the mounts' virtual paths |
| `WorkerThread.NoRuntimesInMountCalls` | worker-thread.ts:31-36 | mounting creates no runtime |
| `WorkerThread.StepsRuntimeIds` | worker-thread.ts:93-111 | the k-th runtime created gets the k-th id of the cyclic allocator, and there are as many as factory calls |
| `WorkerThread.StepsOnlyMountPreInstall` | worker-thread.ts:133-136 | during bootWordPress every mkdir/mount comes from the beforeWordPressFiles hook, on a PHP the hook received, at a pre-install path |
| `WorkerThread.NoSignalInMountCalls` | worker-thread.ts:31-36 | mounting never signals readiness or an error |
| `WorkerThread.NoSignalInSteps` | worker-thread.ts:91-140 | nothing during bootWordPress signals readiness or an error |
| `WorkerThread.ReadyExactlyOnSuccess` | worker-thread.ts:141-148 | setApiReady is called exactly when boot succeeds, once, last, right after the post-install mounts on the primary PHP that was just set |
| `WorkerThread.ErrorSignalledAndRethrown` | worker-thread.ts:141-154 | a failure after the lock manager connected signals setAPIError with the error boot rethrows, last and once, and never setApiReady; no post-install mkdir or mount is applied after bootWordPress settles, since those wait for setPrimaryPHP |
| `WorkerThread.LockFailureIsSilent` | worker-thread.ts:81-84 | a lock manager that fails to connect makes boot throw its error with no other effect |
| `WorkerThread.LockManagerFirst` | worker-thread.ts:81-91 | the lock manager connects first, then bootWordPress starts with BootConfig, before any runtime or mount |
| `WorkerThread.NoRuntimesAfterBoot` | worker-thread.ts:141-154 | the worker's own code after bootWordPress settles makes no factory call |
| `WorkerThread.BootRuntimeIds` | worker-thread.ts:84-154 | the runtimes of a whole boot are exactly those the library's factory calls create |
| `WorkerThread.BootRuntimeIdAt` | worker-thread.ts:79-111 | the k-th runtime a boot creates gets the k-th id of the cyclic allocator |
| `WorkerThread.Php.Mkdir` | worker-thread.ts:33 | php.mkdir is recorded on that PHP |
| `WorkerThread.Php.Mount` | worker-thread.ts:34 | php.mount is recorded on that PHP with its handler |
| `WorkerThread.MountResources` | worker-thread.ts:31-36 | the calls made are exactly MountCalls of the mounts |
| `WorkerThread.PlaygroundCliWorker.constructor` | worker-thread.ts:55 | a new worker is not booted |
| `WorkerThread.PlaygroundCliWorker.Boot` | worker-thread.ts:74-154 | a booted worker throws AlreadyBooted with no effect; otherwise booted is set and the effects and result are BootTrace and BootResult |
| `WorkerThread.PlaygroundCliWorker.BootConnected` | worker-thread.ts:84-154 | once the lock manager has connected, the effects and the result are those of BootTrace and BootResult |
| `WorkerThread.PlaygroundCliWorker.RunLibrary` | worker-thread.ts:91-140 | the library's callback calls produce StepsTrace, with ids drawn from one allocator |
| `WorkerThread.PlaygroundCliWorker.Callback` | worker-thread.ts:93-136 | the factory takes the next process id and loads a runtime with the PHP version, trace and followSymlinks options; the hook mounts the pre-install list |
| `WorkerThread.PlaygroundCliWorker.Finish` | worker-thread.ts:141-154 | after bootWordPress: set handler and primary PHP, mount post-install, signal ready; or signal the error that is rethrown |
| `WorkerThread.BootTwice` | worker-thread.ts:74-77 | a second boot throws AlreadyBooted and adds nothing to the first boot's effects, whether that one succeeded or failed |
| `Download.BasenameOfJoin` | download.ts:22-27 | the artifact read back is named after its cache key |
| `Download.Basename` | download.ts:63 | a basename contains no path separator |
| `Download.DownloadEffect` | download.ts:30-60 | reference definition of downloadTo: it touches no path but the final and the partial one, and a rejected fetch changes nothing; its properties are the lemmas DownloadSuccess, FinalPathAtomic, WriterErrorCleansUp and ReadErrorLeavesPartial |
| `Download.PartialDiffers` | download.ts:36 | the temporary path differs from the final path |
| `Download.DownloadSuccess` | download.ts:30-60 | a download that succeeds used a body ending in done and a finished stream; it leaves the concatenated values at the final path, no partial file, and every other path as it was |
| `Download.FinalPathAtomic` | download.ts:36-58 | in every failing outcome the final path is exactly as before |
| `Download.WriterErrorCleansUp` | download.ts:54-57 | a write-stream error removes the partial file and rethrows that error |
| `Download.ReadErrorLeavesPartial` | download.ts:38-46 | a rejected read rethrows its error and leaves the partial file with what was written so far |
| `Download.FileSystem.ReadAsFile` | download.ts:62-64 | succeeds exactly when the path is a file, with its contents, named fileName if given and the basename otherwise; else throws for that path |
| `Download.FileSystem.EnsureDir` | download.ts:24 | the cache folder exists afterwards; files unchanged |
| `Download.FileSystem.CreateWriteStream` | download.ts:37 | the temporary file is created empty, or truncated |
| `Download.FileSystem.Append` | download.ts:41 | a chunk is appended to the file |
| `Download.FileSystem.Rename` | download.ts:51 | the contents move to the new path and the old path is gone |
| `Download.FileSystem.Remove` | download.ts:55 | the path is gone, whether it existed or not |
| `Download.Pump` | download.ts:38-46 | every value read, including one that comes with done, is written in order to the partial file; a rejected read ends with its error |
| `Download.DownloadTo` | download.ts:30-60 | the new files and the result are DownloadEffect of the old files, the fetch outcome and the stream outcome |
| `Download.CachedDownload` | download.ts:18-28 | an existing artifact is read back with no fetch and no change; otherwise the cache folder is ensured, the download runs, and its error is rethrown or the artifact is read back |
| `Download.DownloadThenHit` | download.ts:18-28 | a first call fetches and returns the streamed bytes named after the key, with no partial file left; a second call fetches nothing and returns the same file |
| `Redirects.Chain` | utils.ts:7-16 | reference definition of requestFollowRedirects: at most one call per scripted reply, and a nonempty script makes a first call with the caller's request; its properties are the lemmas ChainConsumes, ChainEndsOnFinalResponse and ChainRequests |
| `Redirects.ChainFrom` | utils.ts:8-15 | the rest of the chain after a reply: at most one call per remaining reply, and none at all when the reply is not followed |
| `Redirects.ShouldFollow` | utils.ts:8-11 | follow exactly for 301/302 with exactly one location value; a 301/302 without a location entry throws |
| `Redirects.FollowUp` | utils.ts:12-14 | the follow-up request carries only the location as its url |
| `Redirects.ChainConsumes` | utils.ts:7-15 | each handler call uses one reply, in order; a returned response came after at least one call |
| `Redirects.ChainEndsOnFinalResponse` | utils.ts:8-16 | the response returned is never a 301/302 with exactly one location |
| `Redirects.ChainRequests` | utils.ts:7-14 | the first call gets the caller's request; each later call is the bare location of the previous reply, which was a followable redirect |
| `Redirects.FollowedExactlyWhen` | utils.ts:8-14 | a second request is made exactly when the first reply is a followable redirect |
| `Redirects.NotFollowedReturnsReply` | utils.ts:8-16 | a reply that is not followed is returned unchanged after one call |
| `Redirects.MissingLocationThrows` | utils.ts:10 | a 301/302 without a location entry makes the call throw |
| `Redirects.TwoHopChain` | utils.ts:7-16 | 301, 301, then 200 make three requests and return the 200 |
| `Redirects.AmbiguousLocationStops` | utils.ts:10 | a 301 with two location values is returned as it is |
| `Redirects.RequestFollowRedirects` | utils.ts:3-17 | the loop-and-recursion makes the calls, returns the result and leaves the replies that Chain does |
| `Decimal.NatToString` | playgroundHandler.js:39 | a port renders as a nonempty digit string without a leading zero |
| `Decimal.StringToNatOfNatToString` | playgroundHandler.js:39 | reading back the rendered port gives the port |
| `BootPlaygroundNode.IndexPropertiesAreIndices` | bootPlaygroundNode.ts:45 | spreading an array-like gives exactly the decimal indices below its length as keys, each holding the item at that index |
| `BootPlaygroundNode.Spread` | bootPlaygroundNode.ts:45-49 | spreading an object copies its properties; an array gives exactly its indices holding its items, a string exactly its indices holding its one-character strings; any other value gives nothing |
| `BootPlaygroundNode.BundlePassedOn` | bootPlaygroundNode.ts:41-42 | a blueprint bundle is compiled as it is |
| `BootPlaygroundNode.TopLevelPrecedence` | bootPlaygroundNode.ts:43-51 | the blueprint's own keys override login, and preferredVersions is always the merged object |
| `BootPlaygroundNode.PreferredVersionsPrecedence` | bootPlaygroundNode.ts:46-50 | the blueprint's preferredVersions entries win; otherwise php is `args.php ?? "8.2"` and wp is `args.wp ?? "latest"`, also when preferredVersions is a string or an array; when it is an object, no other key appears |
| `BootPlaygroundNode.PreferredVersions` | bootPlaygroundNode.ts:46-50 | reference definition of the merged preferredVersions: it always has a php and a wp entry; its precedence is the lemma PreferredVersionsPrecedence |
| `BootPlaygroundNode.MergeBlueprint` | bootPlaygroundNode.ts:41-51 | reference definition of the blueprint handed to compileBlueprint: a non-bundle always becomes an object with login and a preferredVersions object holding php and wp; its precedence is the lemmas BundlePassedOn and TopLevelPrecedence |
| `BootPlaygroundNode.DefaultVersions` | bootPlaygroundNode.ts:46-49 | a blueprint whose preferredVersions is missing or falsy gets exactly the argument or default versions |
| `BootPlaygroundNode.WorkerBootOptions` | bootPlaygroundNode.ts:85-97 | boot gets the compiled versions, the mount lists or empty lists, process ids from 0 over 2^53 - 1, "http://localhost", no zips, no symlinks, no trace |
| `BootPlaygroundNode.WorkerIdsCountUp` | bootPlaygroundNode.ts:93-94 | with these options the k-th runtime gets process id k for every k below 2^53 - 1 |
| `BootPlaygroundNode.Settle` | bootPlaygroundNode.ts:13-24 | one event: a settled promise stays as it is; a pending one is decided by the readiness message or an error, and ignores other messages |
| `BootPlaygroundNode.SpawnOutcome` | bootPlaygroundNode.ts:13-24 | reference fold over the worker's events: it resolves only if the readiness message arrived and rejects only with an error the worker emitted; its properties are the lemmas FirstDecisiveEventWins, SettledStaysSettled and ReadyOrErrorFirst |
| `BootPlaygroundNode.FirstDecisiveEventWins` | bootPlaygroundNode.ts:13-24 | the spawn is pending exactly until the readiness message or an error arrives; the first of these decides, resolve or reject with that error |
| `BootPlaygroundNode.SettledStaysSettled` | bootPlaygroundNode.ts:13-24 | once settled, later events change nothing |
| `BootPlaygroundNode.ReadyOrErrorFirst` | bootPlaygroundNode.ts:14-23 | other messages followed by the readiness message resolve; followed by an error they reject with it, whatever comes later |
| `PlaygroundHandler.BaseUrl` | playgroundHandler.js:38-39 | the base URL is the loopback prefix followed by the port's digits |
| `PlaygroundHandler.ParsePortOfBaseUrl` | playgroundHandler.js:39 | the port is read back from the base URL |
| `PlaygroundHandler.BaseUrlInjective` | playgroundHandler.js:39 | different ports give different base URLs |
| `PlaygroundHandler.Handler.Request` | playgroundHandler.js:45-47 | request(opts) passes opts unchanged to utils.js's request, with the handler's base URL |
| `PlaygroundHandler.ServerArguments` | playgroundHandler.js:17-30 | runCLI is asked for the "server" command with the parsed blueprint and the database and plugin mounts, in that order |
| `PlaygroundHandler.InitializeWpPlayground` | playgroundHandler.js:9-53 | reference definition of initializeWpPlayground: a fulfilled handler keeps the CLI's server and needs the blueprint and the CLI to succeed; a blueprint error rejects with that error; its properties are the lemmas InitializeFulfilledExactlyWhen, InitializeRethrows and RequestsReachTheServer |
| `PlaygroundHandler.InitializeFulfilledExactlyWhen` | playgroundHandler.js:9-53 | initialization fulfils exactly when the blueprint loads, the CLI starts and its server reports a port; the handler then keeps that server and targets that port |
| `PlaygroundHandler.InitializeRethrows` | playgroundHandler.js:49-52 | the blueprint's and the CLI's errors reject the promise as they are |
| `PlaygroundHandler.RequestsReachTheServer` | playgroundHandler.js:38-47 | every request of a fulfilled handler reaches utils.js's `request` with its options unchanged and a base URL naming the port the server reported |
| `PlaygroundHandler.Global.constructor` | playgroundHandler.js:7 | a fresh process has an empty slot |
| `PlaygroundHandler.Global.GetSingletonHandlerPromise` | playgroundHandler.js:55-63 | an empty slot is filled with a new initialization's promise and that is returned; a filled slot is returned unchanged with no new initialization |
| `PlaygroundHandler.LoadedTwice` | playgroundHandler.js:55-65 | two evaluations in one process get the first initialization's promise, even a rejected one, whatever the second would have met |

## Left out

- Everything asynchronous is sequential. An `await` is a step in order, and the settling of each awaited call (`fetch`, `reader.read()`, `isConnected()`, `bootWordPress`, `getPrimaryPhp`, `setPrimaryPHP`, `runCLI`) is an input. There is no interleaving and no concurrency.
- The worker and the main thread talk through comlink, `consumeAPI`, `exposeAPI` and `postMessage`. This is not modelled. The lock manager's connection is an input, and the worker's messages are the `WorkerEvent` sequence.
- `tracePhpWasm` is left out because it prints to the console. The model records only whether tracing is on.
- Console output is not modelled, nor is the one-second wait in `initializeWpPlayground`.
- `dispose` is not modelled.
- `ProcessIds.ProcessIdAllocator.Next` and the id lemmas (`ProcessIds.NextIdFollowsPrevious`, `ProcessIds.IdPeriodic` and the others): ids and lengths are unbounded integers. The source computes `lastProcessId` and `nextProcessId++` on IEEE doubles, which agree with the model only while ids stay integers with |`firstProcessId`| at most 2^53 and |`firstProcessId + processIdSpaceLength`| at most 2^53. Past that point the source loses the increment and the model does not. The one caller passes 0 and 2^53 - 1, where every value is exact (`BootPlaygroundNode.WorkerIdsCountUp`).
- `WorkerThread.NoRuntimesAfterBoot`: `createPhpRuntime` and its `nextProcessId` stay with the request handler that `bootWordPress` returns. Factory calls that handler makes after `boot` returns, for `getPrimaryPhp` or for later requests, would continue the same rotation. They are not modelled, and the model's allocator ends with `boot`.
- The PHP-WASM and WordPress libraries are abstract: `bootWordPress`, `loadNodeRuntime`, `createNodeFsMountHandler`, `compileBlueprint`, `isBlueprintBundle` and `runCLI`. The model records what is passed to them and takes what they return as input.
- `WorkerThread.Php.Mkdir`/`WorkerThread.Php.Mount`: the calls never fail in the model, and what a later mount on the same path does inside PHP is not modelled.
- `writer.closed` is read right after `close()` is called, before the stream can have closed, so the model always waits for `finish` or `error`. The case of a stream already closed at that point, where the source would return without renaming, is not modelled.
- `Download.FileSystem.EnsureDir`: does not create missing parent directories, and a path that is both a file and a directory is not ruled out. Paths are plain strings.
- `path.join` is modelled only for a folder without a trailing separator, and paths are not normalised. `CACHE_FOLDER` (which depends on the home directory) is a parameter.
- `fetchSqliteIntegration` is not modelled apart from `cachedDownload`, which it calls.
- `Download.DownloadTo`: a fetched response always has a body. A response whose `body` is null, for which `response.body!.getReader()` throws a TypeError before `.partial` is created, is not modelled.
- `Redirects.RequestFollowRedirects`: the handler is a finite script. A script that runs out gives `HandlerExhausted`, which stands for a handler that never answers. There is no hop limit, and neither does the source have one.
- A redirect whose `location` entry is not an array is not modelled; header values are sequences of strings.
- `BootPlaygroundNode.Spread`: JavaScript key order is not modelled, as properties are a map. Inherited and symbol properties are left out. Numbers are integers. A string is spread by Unicode scalar values, not by UTF-16 code units as JavaScript does, so a character outside the Basic Multilingual Plane gives one key where JavaScript gives two.
- `spawnPHPWorkerThread`'s worker path resolution and `new Worker` are not modelled. The `playground.isConnected()` and `playground.isReady()` waits that follow are not modelled either.
- The `wpVersion` boot option is carried from `bootPlaygroundNode` but has no effect: `boot` never reads it, and neither does the model.
- `PlaygroundHandler.InitializeWpPlayground`: reading and parsing `blueprint.json` is one input. `resolve` of the host paths is a parameter. A server address that is a pipe name is not modelled.
- `PlaygroundHandler.RequestsReachTheServer`: utils.js resolves the options' `url` against the base URL with `new URL(url, baseUrl)`. A relative url therefore goes to the reported port, but an absolute one (`http://example.com/x`, `//host/x`) ignores the base URL. The model stops at the call into utils.js and does not promise which host a request reaches.
- utils.js (the cookie-aware `request` the handler delegates to) is not part of this model. `index.js`, `index.ts`, `src/index.ts` and `src/playground.ts` are not modelled either.
