/** The Playground CLI worker: the boot-once guard, the runtime factory with its
    rotating process ids, the two mount phases and the ready/error signal.

    Everything the worker does that can be observed from outside (the lock
    manager's connection, each runtime the factory creates, each `mkdir` and
    `mount` on a PHP instance, the handler and primary PHP it installs, and the
    readiness or error signal) is appended to one `Recorder` log, so that the
    order of these effects can be stated. The WordPress boot library is
    abstract: a `WordPressBootScript` says how often it calls the runtime factory,
    when it runs the `beforeWordPressFiles` hook, and how it ends. */
module WorkerThread {
  import opened Wrappers
  import opened ProcessIds

  /** A host directory or file bound at a path of PHP's virtual filesystem. */
  datatype Mount = Mount(hostPath: string, vfsPath: string)

  /** What `createNodeFsMountHandler(hostPath)` returns: a handler bound to the host path. */
  datatype MountHandler = NodeFsMountHandler(hostPath: string)

  /** The identity of a PHP instance that the WordPress boot library hands to the worker. */
  type PhpRef = nat

  datatype Error =
    | AlreadyBooted           // "Playground already booted"
    | Thrown(message: string) // anything an awaited library call rejects with

  /** The options of `PrimaryWorkerBootOptions` that the worker reads. */
  datatype PrimaryWorkerBootOptions = PrimaryWorkerBootOptions(
    wpVersion: Option<string>,
    phpVersion: Option<string>,
    absoluteUrl: string,
    mountsBeforeWpInstall: seq<Mount>,
    mountsAfterWpInstall: seq<Mount>,
    wordPressZip: Option<Bytes>,
    sqliteIntegrationPluginZip: Option<Bytes>,
    firstProcessId: int,
    processIdSpaceLength: int,
    dataSqlPath: Option<string>,
    followSymlinks: bool,
    trace: bool)

  /** A `File` built from a buffer and a name. */
  datatype NamedFile = NamedFile(contents: Bytes, name: string)

  /** The data arguments that `boot` hands to `bootWordPress`. */
  datatype WordPressBootConfig = WordPressBootConfig(
    siteUrl: string,
    wordPressZip: Option<NamedFile>,
    sqliteIntegrationPluginZip: Option<NamedFile>,
    sapiName: string,
    createFiles: map<string, string>,
    constants: map<string, bool>,
    phpIniEntries: map<string, string>,
    cookieStore: bool,
    dataSqlPath: Option<string>)

  /** The arguments of one `loadNodeRuntime` call made by the runtime factory. */
  datatype RuntimeOptions = RuntimeOptions(phpVersion: string, processId: int, trace: bool, followSymlinks: bool)

  datatype Event =
    | LockManagerConnected
    | WordPressBootStarted(config: WordPressBootConfig)
    | RuntimeCreated(options: RuntimeOptions)
    | Mkdir(php: PhpRef, path: string)
    | MountCall(php: PhpRef, path: string, handler: MountHandler)
    | RequestHandlerSet
    | PrimaryPhpSet(php: PhpRef)
    | ApiReady
    | ApiError(error: Error)

  /** One thing the WordPress boot library does with the worker's callbacks. */
  datatype WpStep =
    | CreatePhpRuntime                  // it calls `createPhpRuntime`
    | BeforeWordPressFiles(php: PhpRef) // it runs the `beforeWordPressFiles` hook on a PHP instance

  /** How the awaited calls after the library's callbacks end. */
  datatype WpBootOutcome =
    | WpBootFailed(error: Error)  // `bootWordPress` rejects
    | WpBooted(primaryPhp: Result<PhpRef, Error>, setPrimary: Outcome<Error>)
      // it resolves; then `getPrimaryPhp` and `setPrimaryPHP` resolve or reject

  datatype WordPressBootScript = WordPressBootScript(steps: seq<WpStep>, outcome: WpBootOutcome)

  const CaBundlePath := "/internal/shared/ca-bundle.crt"

  /** The PHP version the runtime factory loads: "8.0" when none is given. */
  function PhpVersionOf(o: PrimaryWorkerBootOptions): (v: string)
    ensures o.phpVersion.None? ==> v == "8.0"
    ensures o.phpVersion.Some? ==> v == o.phpVersion.value
  {
    o.phpVersion.GetOr("8.0")
  }

  /** `rootCertificates.join("\n")`. */
  function JoinLines(parts: seq<string>): string {
    if |parts| == 0 then "" else if |parts| == 1 then parts[0] else parts[0] + "\n" + JoinLines(parts[1..])
  }

  function ZipFile(buffer: Option<Bytes>, name: string): Option<NamedFile> {
    if buffer.Some? then Some(NamedFile(buffer.value, name)) else None
  }

  /** The configuration passed to `bootWordPress`. */
  function BootConfig(o: PrimaryWorkerBootOptions, rootCertificates: seq<string>): (c: WordPressBootConfig)
    ensures c.siteUrl == o.absoluteUrl && c.sapiName == "cli" && !c.cookieStore
    ensures "openssl.cafile" in c.phpIniEntries && c.phpIniEntries["openssl.cafile"] in c.createFiles
    ensures c.wordPressZip.Some? <==> o.wordPressZip.Some?
    ensures c.wordPressZip.Some? ==> c.wordPressZip.value == NamedFile(o.wordPressZip.value, "wordpress.zip")
    ensures c.sqliteIntegrationPluginZip.Some? <==> o.sqliteIntegrationPluginZip.Some?
    ensures c.sqliteIntegrationPluginZip.Some? ==>
              c.sqliteIntegrationPluginZip.value == NamedFile(o.sqliteIntegrationPluginZip.value, "sqlite-integration-plugin.zip")
  {
    WordPressBootConfig(
      o.absoluteUrl,
      ZipFile(o.wordPressZip, "wordpress.zip"),
      ZipFile(o.sqliteIntegrationPluginZip, "sqlite-integration-plugin.zip"),
      "cli",
      map[CaBundlePath := JoinLines(rootCertificates)],
      map["WP_DEBUG" := true, "WP_DEBUG_LOG" := true, "WP_DEBUG_DISPLAY" := false],
      map["openssl.cafile" := CaBundlePath, "allow_url_fopen" := "1", "disable_functions" := ""],
      false,
      o.dataSqlPath)
  }

  // ---------------------------------------------------------------------------
  // mountResources

  /** The calls `mountResources(php, mounts)` makes, in order. */
  function MountCalls(php: PhpRef, mounts: seq<Mount>): seq<Event> {
    if |mounts| == 0 then []
    else [Mkdir(php, mounts[0].vfsPath), MountCall(php, mounts[0].vfsPath, NodeFsMountHandler(mounts[0].hostPath))]
         + MountCalls(php, mounts[1..])
  }

  lemma {:induction false} MountCallsAppend(php: PhpRef, mounts: seq<Mount>, m: Mount)
    ensures MountCalls(php, mounts + [m]) ==
            MountCalls(php, mounts) + [Mkdir(php, m.vfsPath), MountCall(php, m.vfsPath, NodeFsMountHandler(m.hostPath))]
  {
    if |mounts| > 0 {
      assert (mounts + [m])[1..] == mounts[1..] + [m];
      MountCallsAppend(php, mounts[1..], m);
    }
  }

  /** Exactly two calls per mount, in list order: `mkdir(vfsPath)`, then
      `mount(vfsPath, handler(hostPath))`, all on the given PHP instance. */
  lemma {:induction false} MountCallsShape(php: PhpRef, mounts: seq<Mount>)
    ensures |MountCalls(php, mounts)| == 2 * |mounts|
    ensures forall i :: 0 <= i < |mounts| ==>
              MountCalls(php, mounts)[2 * i] == Mkdir(php, mounts[i].vfsPath) &&
              MountCalls(php, mounts)[2 * i + 1] == MountCall(php, mounts[i].vfsPath, NodeFsMountHandler(mounts[i].hostPath))
  {
    if |mounts| > 0 {
      MountCallsShape(php, mounts[1..]);
      var rest := MountCalls(php, mounts[1..]);
      forall i | 0 < i < |mounts|
        ensures MountCalls(php, mounts)[2 * i] == Mkdir(php, mounts[i].vfsPath)
        ensures MountCalls(php, mounts)[2 * i + 1] == MountCall(php, mounts[i].vfsPath, NodeFsMountHandler(mounts[i].hostPath))
      {
        assert MountCalls(php, mounts)[2 * i] == rest[2 * (i - 1)];
        assert MountCalls(php, mounts)[2 * i + 1] == rest[2 * (i - 1) + 1];
      }
    }
  }

  /** Only `mkdir` and `mount` calls on `php`, only at the mounts' virtual paths. */
  lemma {:induction false} MountCallsTargets(php: PhpRef, mounts: seq<Mount>, e: Event)
    requires e in MountCalls(php, mounts)
    ensures e.Mkdir? || e.MountCall?
    ensures e.php == php
    ensures exists m :: m in mounts && e.path == m.vfsPath
  {
    if |mounts| > 0 {
      if e in MountCalls(php, mounts[1..]) {
        MountCallsTargets(php, mounts[1..], e);
        var m :| m in mounts[1..] && e.path == m.vfsPath;
        assert m in mounts;
      } else {
        assert mounts[0] in mounts;
      }
    }
  }

  // ---------------------------------------------------------------------------
  // The runtime factory and the library's callbacks

  /** How many factory calls a prefix of the library's steps makes. */
  function CreatedCount(steps: seq<WpStep>): nat {
    if |steps| == 0 then 0
    else CreatedCount(steps[..|steps| - 1]) + (if steps[|steps| - 1].CreatePhpRuntime? then 1 else 0)
  }

  /** The effects of one library step, given how many runtimes were created before it. */
  function StepTrace(o: PrimaryWorkerBootOptions, step: WpStep, created: nat): seq<Event> {
    match step
    case CreatePhpRuntime =>
      [RuntimeCreated(RuntimeOptions(PhpVersionOf(o), IdAt(o.firstProcessId, o.processIdSpaceLength, created),
                                     o.trace, o.followSymlinks))]
    case BeforeWordPressFiles(php) => MountCalls(php, o.mountsBeforeWpInstall)
  }

  /** The effects of the library's steps, in order. */
  function StepsTrace(o: PrimaryWorkerBootOptions, steps: seq<WpStep>): seq<Event> {
    if |steps| == 0 then []
    else StepsTrace(o, steps[..|steps| - 1]) + StepTrace(o, steps[|steps| - 1], CreatedCount(steps[..|steps| - 1]))
  }

  lemma AppendAssociates(a: seq<Event>, b: seq<Event>, c: seq<Event>)
    ensures (a + b) + c == a + (b + c)
  {
  }

  /** One more library step extends the trace by that step's effects. */
  lemma StepsTraceSnoc(o: PrimaryWorkerBootOptions, steps: seq<WpStep>, i: nat)
    requires i < |steps|
    ensures StepsTrace(o, steps[..i + 1]) == StepsTrace(o, steps[..i]) + StepTrace(o, steps[i], CreatedCount(steps[..i]))
    ensures CreatedCount(steps[..i + 1]) == CreatedCount(steps[..i]) + (if steps[i].CreatePhpRuntime? then 1 else 0)
  {
    assert steps[..i + 1][..i] == steps[..i];
  }

  /** The process ids of the runtimes created in a log, in order. */
  function RuntimeIds(events: seq<Event>): seq<int> {
    if |events| == 0 then []
    else RuntimeIds(events[..|events| - 1])
         + (if events[|events| - 1].RuntimeCreated? then [events[|events| - 1].options.processId] else [])
  }

  lemma {:induction false} RuntimeIdsConcat(a: seq<Event>, b: seq<Event>)
    ensures RuntimeIds(a + b) == RuntimeIds(a) + RuntimeIds(b)
    decreases |b|
  {
    if |b| == 0 {
      assert a + b == a;
    } else {
      assert (a + b)[..|a + b| - 1] == a + b[..|b| - 1];
      assert (a + b)[|a + b| - 1] == b[|b| - 1];
      RuntimeIdsConcat(a, b[..|b| - 1]);
    }
  }

  /** A log without runtime creations has no process ids. */
  lemma {:induction false} RuntimeIdsNone(events: seq<Event>)
    requires forall i :: 0 <= i < |events| ==> !events[i].RuntimeCreated?
    ensures RuntimeIds(events) == []
  {
    if |events| > 0 {
      RuntimeIdsNone(events[..|events| - 1]);
    }
  }

  lemma NoRuntimesInMountCalls(php: PhpRef, mounts: seq<Mount>)
    ensures RuntimeIds(MountCalls(php, mounts)) == []
  {
    var calls := MountCalls(php, mounts);
    forall i | 0 <= i < |calls| ensures !calls[i].RuntimeCreated? {
      MountCallsTargets(php, mounts, calls[i]);
    }
    RuntimeIdsNone(calls);
  }

  /** The n-th runtime the factory creates gets the n-th id of the cyclic allocator. */
  lemma {:induction false} StepsRuntimeIds(o: PrimaryWorkerBootOptions, steps: seq<WpStep>)
    ensures |RuntimeIds(StepsTrace(o, steps))| == CreatedCount(steps)
    ensures forall k :: 0 <= k < CreatedCount(steps) ==>
              RuntimeIds(StepsTrace(o, steps))[k] == IdAt(o.firstProcessId, o.processIdSpaceLength, k)
  {
    if |steps| > 0 {
      var init, last := steps[..|steps| - 1], steps[|steps| - 1];
      StepsRuntimeIds(o, init);
      RuntimeIdsConcat(StepsTrace(o, init), StepTrace(o, last, CreatedCount(init)));
      if last.BeforeWordPressFiles? {
        NoRuntimesInMountCalls(last.php, o.mountsBeforeWpInstall);
      } else {
        assert RuntimeIds(StepTrace(o, last, CreatedCount(init))) ==
               [IdAt(o.firstProcessId, o.processIdSpaceLength, CreatedCount(init))];
      }
    }
  }

  /** Within the library's steps, every `mkdir`/`mount` comes from the
      `beforeWordPressFiles` hook: it targets a PHP instance the hook received
      and a pre-install virtual path; and no readiness or error is signalled there. */
  lemma {:induction false} StepsOnlyMountPreInstall(o: PrimaryWorkerBootOptions, steps: seq<WpStep>, e: Event)
    requires e in StepsTrace(o, steps)
    ensures e.RuntimeCreated? || e.Mkdir? || e.MountCall?
    ensures (e.Mkdir? || e.MountCall?) ==>
              BeforeWordPressFiles(e.php) in steps &&
              exists m :: m in o.mountsBeforeWpInstall && e.path == m.vfsPath
  {
    if |steps| > 0 {
      var init, last := steps[..|steps| - 1], steps[|steps| - 1];
      assert steps == init + [last];
      if e in StepsTrace(o, init) {
        StepsOnlyMountPreInstall(o, init, e);
      } else if last.BeforeWordPressFiles? {
        MountCallsTargets(last.php, o.mountsBeforeWpInstall, e);
      }
    }
  }

  // ---------------------------------------------------------------------------
  // The whole boot

  /** The effects after `bootWordPress` has returned or thrown. */
  function AfterBootTrace(o: PrimaryWorkerBootOptions, outcome: WpBootOutcome): seq<Event> {
    match outcome
    case WpBootFailed(e) => [ApiError(e)]
    case WpBooted(primary, setPrimary) =>
      [RequestHandlerSet] +
      match primary
      case Failure(e) => [ApiError(e)]
      case Success(php) =>
        match setPrimary
        case Fail(e) => [ApiError(e)]
        case Pass => [PrimaryPhpSet(php)] + MountCalls(php, o.mountsAfterWpInstall) + [ApiReady]
  }

  /** The effects of a first `boot` call. */
  function BootTrace(o: PrimaryWorkerBootOptions, rootCertificates: seq<string>, lock: Outcome<Error>,
                     wp: WordPressBootScript): (t: seq<Event>)
    ensures t == [] <==> lock.Fail?
    ensures lock.Pass? ==> |t| >= 2 && t[0] == LockManagerConnected
  {
    match lock
    case Fail(_) => []
    case Pass =>
      [LockManagerConnected, WordPressBootStarted(BootConfig(o, rootCertificates))]
      + StepsTrace(o, wp.steps) + AfterBootTrace(o, wp.outcome)
  }

  /** How a first `boot` call ends. */
  function BootResult(lock: Outcome<Error>, wp: WordPressBootScript): (r: Outcome<Error>)
    ensures r == Pass <==> lock.Pass? && wp.outcome.WpBooted? && wp.outcome.primaryPhp.Success? && wp.outcome.setPrimary.Pass?
    ensures lock.Fail? ==> r == lock
  {
    if lock.Fail? then lock
    else match wp.outcome
      case WpBootFailed(e) => Fail(e)
      case WpBooted(primary, setPrimary) =>
        if primary.Failure? then Fail(primary.error)
        else if setPrimary.Fail? then setPrimary
        else Pass
  }

  lemma NoSignalInMountCalls(php: PhpRef, mounts: seq<Mount>)
    ensures ApiReady !in MountCalls(php, mounts)
    ensures forall e :: ApiError(e) !in MountCalls(php, mounts)
  {
    if ApiReady in MountCalls(php, mounts) {
      MountCallsTargets(php, mounts, ApiReady);
    }
    forall e | ApiError(e) in MountCalls(php, mounts) ensures false {
      MountCallsTargets(php, mounts, ApiError(e));
    }
  }

  lemma NoSignalInSteps(o: PrimaryWorkerBootOptions, steps: seq<WpStep>)
    ensures ApiReady !in StepsTrace(o, steps)
    ensures forall e :: ApiError(e) !in StepsTrace(o, steps)
  {
    if ApiReady in StepsTrace(o, steps) {
      StepsOnlyMountPreInstall(o, steps, ApiReady);
    }
    forall e | ApiError(e) in StepsTrace(o, steps) ensures false {
      StepsOnlyMountPreInstall(o, steps, ApiError(e));
    }
  }

  /** `setApiReady` is called exactly when the boot succeeds, once, as the very
      last effect, right after the post-install mounts were applied to the primary
      PHP that `setPrimaryPHP` installed. */
  lemma ReadyExactlyOnSuccess(o: PrimaryWorkerBootOptions, certs: seq<string>, lock: Outcome<Error>,
                              wp: WordPressBootScript)
    ensures ApiReady in BootTrace(o, certs, lock, wp) <==> BootResult(lock, wp) == Pass
    ensures BootResult(lock, wp) == Pass ==>
              var t := BootTrace(o, certs, lock, wp);
              var php := wp.outcome.primaryPhp.value;
              var post := MountCalls(php, o.mountsAfterWpInstall);
              |t| >= |post| + 2 &&
              t[|t| - 1] == ApiReady &&
              ApiReady !in t[..|t| - 1] &&
              t[|t| - 1 - |post| ..|t| - 1] == post &&
              t[|t| - 2 - |post|] == PrimaryPhpSet(php)
  {
    NoSignalInSteps(o, wp.steps);
    if lock.Pass? && wp.outcome.WpBooted? && wp.outcome.primaryPhp.Success? && wp.outcome.setPrimary.Pass? {
      var php := wp.outcome.primaryPhp.value;
      NoSignalInMountCalls(php, o.mountsAfterWpInstall);
      var t := BootTrace(o, certs, lock, wp);
      var post := MountCalls(php, o.mountsAfterWpInstall);
      var head := [LockManagerConnected, WordPressBootStarted(BootConfig(o, certs))] + StepsTrace(o, wp.steps);
      assert t == head + [RequestHandlerSet, PrimaryPhpSet(php)] + post + [ApiReady];
      assert t[..|t| - 1] == head + [RequestHandlerSet, PrimaryPhpSet(php)] + post;
    }
  }

  /** A failure after the lock manager connected signals `setAPIError` with the
      very error that `boot` rethrows, as the last effect, and never `setApiReady`;
      and since the post-install mounts wait for `setPrimaryPHP`, none is applied
      after `bootWordPress` settles. */
  lemma ErrorSignalledAndRethrown(o: PrimaryWorkerBootOptions, certs: seq<string>, lock: Outcome<Error>,
                                  wp: WordPressBootScript)
    requires lock.Pass? && BootResult(lock, wp).Fail?
    ensures var t := BootTrace(o, certs, lock, wp);
            |t| > 0 && t[|t| - 1] == ApiError(BootResult(lock, wp).error) &&
            ApiReady !in t &&
            forall e :: ApiError(e) !in t[..|t| - 1]
    ensures forall e :: e in AfterBootTrace(o, wp.outcome) ==> !e.Mkdir? && !e.MountCall?
  {
    NoSignalInSteps(o, wp.steps);
    var t := BootTrace(o, certs, lock, wp);
    var head := [LockManagerConnected, WordPressBootStarted(BootConfig(o, certs))] + StepsTrace(o, wp.steps);
    var tail := AfterBootTrace(o, wp.outcome);
    assert t == head + tail;
    assert t[..|t| - 1] == head + tail[..|tail| - 1];
  }

  /** A lock manager that fails to connect makes `boot` throw its error with no
      other effect: no runtime, no mount, no `setAPIError`. */
  lemma LockFailureIsSilent(o: PrimaryWorkerBootOptions, certs: seq<string>, lock: Outcome<Error>,
                            wp: WordPressBootScript)
    requires lock.Fail?
    ensures BootTrace(o, certs, lock, wp) == [] && BootResult(lock, wp) == lock
  {
  }

  /** The lock manager is connected before `bootWordPress` starts, hence before
      any runtime is created and any mount is applied. */
  lemma LockManagerFirst(o: PrimaryWorkerBootOptions, certs: seq<string>, lock: Outcome<Error>,
                         wp: WordPressBootScript)
    requires BootTrace(o, certs, lock, wp) != []
    ensures BootTrace(o, certs, lock, wp)[0] == LockManagerConnected
    ensures BootTrace(o, certs, lock, wp)[1] == WordPressBootStarted(BootConfig(o, certs))
    ensures LockManagerConnected !in BootTrace(o, certs, lock, wp)[1..]
  {
    var t := BootTrace(o, certs, lock, wp);
    var steps := StepsTrace(o, wp.steps);
    var tail := AfterBootTrace(o, wp.outcome);
    assert t[1..] == [WordPressBootStarted(BootConfig(o, certs))] + steps + tail;
    if LockManagerConnected in steps {
      StepsOnlyMountPreInstall(o, wp.steps, LockManagerConnected);
    }
    if wp.outcome.WpBooted? && wp.outcome.primaryPhp.Success? && wp.outcome.setPrimary.Pass? {
      var php := wp.outcome.primaryPhp.value;
      if LockManagerConnected in MountCalls(php, o.mountsAfterWpInstall) {
        MountCallsTargets(php, o.mountsAfterWpInstall, LockManagerConnected);
      }
      assert tail == [RequestHandlerSet, PrimaryPhpSet(php)] + MountCalls(php, o.mountsAfterWpInstall) + [ApiReady];
    }
  }

  /** The worker's own code after `bootWordPress` settles makes no factory call. */
  lemma NoRuntimesAfterBoot(o: PrimaryWorkerBootOptions, outcome: WpBootOutcome)
    ensures RuntimeIds(AfterBootTrace(o, outcome)) == []
  {
    var tail := AfterBootTrace(o, outcome);
    if outcome.WpBooted? && outcome.primaryPhp.Success? && outcome.setPrimary.Pass? {
      var php := outcome.primaryPhp.value;
      var post := MountCalls(php, o.mountsAfterWpInstall);
      assert tail == [RequestHandlerSet, PrimaryPhpSet(php)] + post + [ApiReady];
      forall i | 0 <= i < |tail| ensures !tail[i].RuntimeCreated? {
        if 2 <= i < 2 + |post| {
          assert tail[i] == post[i - 2];
          MountCallsTargets(php, o.mountsAfterWpInstall, post[i - 2]);
        }
      }
    }
    RuntimeIdsNone(tail);
  }

  /** The runtimes of a boot get the ids of the cyclic allocator, in order. */
  lemma BootRuntimeIds(o: PrimaryWorkerBootOptions, certs: seq<string>, lock: Outcome<Error>,
                       wp: WordPressBootScript)
    requires lock.Pass?
    ensures RuntimeIds(BootTrace(o, certs, lock, wp)) == RuntimeIds(StepsTrace(o, wp.steps))
  {
    var head := [LockManagerConnected, WordPressBootStarted(BootConfig(o, certs))];
    var steps := StepsTrace(o, wp.steps);
    var tail := AfterBootTrace(o, wp.outcome);
    assert BootTrace(o, certs, lock, wp) == (head + steps) + tail;
    NoRuntimesAfterBoot(o, wp.outcome);
    RuntimeIdsNone(head);
    RuntimeIdsConcat(head + steps, tail);
    RuntimeIdsConcat(head, steps);
  }

  /** The k-th runtime a boot creates gets the k-th id of the cyclic allocator. */
  lemma BootRuntimeIdAt(o: PrimaryWorkerBootOptions, certs: seq<string>, lock: Outcome<Error>,
                        wp: WordPressBootScript, k: nat)
    requires lock.Pass? && k < CreatedCount(wp.steps)
    ensures |RuntimeIds(BootTrace(o, certs, lock, wp))| == CreatedCount(wp.steps)
    ensures RuntimeIds(BootTrace(o, certs, lock, wp))[k] == IdAt(o.firstProcessId, o.processIdSpaceLength, k)
  {
    BootRuntimeIds(o, certs, lock, wp);
    StepsRuntimeIds(o, wp.steps);
  }

  // ---------------------------------------------------------------------------
  // Objects

  /** The observable world of the worker: every effect, in order. */
  class Recorder {
    var events: seq<Event>

    constructor ()
      ensures events == []
    {
      events := [];
    }
  }

  /** A PHP instance, abstract except for the `mkdir` and `mount` calls made on it. */
  class Php {
    const ref: PhpRef
    const recorder: Recorder

    constructor (ref: PhpRef, recorder: Recorder)
      ensures this.ref == ref && this.recorder == recorder
    {
      this.ref := ref;
      this.recorder := recorder;
    }

    method Mkdir(path: string)
      modifies recorder
      ensures recorder.events == old(recorder.events) + [Event.Mkdir(ref, path)]
    {
      recorder.events := recorder.events + [Event.Mkdir(ref, path)];
    }

    method Mount(path: string, handler: MountHandler)
      modifies recorder
      ensures recorder.events == old(recorder.events) + [MountCall(ref, path, handler)]
    {
      recorder.events := recorder.events + [MountCall(ref, path, handler)];
    }
  }

  /** `mountResources(php, mounts)`. */
  method MountResources(php: Php, mounts: seq<Mount>)
    modifies php.recorder
    ensures php.recorder.events == old(php.recorder.events) + MountCalls(php.ref, mounts)
  {
    for i := 0 to |mounts|
      invariant php.recorder.events == old(php.recorder.events) + MountCalls(php.ref, mounts[..i])
    {
      php.Mkdir(mounts[i].vfsPath);
      php.Mount(mounts[i].vfsPath, NodeFsMountHandler(mounts[i].hostPath));
      MountCallsAppend(php.ref, mounts[..i], mounts[i]);
      assert mounts[..i + 1] == mounts[..i] + [mounts[i]];
    }
    assert mounts[..|mounts|] == mounts;
  }

  class PlaygroundCliWorker {
    var booted: bool
    const recorder: Recorder

    constructor (recorder: Recorder)
      ensures !booted && this.recorder == recorder
    {
      booted := false;
      this.recorder := recorder;
    }

    /** `boot(options)`. `rootCertificates` stands for the host's TLS root
        certificates, `lock` for how `fileLockManager.isConnected()` settles and
        `wp` for what `bootWordPress` does. */
    method Boot(o: PrimaryWorkerBootOptions, rootCertificates: seq<string>, lock: Outcome<Error>,
                wp: WordPressBootScript) returns (r: Outcome<Error>)
      modifies this, recorder
      ensures booted
      ensures old(booted) ==> r == Fail(AlreadyBooted) && recorder.events == old(recorder.events)
      ensures !old(booted) ==>
                r == BootResult(lock, wp) &&
                recorder.events == old(recorder.events) + BootTrace(o, rootCertificates, lock, wp)
    {
      if booted {
        return Fail(AlreadyBooted);
      }
      booted := true;
      if lock.Fail? {
        return lock;
      }
      r := BootConnected(o, rootCertificates, wp);
    }

    /** The part of `boot` after the lock manager has connected. */
    method BootConnected(o: PrimaryWorkerBootOptions, rootCertificates: seq<string>, wp: WordPressBootScript)
      returns (r: Outcome<Error>)
      modifies recorder
      ensures r == BootResult(Pass, wp)
      ensures recorder.events == old(recorder.events) + BootTrace(o, rootCertificates, Pass, wp)
    {
      var allocator := new ProcessIdAllocator(o.firstProcessId, o.processIdSpaceLength);
      var header := [LockManagerConnected, WordPressBootStarted(BootConfig(o, rootCertificates))];
      ghost var before := recorder.events;
      ghost var steps := StepsTrace(o, wp.steps);
      ghost var after := AfterBootTrace(o, wp.outcome);
      recorder.events := recorder.events + header;
      RunLibrary(o, wp.steps, allocator);
      assert recorder.events == before + header + steps;
      r := Finish(o, wp.outcome);
      assert BootTrace(o, rootCertificates, Pass, wp) == header + steps + after;
      AppendAssociates(before, header + steps, after);
      AppendAssociates(before, header, steps);
      assert BootResult(Pass, wp) == BootResult(Pass, WordPressBootScript([], wp.outcome));
    }

    /** The calls that the WordPress boot library makes into the callbacks, in order. */
    method RunLibrary(o: PrimaryWorkerBootOptions, steps: seq<WpStep>, allocator: ProcessIdAllocator)
      requires allocator.Valid() && allocator.issued == 0
      requires allocator.first == o.firstProcessId && allocator.length == o.processIdSpaceLength
      modifies recorder, allocator
      ensures recorder.events == old(recorder.events) + StepsTrace(o, steps)
    {
      var i := 0;
      while i < |steps|
        invariant 0 <= i <= |steps|
        invariant allocator.Valid() && allocator.first == o.firstProcessId
        invariant allocator.length == o.processIdSpaceLength && allocator.issued == CreatedCount(steps[..i])
        invariant recorder.events == old(recorder.events) + StepsTrace(o, steps[..i])
      {
        StepsTraceSnoc(o, steps, i);
        Callback(o, steps[i], allocator);
        AppendAssociates(old(recorder.events), StepsTrace(o, steps[..i]), StepTrace(o, steps[i], CreatedCount(steps[..i])));
        i := i + 1;
      }
      assert steps[..|steps|] == steps;
    }

    /** One call the WordPress boot library makes into the callbacks that `boot`
        gives it: the `createPhpRuntime` factory, which takes the next process id,
        or the `beforeWordPressFiles` hook, which applies the pre-install mounts. */
    method Callback(o: PrimaryWorkerBootOptions, step: WpStep, allocator: ProcessIdAllocator)
      requires allocator.Valid()
      requires allocator.first == o.firstProcessId && allocator.length == o.processIdSpaceLength
      modifies recorder, allocator
      ensures allocator.Valid() && allocator.first == o.firstProcessId && allocator.length == o.processIdSpaceLength
      ensures allocator.issued == old(allocator.issued) + (if step.CreatePhpRuntime? then 1 else 0)
      ensures recorder.events == old(recorder.events) + StepTrace(o, step, old(allocator.issued))
    {
      match step
      case CreatePhpRuntime =>
        var processId := allocator.Next();
        var options := RuntimeOptions(PhpVersionOf(o), processId, o.trace, o.followSymlinks);
        recorder.events := recorder.events + [RuntimeCreated(options)];
      case BeforeWordPressFiles(ref) =>
        var php := new Php(ref, recorder);
        MountResources(php, o.mountsBeforeWpInstall);
    }

    /** The part of `boot` after `bootWordPress` settles: install the request
        handler and the primary PHP, apply the post-install mounts, then signal
        readiness; or signal the error that the caller then rethrows. */
    method Finish(o: PrimaryWorkerBootOptions, outcome: WpBootOutcome) returns (r: Outcome<Error>)
      modifies recorder
      ensures r == BootResult(Pass, WordPressBootScript([], outcome))
      ensures recorder.events == old(recorder.events) + AfterBootTrace(o, outcome)
    {
      match outcome
      case WpBootFailed(e) =>
        recorder.events := recorder.events + [ApiError(e)];
        return Fail(e);
      case WpBooted(primary, setPrimary) =>
        recorder.events := recorder.events + [RequestHandlerSet];
        if primary.Failure? {
          recorder.events := recorder.events + [ApiError(primary.error)];
          return Fail(primary.error);
        }
        if setPrimary.Fail? {
          recorder.events := recorder.events + [ApiError(setPrimary.error)];
          return setPrimary;
        }
        recorder.events := recorder.events + [PrimaryPhpSet(primary.value)];
        var primaryPhp := new Php(primary.value, recorder);
        MountResources(primaryPhp, o.mountsAfterWpInstall);
        recorder.events := recorder.events + [ApiReady];
        return Pass;
    }
  }

  /** A second `boot` on the same worker throws "Playground already booted" and
      has no effect, whether the first boot succeeded or failed. */
  method BootTwice(o1: PrimaryWorkerBootOptions, o2: PrimaryWorkerBootOptions, certs: seq<string>,
                   lock1: Outcome<Error>, lock2: Outcome<Error>,
                   wp1: WordPressBootScript, wp2: WordPressBootScript)
    returns (first: Outcome<Error>, second: Outcome<Error>, events: seq<Event>)
    ensures first == BootResult(lock1, wp1)
    ensures second == Fail(AlreadyBooted)
    ensures events == BootTrace(o1, certs, lock1, wp1)
  {
    var recorder := new Recorder();
    var worker := new PlaygroundCliWorker(recorder);
    first := worker.Boot(o1, certs, lock1, wp1);
    second := worker.Boot(o2, certs, lock2, wp2);
    events := recorder.events;
  }
}
