/** The WordPress Playground handler used by the tests: a promise, stored in one
    process-wide global slot, of a handler that knows the server's base URL and
    sends requests to it. */
module PlaygroundHandler {
  import opened Wrappers
  import Decimal
  import WorkerThread
  import BootPlaygroundNode
  import Redirects

  datatype Error = Thrown(message: string)

  /** The HTTP server started by the CLI; `address()` gives its port, or
      nothing when the server is not listening. */
  datatype Server = Server(address: Option<nat>)

  /** What `runCLI` resolves to. */
  datatype CliServer = CliServer(server: Server)

  /** The options passed to `runCLI`. */
  datatype CliArguments = CliArguments(command: string, blueprint: BootPlaygroundNode.JsValue, mount: seq<WorkerThread.Mount>)

  /** A call to `request(requestOptions, baseUrl)` from utils.js, whose body is not
      part of this model. */
  datatype OutgoingRequest = OutgoingRequest(options: Redirects.Request, baseUrl: string)

  datatype Handler = Handler(baseUrl: string, server: Server) {
    /** `async request(requestOptions)`: hand the options unchanged to utils.js's
        `request`, against the server's base URL. */
    function Request(opts: Redirects.Request): (call: OutgoingRequest)
      ensures call.options == opts
      ensures call.baseUrl == baseUrl
    {
      OutgoingRequest(opts, baseUrl)
    }
  }

  /** How the promise returned by `initializeWpPlayground()` settles. */
  datatype Promise = Fulfilled(handler: Handler) | Rejected(error: Error)

  const Host: string := "http://127.0.0.1:"

  /** `http://127.0.0.1:${address.port}` */
  function BaseUrl(port: nat): (url: string)
    ensures |url| > |Host| && url[..|Host|] == Host
    ensures Decimal.AllDigits(url[|Host|..])
  {
    Host + Decimal.NatToString(port)
  }

  /** The port named by a base URL of the form above, if it is one. */
  function ParsePort(url: string): Option<nat> {
    if |url| > |Host| && url[..|Host|] == Host && Decimal.AllDigits(url[|Host|..])
    then Some(Decimal.StringToNat(url[|Host|..]))
    else None
  }

  /** The port can be read back from the base URL. */
  lemma ParsePortOfBaseUrl(port: nat)
    ensures ParsePort(BaseUrl(port)) == Some(port)
  {
    var url := BaseUrl(port);
    assert url[|Host|..] == Decimal.NatToString(port);
    Decimal.StringToNatOfNatToString(port);
  }

  /** Different ports give different base URLs. */
  lemma BaseUrlInjective(p: nat, q: nat)
    requires BaseUrl(p) == BaseUrl(q)
    ensures p == q
  {
    ParsePortOfBaseUrl(p);
    ParsePortOfBaseUrl(q);
  }

  /** The two mounts the handler asks the CLI for, from the resolved host paths
      of `./database/` and `./wordpress/plugins/extended-user-info-rest.php`. */
  function ServerArguments(blueprint: BootPlaygroundNode.JsValue, databaseDir: string, pluginFile: string): (args: CliArguments)
    ensures args.command == "server" && args.blueprint == blueprint
    ensures |args.mount| == 2
    ensures args.mount[0].hostPath == databaseDir && args.mount[0].vfsPath == "/wordpress/wp-content/database/"
    ensures args.mount[1].hostPath == pluginFile &&
            args.mount[1].vfsPath == "/wordpress/wp-content/mu-plugins/extended-user-info-rest.php"
  {
    CliArguments("server", blueprint, [
      WorkerThread.Mount(databaseDir, "/wordpress/wp-content/database/"),
      WorkerThread.Mount(pluginFile, "/wordpress/wp-content/mu-plugins/extended-user-info-rest.php")])
  }

  /** `initializeWpPlayground()`: read and parse `./blueprint.json`, start the CLI
      server with `ServerArguments` of that blueprint (`cli` is how that call
      settles), read the port and build the handler. Any error rejects the
      promise with that error. */
  function InitializeWpPlayground(blueprint: Result<BootPlaygroundNode.JsValue, Error>, cli: Result<CliServer, Error>): (p: Promise)
    ensures p.Fulfilled? ==> blueprint.Success? && cli.Success? && p.handler.server == cli.value.server
    ensures blueprint.Failure? ==> p == Rejected(blueprint.error)
  {
    if blueprint.Failure? then Rejected(blueprint.error)
    else if cli.Failure? then Rejected(cli.error)
    else if cli.value.server.address.None? then Rejected(Thrown("Cannot read properties of null (reading 'port')"))
    else Fulfilled(Handler(BaseUrl(cli.value.server.address.value), cli.value.server))
  }

  /** The promise is fulfilled exactly when the blueprint loads, the CLI starts
      and its server reports a port; the handler then talks to that port on the
      loopback address, and keeps the CLI's server. */
  lemma InitializeFulfilledExactlyWhen(blueprint: Result<BootPlaygroundNode.JsValue, Error>, cli: Result<CliServer, Error>)
    ensures InitializeWpPlayground(blueprint, cli).Fulfilled? <==>
              blueprint.Success? && cli.Success? && cli.value.server.address.Some?
    ensures InitializeWpPlayground(blueprint, cli).Fulfilled? ==>
              var h := InitializeWpPlayground(blueprint, cli).handler;
              h.server == cli.value.server && ParsePort(h.baseUrl) == Some(cli.value.server.address.value)
  {
    if cli.Success? && cli.value.server.address.Some? {
      ParsePortOfBaseUrl(cli.value.server.address.value);
    }
  }

  /** The errors from reading the blueprint and from the CLI are rethrown as they are. */
  lemma InitializeRethrows(blueprint: Result<BootPlaygroundNode.JsValue, Error>, cli: Result<CliServer, Error>)
    ensures blueprint.Failure? ==> InitializeWpPlayground(blueprint, cli) == Rejected(blueprint.error)
    ensures blueprint.Success? && cli.Failure? ==> InitializeWpPlayground(blueprint, cli) == Rejected(cli.error)
  {
  }

  /** Every request the handler makes reaches utils.js's `request` with its options
      unchanged and a base URL that names the port the server reported. */
  lemma RequestsReachTheServer(blueprint: Result<BootPlaygroundNode.JsValue, Error>, cli: Result<CliServer, Error>, opts: Redirects.Request)
    requires InitializeWpPlayground(blueprint, cli).Fulfilled?
    ensures var call := InitializeWpPlayground(blueprint, cli).handler.Request(opts);
            call.options == opts && ParsePort(call.baseUrl) == cli.value.server.address
  {
    ParsePortOfBaseUrl(cli.value.server.address.value);
  }

  /** `globalThis`, as far as the handler uses it: the slot under the symbol
      `wp_playground_handler_promise`. */
  class Global {
    /** `globalThis[HANDLER_PROMISE_SYMBOL]`; a promise, fulfilled or rejected,
        is always truthy, so only an empty slot is falsy. */
    var handlerPromise: Option<Promise>
    /** How many times `initializeWpPlayground()` has been started. */
    ghost var initializations: nat

    ghost predicate Valid()
      reads this
    {
      initializations == if handlerPromise.None? then 0 else 1
    }

    /** A fresh process: the slot is empty. */
    constructor ()
      ensures Valid() && handlerPromise.None? && initializations == 0
    {
      handlerPromise := None;
      initializations := 0;
    }

    /** `getSingletonHandlerPromise()`: start the initialization when the slot is
        empty and store its promise; otherwise return the stored promise.
        `blueprint` and `cli` are what the initialization would meet if it
        were started now. */
    method GetSingletonHandlerPromise(blueprint: Result<BootPlaygroundNode.JsValue, Error>, cli: Result<CliServer, Error>)
      returns (p: Promise)
      requires Valid()
      modifies this
      ensures Valid()
      ensures old(handlerPromise).None? ==>
                p == InitializeWpPlayground(blueprint, cli) && handlerPromise == Some(p) && initializations == 1
      ensures old(handlerPromise).Some? ==>
                p == old(handlerPromise).value && handlerPromise == old(handlerPromise) &&
                initializations == old(initializations)
      ensures initializations <= old(initializations) + 1
    {
      if handlerPromise.None? {
        assert initializations == 0;
        handlerPromise := Some(InitializeWpPlayground(blueprint, cli));
        initializations := initializations + 1;
      }
      p := handlerPromise.value;
    }
  }

  /** The module evaluated twice in one process (`export const handlerPromise =
      getSingletonHandlerPromise()`), the second time in a world that may differ
      from the first: both get the first promise, even a rejected one. */
  method LoadedTwice(
    blueprint: Result<BootPlaygroundNode.JsValue, Error>, cli: Result<CliServer, Error>,
    laterBlueprint: Result<BootPlaygroundNode.JsValue, Error>, laterCli: Result<CliServer, Error>)
    returns (first: Promise, second: Promise)
    ensures first == InitializeWpPlayground(blueprint, cli)
    ensures second == first
  {
    var global := new Global();
    first := global.GetSingletonHandlerPromise(blueprint, cli);
    second := global.GetSingletonHandlerPromise(laterBlueprint, laterCli);
    assert global.initializations == 1;
  }
}
