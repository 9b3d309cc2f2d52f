/** `bootPlaygroundNode(args)`: the blueprint it hands to `compileBlueprint`,
    the options it hands to the worker's `boot`, and the outcome of
    `spawnPHPWorkerThread` as a fold over the events the worker emits.

    Blueprint values are JavaScript values (`JsValue`); the object spreads and
    the `??` and `||` operators are modelled with JavaScript's own rules for
    nullish and falsy values. */
module BootPlaygroundNode {
  import opened Wrappers
  import Decimal
  import opened ProcessIds
  import opened WorkerThread

  /** A JavaScript value, with integers for numbers. */
  datatype JsValue =
    | Undefined
    | Null
    | Bool(b: bool)
    | Num(n: int)
    | Str(s: string)
    | Arr(items: seq<JsValue>)
    | Obj(fields: map<string, JsValue>)

  predicate IsNullish(v: JsValue) {
    v.Undefined? || v.Null?
  }

  predicate IsTruthy(v: JsValue) {
    match v
    case Undefined => false
    case Null => false
    case Bool(b) => b
    case Num(n) => n != 0
    case Str(s) => s != ""
    case Arr(_) => true
    case Obj(_) => true
  }

  /** `a ?? b` */
  function Coalesce(a: JsValue, b: JsValue): JsValue {
    if IsNullish(a) then b else a
  }

  /** `a || b` */
  function Or(a: JsValue, b: JsValue): JsValue {
    if IsTruthy(a) then a else b
  }

  /** `v?.key` for an own data property. */
  function OptionalGet(v: JsValue, key: string): JsValue {
    if v.Obj? && key in v.fields then v.fields[key] else Undefined
  }

  /** The decimal indices below n, as property keys. */
  function IndexKeys(n: nat): set<string> {
    set i | 0 <= i < n :: Decimal.NatToString(i)
  }

  /** The own properties an array-like value spreads. */
  function IndexProperties(items: seq<JsValue>): map<string, JsValue> {
    if |items| == 0 then map[]
    else IndexProperties(items[..|items| - 1])[Decimal.NatToString(|items| - 1) := items[|items| - 1]]
  }

  /** An array-like value spreads exactly its indices, each holding the item at
      that index; in particular every key is a digit string. */
  lemma IndexPropertiesAreIndices(items: seq<JsValue>)
    ensures IndexProperties(items).Keys == IndexKeys(|items|)
    ensures forall i :: 0 <= i < |items| ==> IndexProperties(items)[Decimal.NatToString(i)] == items[i]
    ensures forall k :: k in IndexProperties(items) ==> Decimal.AllDigits(k)
  {
    IndexPropertiesKeys(items);
    IndexPropertiesValues(items);
  }

  lemma {:induction false} IndexPropertiesKeys(items: seq<JsValue>)
    ensures IndexProperties(items).Keys == IndexKeys(|items|)
  {
    if |items| > 0 {
      IndexPropertiesKeys(items[..|items| - 1]);
      IndexKeysStep(|items| - 1);
    }
  }

  lemma {:induction false} IndexPropertiesValues(items: seq<JsValue>)
    ensures forall i :: 0 <= i < |items| ==> Decimal.NatToString(i) in IndexProperties(items) &&
                                             IndexProperties(items)[Decimal.NatToString(i)] == items[i]
  {
    if |items| > 0 {
      var n := |items| - 1;
      var init := items[..n];
      IndexPropertiesValues(init);
      FreshIndex(n);
      forall i | 0 <= i < n
        ensures IndexProperties(items)[Decimal.NatToString(i)] == items[i]
      {
        assert init[i] == items[i];
      }
    }
  }

  /** One more index adds its own key. */
  lemma IndexKeysStep(n: nat)
    ensures IndexKeys(n + 1) == IndexKeys(n) + {Decimal.NatToString(n)}
  {
    forall k | k in IndexKeys(n + 1) ensures k in IndexKeys(n) + {Decimal.NatToString(n)} {
      var i :| 0 <= i < n + 1 && k == Decimal.NatToString(i);
      if i < n {
        assert k in IndexKeys(n);
      }
    }
  }

  /** The key of index n is not the key of any earlier index. */
  lemma FreshIndex(n: nat)
    ensures forall i :: 0 <= i < n ==> Decimal.NatToString(i) != Decimal.NatToString(n)
  {
    forall i | 0 <= i < n ensures Decimal.NatToString(i) != Decimal.NatToString(n) {
      if Decimal.NatToString(i) == Decimal.NatToString(n) {
        Decimal.NatToStringInjective(i, n);
      }
    }
  }

  /** The items a string spreads: one single-character string per character. */
  function Characters(s: string): seq<JsValue> {
    seq(|s|, i requires 0 <= i < |s| => Str([s[i]]))
  }

  /** The properties `...v` copies into an object literal: an object's own
      properties, the indices of a string or an array, and nothing for any
      other value (including `undefined` and `null`). */
  function Spread(v: JsValue): (m: map<string, JsValue>)
    ensures v.Obj? ==> m == v.fields
    ensures v.Arr? ==> m.Keys == IndexKeys(|v.items|) &&
                       forall i :: 0 <= i < |v.items| ==> m[Decimal.NatToString(i)] == v.items[i]
    ensures v.Str? ==> m.Keys == IndexKeys(|v.s|) &&
                       forall i :: 0 <= i < |v.s| ==> m[Decimal.NatToString(i)] == Str([v.s[i]])
    ensures !v.Obj? ==> forall k :: k in m ==> Decimal.AllDigits(k)
    ensures !(v.Obj? || v.Arr? || v.Str?) ==> m == map[]
  {
    match v
    case Obj(fields) => fields
    case Arr(items) => IndexPropertiesAreIndices(items); IndexProperties(items)
    case Str(s) => IndexPropertiesAreIndices(Characters(s)); IndexProperties(Characters(s))
    case _ => map[]
  }

  /** The arguments of `bootPlaygroundNode` that the modelled part reads. */
  datatype BootPlaygroundNodeArgs = BootPlaygroundNodeArgs(
    blueprint: JsValue,
    login: JsValue,
    php: JsValue,
    wp: JsValue,
    mountBeforeInstall: Option<seq<Mount>>,
    mount: Option<seq<Mount>>)

  /** The merged `preferredVersions`: defaults from the arguments, then the
      blueprint's own entries on top. */
  function PreferredVersions(args: BootPlaygroundNodeArgs): (m: map<string, JsValue>)
    ensures "php" in m && "wp" in m
  {
    map["php" := Coalesce(args.php, Str("8.2")), "wp" := Coalesce(args.wp, Str("latest"))]
    + Spread(Or(OptionalGet(args.blueprint, "preferredVersions"), Obj(map[])))
  }

  /** The blueprint handed to `compileBlueprint`; `isBundle` is what
      `isBlueprintBundle(args.blueprint)` answers. */
  function MergeBlueprint(args: BootPlaygroundNodeArgs, isBundle: bool): (b: JsValue)
    ensures !isBundle ==> b.Obj? && "login" in b.fields && "preferredVersions" in b.fields &&
                          b.fields["preferredVersions"].Obj? &&
                          "php" in b.fields["preferredVersions"].fields && "wp" in b.fields["preferredVersions"].fields
  {
    if isBundle then args.blueprint
    else Obj((map["login" := args.login] + Spread(args.blueprint))["preferredVersions" := Obj(PreferredVersions(args))])
  }

  /** A blueprint bundle is passed on unchanged. */
  lemma BundlePassedOn(args: BootPlaygroundNodeArgs)
    ensures MergeBlueprint(args, true) == args.blueprint
  {
  }

  /** Otherwise the blueprint's top-level keys override `login`, and
      `preferredVersions` is always present and always the merged object. */
  lemma TopLevelPrecedence(args: BootPlaygroundNodeArgs, key: string)
    ensures MergeBlueprint(args, false).Obj?
    ensures var m := MergeBlueprint(args, false).fields;
            "preferredVersions" in m && m["preferredVersions"] == Obj(PreferredVersions(args)) &&
            (key != "preferredVersions" ==>
              (key in m <==> key == "login" || key in Spread(args.blueprint)) &&
              (key in Spread(args.blueprint) ==> m[key] == Spread(args.blueprint)[key]) &&
              (key == "login" && key !in Spread(args.blueprint) ==> m[key] == args.login))
  {
  }

  /** `preferredVersions.php` is the blueprint's value when it has one, else
      `args.php ?? "8.2"`; `wp` likewise with `args.wp ?? "latest"`; every other
      key of the blueprint's `preferredVersions` object is kept. */
  lemma PreferredVersionsPrecedence(args: BootPlaygroundNodeArgs, key: string)
    ensures var own := OptionalGet(args.blueprint, "preferredVersions");
            var pv := PreferredVersions(args);
            (own.Obj? && key in own.fields ==> key in pv && pv[key] == own.fields[key]) &&
            (!(own.Obj? && key in own.fields) && key == "php" ==> pv[key] == Coalesce(args.php, Str("8.2"))) &&
            (!(own.Obj? && key in own.fields) && key == "wp" ==> pv[key] == Coalesce(args.wp, Str("latest"))) &&
            (own.Obj? ==> (key in pv <==> key == "php" || key == "wp" || key in own.fields))
  {
    var own := OptionalGet(args.blueprint, "preferredVersions");
    assert !Decimal.AllDigits("php") && !Decimal.AllDigits("wp") by {
      assert !Decimal.IsDigit("php"[0]) && !Decimal.IsDigit("wp"[0]);
    }
    if !IsTruthy(own) {
      assert Spread(Or(own, Obj(map[]))) == map[];
    }
  }

  /** A blueprint whose `preferredVersions` is missing or falsy (`undefined`,
      `null`, `false`, `0`, `""`) gets the argument versions, or the defaults. */
  lemma DefaultVersions(args: BootPlaygroundNodeArgs)
    requires !IsTruthy(OptionalGet(args.blueprint, "preferredVersions"))
    ensures PreferredVersions(args) == map["php" := Coalesce(args.php, Str("8.2")), "wp" := Coalesce(args.wp, Str("latest"))]
  {
  }

  // ---------------------------------------------------------------------------
  // The options for the worker's boot

  /** `Number.MAX_SAFE_INTEGER`, 2^53 - 1. */
  const MaxSafeInteger: int := 9007199254740991

  /** The versions `compileBlueprint` settles on. */
  datatype CompiledVersions = CompiledVersions(php: string, wp: string)

  /** The options `bootPlaygroundNode` passes to the worker's `boot`. */
  function WorkerBootOptions(args: BootPlaygroundNodeArgs, versions: CompiledVersions): (o: PrimaryWorkerBootOptions)
    ensures o.mountsBeforeWpInstall == (if args.mountBeforeInstall.Some? then args.mountBeforeInstall.value else [])
    ensures o.mountsAfterWpInstall == (if args.mount.Some? then args.mount.value else [])
    ensures o.firstProcessId == 0 && o.processIdSpaceLength == MaxSafeInteger
    ensures PhpVersionOf(o) == versions.php && o.wpVersion == Some(versions.wp)
    ensures o.absoluteUrl == "http://localhost" && !o.followSymlinks && !o.trace
    ensures o.wordPressZip.None? && o.sqliteIntegrationPluginZip.None?
  {
    PrimaryWorkerBootOptions(
      Some(versions.wp),
      Some(versions.php),
      "http://localhost",
      args.mountBeforeInstall.GetOr([]),
      args.mount.GetOr([]),
      None,
      None,
      0,
      MaxSafeInteger,
      None,
      false,
      false)
  }

  /** With these options the worker's k-th runtime gets process id k, for every
      k below 2^53 - 1: ids lie in [0, 2^53 - 2] and never repeat in that span. */
  lemma WorkerIdsCountUp(args: BootPlaygroundNodeArgs, versions: CompiledVersions, k: nat)
    requires k < MaxSafeInteger
    ensures var o := WorkerBootOptions(args, versions);
            IdAt(o.firstProcessId, o.processIdSpaceLength, k) == k &&
            0 <= k <= LastId(o.firstProcessId, o.processIdSpaceLength)
  {
    ModUnique(k, MaxSafeInteger, 0, k);
  }

  // ---------------------------------------------------------------------------
  // spawnPHPWorkerThread

  const WorkerReady := "worker-script-initialized"

  datatype WorkerEvent =
    | Message(data: JsValue)    // a "message" event
    | ErrorEvent(error: string) // an "error" event

  datatype Spawn = Pending | Resolved | Rejected(error: string)

  /** The events that decide the promise: the readiness message and any error. */
  predicate Decisive(ev: WorkerEvent) {
    ev.ErrorEvent? || ev.data == Str(WorkerReady)
  }

  function Verdict(ev: WorkerEvent): Spawn
    requires Decisive(ev)
  {
    if ev.ErrorEvent? then Rejected(ev.error) else Resolved
  }

  /** One event delivered to the two listeners; a settled promise ignores it. */
  function Settle(state: Spawn, ev: WorkerEvent): (next: Spawn)
    ensures !state.Pending? ==> next == state
    ensures state.Pending? && Decisive(ev) ==> next == Verdict(ev)
    ensures state.Pending? && !Decisive(ev) ==> next.Pending?
  {
    if !state.Pending? then state
    else match ev
      case Message(data) => if data == Str(WorkerReady) then Resolved else Pending
      case ErrorEvent(e) => Rejected(e)
  }

  /** The state of the promise after the events, in order. */
  function SpawnOutcome(events: seq<WorkerEvent>): (s: Spawn)
    ensures s == Resolved ==> Message(Str(WorkerReady)) in events
    ensures s.Rejected? ==> ErrorEvent(s.error) in events
  {
    if |events| == 0 then Pending
    else
      var init := events[..|events| - 1];
      assert events == init + [events[|events| - 1]];
      Settle(SpawnOutcome(init), events[|events| - 1])
  }

  /** The promise stays pending exactly while no decisive event has arrived; once
      one has, the first of them alone decides: the readiness message resolves,
      an error rejects with that error. */
  lemma {:induction false} FirstDecisiveEventWins(events: seq<WorkerEvent>)
    ensures SpawnOutcome(events) == Pending <==> forall i :: 0 <= i < |events| ==> !Decisive(events[i])
    ensures forall i :: 0 <= i < |events| && Decisive(events[i]) &&
                        (forall j :: 0 <= j < i ==> !Decisive(events[j])) ==>
              SpawnOutcome(events) == Verdict(events[i])
  {
    if |events| > 0 {
      var init := events[..|events| - 1];
      FirstDecisiveEventWins(init);
      forall i | 0 <= i < |events| && Decisive(events[i]) && (forall j :: 0 <= j < i ==> !Decisive(events[j]))
        ensures SpawnOutcome(events) == Verdict(events[i])
      {
        if i < |events| - 1 {
          assert init[i] == events[i];
          assert forall j :: 0 <= j < i ==> !Decisive(init[j]);
        } else {
          assert forall j :: 0 <= j < |init| ==> !Decisive(init[j]);
        }
      }
      if SpawnOutcome(events) == Pending {
        assert SpawnOutcome(init) == Pending;
        forall i | 0 <= i < |events| ensures !Decisive(events[i]) {
          if i < |events| - 1 {
            assert init[i] == events[i];
          }
        }
      }
      if forall i :: 0 <= i < |events| ==> !Decisive(events[i]) {
        assert forall i :: 0 <= i < |init| ==> !Decisive(init[i]);
      }
    }
  }

  /** After it settles, later events of any kind leave the outcome as it is. */
  lemma {:induction false} SettledStaysSettled(events: seq<WorkerEvent>, later: seq<WorkerEvent>)
    requires SpawnOutcome(events) != Pending
    ensures SpawnOutcome(events + later) == SpawnOutcome(events)
    decreases |later|
  {
    if |later| == 0 {
      assert events + later == events;
    } else {
      assert (events + later)[..|events + later| - 1] == events + later[..|later| - 1];
      SettledStaysSettled(events, later[..|later| - 1]);
    }
  }

  /** A worker that signals readiness resolves the spawn; one that signals an
      error first rejects it with that error and never resolves. */
  lemma ReadyOrErrorFirst(others: seq<JsValue>, e: string, later: seq<WorkerEvent>)
    requires forall i :: 0 <= i < |others| ==> others[i] != Str(WorkerReady)
    ensures var prefix := seq(|others|, i requires 0 <= i < |others| => Message(others[i]));
            SpawnOutcome(prefix + [Message(Str(WorkerReady))] + later) == Resolved &&
            SpawnOutcome(prefix + [ErrorEvent(e)] + later) == Rejected(e)
  {
    var prefix := seq(|others|, i requires 0 <= i < |others| => Message(others[i]));
    var ready := prefix + [Message(Str(WorkerReady))];
    var failed := prefix + [ErrorEvent(e)];
    FirstDecisiveEventWins(ready);
    FirstDecisiveEventWins(failed);
    assert Decisive(ready[|prefix|]) && forall j :: 0 <= j < |prefix| ==> !Decisive(ready[j]);
    assert Decisive(failed[|prefix|]) && forall j :: 0 <= j < |prefix| ==> !Decisive(failed[j]);
    SettledStaysSettled(ready, later);
    SettledStaysSettled(failed, later);
  }
}
