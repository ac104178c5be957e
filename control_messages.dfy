/** The control messages the browser sends to a renderer thread, already
    decoded, and the fixed table that routes each kind to one handler
    (chrome/renderer/render_thread.cc:240-276). */
module ControlMessages {
  import opened Options
  import opened SeqCounting
  import opened Effects
  import opened WebKitGate

  /** One CSSColors::CSSColorMapping: a colour name and the colour it maps to. */
  datatype ColorMapping = ColorMapping(name: ColorName, color: Color)

  datatype ControlMessage =
    | VisitedLinkNewTable(table: SharedMemoryHandle)
    | VisitedLinkAdd(fingerprints: seq<Fingerprint>)
    | VisitedLinkReset
    | SetNextPageID(nextPageId: int)
    | SetCSSColors(colors: seq<ColorMapping>)
    | New(parent: NativeViewId, viewId: int)
    | SetCacheCapacities(minDeadCapacity: nat, maxDeadCapacity: nat, capacity: nat)
    | GetRendererHistograms(sequenceNumber: int)
    | GetCacheResourceStats
    | UserScriptsUpdatedScripts(scripts: SharedMemoryHandle)
    | ExtensionMessageInvoke(functionName: string, args: seq<string>)
    | ExtensionSetFunctionNames(names: seq<string>)
    | PurgePluginListCache
    | ExtensionUpdatePageActions(extensionId: string, pageActions: seq<string>)
    | ExtensionSetAPIPermissions(extensionId: string, permissions: seq<string>)
    | ExtensionSetHostPermissions(extensionUrl: string, patterns: seq<string>)
      /** any kind the table does not list */
    | Unrecognized(tag: nat)

  /** The handler methods of the message map, one per listed kind. */
  datatype Handler =
    | OnUpdateVisitedLinks | OnAddVisitedLinks | OnResetVisitedLinks | OnSetNextPageID
    | OnSetCSSColors | OnCreateNewView | OnSetCacheCapacities | OnGetRendererHistograms
    | OnGetCacheResourceStats | OnUpdateUserScripts | OnExtensionMessageInvoke
    | OnSetExtensionFunctionNames | OnPurgePluginListCache | OnPageActionsUpdated
    | OnExtensionSetAPIPermissions | OnExtensionSetHostPermissions

  /** The message map: each listed kind has exactly one handler, unlisted
      kinds have none, and only view creation and the two cache handlers
      run the engine gate. The `Handler` value is a label naming the method
      the map calls; the calls themselves are made by matching on the
      message kind in RenderThread.DispatchGated and DispatchDirect. */
  function HandlerFor(msg: ControlMessage): (h: Option<Handler>)
    ensures h.None? <==> msg.Unrecognized?
    ensures h.Some? && h.value in {OnCreateNewView, OnSetCacheCapacities, OnGetCacheResourceStats}
            <==> RunsGate(msg)
  {
    match msg
    case VisitedLinkNewTable(_) => Some(OnUpdateVisitedLinks)
    case VisitedLinkAdd(_) => Some(OnAddVisitedLinks)
    case VisitedLinkReset => Some(OnResetVisitedLinks)
    case SetNextPageID(_) => Some(OnSetNextPageID)
    case SetCSSColors(_) => Some(OnSetCSSColors)
    case New(_, _) => Some(OnCreateNewView)
    case SetCacheCapacities(_, _, _) => Some(OnSetCacheCapacities)
    case GetRendererHistograms(_) => Some(OnGetRendererHistograms)
    case GetCacheResourceStats => Some(OnGetCacheResourceStats)
    case UserScriptsUpdatedScripts(_) => Some(OnUpdateUserScripts)
    case ExtensionMessageInvoke(_, _) => Some(OnExtensionMessageInvoke)
    case ExtensionSetFunctionNames(_) => Some(OnSetExtensionFunctionNames)
    case PurgePluginListCache => Some(OnPurgePluginListCache)
    case ExtensionUpdatePageActions(_, _) => Some(OnPageActionsUpdated)
    case ExtensionSetAPIPermissions(_, _) => Some(OnExtensionSetAPIPermissions)
    case ExtensionSetHostPermissions(_, _) => Some(OnExtensionSetHostPermissions)
    case Unrecognized(_) => None
  }

  /** The kinds whose handlers call EnsureWebKitInitialized first. */
  predicate RunsGate(msg: ControlMessage) {
    msg.New? || msg.SetCacheCapacities? || msg.GetCacheResourceStats?
  }

  /** The kinds that carry a shared-memory handle the handler checks. */
  predicate HandlesValid(msg: ControlMessage) {
    && (msg.VisitedLinkNewTable? ==> msg.table != InvalidHandle)
    && (msg.UserScriptsUpdatedScripts? ==> msg.scripts != InvalidHandle)
  }

  function ColorNames(colors: seq<ColorMapping>): seq<ColorName> {
    seq(|colors|, i requires 0 <= i < |colors| => colors[i].name)
  }

  function ColorValues(colors: seq<ColorMapping>): seq<Color> {
    seq(|colors|, i requires 0 <= i < |colors| => colors[i].color)
  }

  /** One visited-link update per fingerprint, in order. */
  function VisitedLinkUpdates(fingerprints: seq<Fingerprint>): seq<Event> {
    seq(|fingerprints|, i requires 0 <= i < |fingerprints| => UpdateVisitedLinkState(fingerprints[i]))
  }

  /** The calls the matched handler of `msg` makes in a process of
      `platform` and `env`, given whether the engine is already up; `stats`
      is what the engine reports if asked. Every gated call (IsGatedCall)
      comes after the engine start, the engine is started only by the three gated
      handlers and only if it was down, and no handler sends a cache-usage
      report. */
  function HandlerEvents(msg: ControlMessage, engineUp: bool, platform: Platform, env: ProcessEnv,
                         stats: StatsReport): (r: seq<Event>)
    ensures forall i {:trigger GatedAt(r, i)} | 0 <= i < |r| && GatedAt(r, i) ::
              engineUp || CountIf(r[..i], IsEngineStart) > 0
    ensures CountIf(r, IsEngineStart) == if !engineUp && RunsGate(msg) then 1 else 0
    ensures forall i | 0 <= i < |r| :: !IsStatsReport(r[i])
    ensures msg.Unrecognized? ==> r == []
  {
    if RunsGate(msg) then
      var calls := EngineCalls(msg, stats);
      BringUpStartsEngine(platform, env);
      GateThen(engineUp, BringUp(platform, env), calls);
      GateEvents(engineUp, BringUp(platform, env)) + calls
    else
      CountIfZero(DirectCalls(msg), IsEngineStart);
      DirectCalls(msg)
  }

  /** render_thread.cc:305-338: what the three gated handlers do once the
      engine is up. */
  function EngineCalls(msg: ControlMessage, stats: StatsReport): (r: seq<Event>)
    requires RunsGate(msg)
    ensures forall i | 0 <= i < |r| :: !IsEngineStart(r[i]) && !IsStatsReport(r[i])
  {
    match msg
    case New(parent, viewId) => [CreateView(parent, viewId)]
    case SetCacheCapacities(minDead, maxDead, capacity) =>
      [Effects.SetCacheCapacities(minDead, maxDead, capacity)]
    case GetCacheResourceStats => [GetResourceTypeStats, Send(ResourceTypeStats(stats))]
  }

  /** What the handlers that do not need the engine gate do. */
  function DirectCalls(msg: ControlMessage): (r: seq<Event>)
    requires !RunsGate(msg)
    ensures forall i | 0 <= i < |r| :: !IsEngineStart(r[i]) && !IsGatedCall(r[i]) && !IsStatsReport(r[i])
    ensures msg.Unrecognized? ==> r == []
  {
    match msg
    case VisitedLinkNewTable(t) => [VisitedLinkTableInit(t)]
    case VisitedLinkAdd(fps) => VisitedLinkUpdates(fps)
    case VisitedLinkReset => [ResetVisitedLinkState]
    case SetNextPageID(id) => [SetNextPageId(id)]
    case SetCSSColors(cs) => [SetNamedColors(ColorNames(cs), ColorValues(cs), |cs|)]
    case GetRendererHistograms(n) => [SendHistograms(n)]
    case UserScriptsUpdatedScripts(h) => [UpdateUserScripts(h)]
    case ExtensionMessageInvoke(f, args) => [InvokeExtensionFunction(f, args)]
    case ExtensionSetFunctionNames(names) => [SetExtensionFunctionNames(names)]
    case PurgePluginListCache => [ResetPluginCache(false)]
    case ExtensionUpdatePageActions(id, actions) => [SetPageActions(id, actions)]
    case ExtensionSetAPIPermissions(id, perms) => [SetAPIPermissions(id, perms)]
    case ExtensionSetHostPermissions(url, patterns) => [SetHostPermissions(url, patterns)]
    case Unrecognized(_) => []
  }

  /** Running the gate and then `calls` that do not start the engine
      themselves: the calls are made with the engine up. */
  lemma GateThen(engineUp: bool, bringUp: seq<Event>, calls: seq<Event>)
    requires StartsEngineOnce(bringUp)
    requires forall i | 0 <= i < |calls| :: !IsEngineStart(calls[i]) && !IsStatsReport(calls[i])
    ensures var r := GateEvents(engineUp, bringUp) + calls;
      && (forall i {:trigger GatedAt(r, i)} | 0 <= i < |r| && GatedAt(r, i) ::
            engineUp || CountIf(r[..i], IsEngineStart) > 0)
      && CountIf(r, IsEngineStart) == (if engineUp then 0 else 1)
      && forall i | 0 <= i < |r| :: !IsStatsReport(r[i])
  {
    var gate := GateEvents(engineUp, bringUp);
    var r := gate + calls;
    CountIfZero(bringUp, IsStatsReport);
    CountIfZero(bringUp, IsGatedCall);
    CountIfZero(calls, IsEngineStart);
    CountIfConcat(gate, calls, IsEngineStart);
    if !engineUp {
      forall i | 0 <= i < |r| && GatedAt(r, i)
        ensures CountIf(r[..i], IsEngineStart) > 0
      {
        if i < |gate| {
          assert false;
        }
        assert r[..i] == gate + r[|gate|..i];
        CountIfConcat(gate, r[|gate|..i], IsEngineStart);
      }
    }
    ConcatAt(gate, calls);
  }
}
