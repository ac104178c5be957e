/** What the renderer control thread does to the world outside its own
    fields: calls into the embedded engine (WebKit and V8), calls into its
    subsystem helpers, and messages sent to the browser. The model records
    each as an entry of an append-only log. */
module Effects {

  /** Operating-system families the source distinguishes with OS_WIN and OS_POSIX. */
  datatype Platform = Windows | Posix

  /** VisitedLinkSlave::Fingerprint, an unsigned 64-bit hash. */
  newtype Fingerprint = x: int | 0 <= x < 0x1_0000_0000_0000_0000

  /** WebKit::WebColor, a 32-bit ARGB value. */
  newtype Color = x: int | 0 <= x < 0x1_0000_0000

  /** WebKit::WebColorName, an enumerator of named CSS system colours. */
  type ColorName = nat

  /** A shared-memory handle as sent by the browser; only its validity matters. */
  datatype SharedMemoryHandle = InvalidHandle | Handle(id: nat)

  /** gfx::NativeViewId of the parent window of a new view. */
  type NativeViewId = nat

  /** Statistics the engine reports (WebCache::ResourceTypeStats, UsageStats);
      the model forwards them without looking inside. */
  type StatsReport = seq<nat>

  /** The URL schemes the engine is told about. */
  datatype Scheme = ChromeUIScheme | PrintScheme | ExtensionScheme

  /** Script-engine extensions the control thread registers. */
  datatype Extension =
    | Gears | Interval | LoadTimes | External | ExtensionProcessBindings
    | BaseJs | JsonSchema | EventBindings | RendererExtensionBindings
    | ExtensionApiTest | Benchmarking | Playback

  /** Where an extension is made available: every page, pages of one scheme,
      or the content-script group (EXTENSION_GROUP_CONTENT_SCRIPTS). */
  datatype ExtensionScope = AllPages | ForScheme(scheme: Scheme) | ContentScripts

  /** The process-start switches the engine bring-up consults. */
  datatype Switches = Switches(
    enableBenchmarking: bool,
    playbackMode: bool,
    recordMode: bool,
    noJsRandomness: bool)

  /** What the process knows when the engine is brought up: its switches and
      whether RenderProcess initialised the media library. */
  datatype ProcessEnv = ProcessEnv(switches: Switches, mediaLibraryInitialized: bool)

  /** Messages sent to the browser process. */
  datatype HostMessage =
    | ResourceTypeStats(stats: StatsReport)
    | UpdatedCacheStats(stats: StatsReport)
    | CloseIdleConnections
    | SetCacheMode(enabled: bool)

  datatype Event =
    // V8 hooks installed before the engine starts
    | SetCounterFunction
    | SetCreateHistogramFunction
    | SetAddHistogramSampleFunction
    // engine lifecycle and policy
    | WebKitInitialize
    | EnableV8SingleThreadMode
    | RegisterURLSchemeAsLocal(scheme: Scheme)
    | RegisterURLSchemeAsNoAccess(scheme: Scheme)
    | RegisterExtension(extension: Extension, scope: ExtensionScope)
    | EnableMediaPlayer
    | WebKitShutdown
    | IdleNotification
    // engine calls made by message handlers
    | UpdateVisitedLinkState(fingerprint: Fingerprint)
    | ResetVisitedLinkState
    | SetNamedColors(names: seq<ColorName>, colors: seq<Color>, count: nat)
    | SetCacheCapacities(minDeadCapacity: nat, maxDeadCapacity: nat, capacity: nat)
    | GetResourceTypeStats
    | GetUsageStats
    | ResetPluginCache(pluginRefreshAllowed: bool)
    | CreateView(parent: NativeViewId, viewId: int)
    | SetNextPageId(nextPageId: int)
    // subsystem helpers
    | VisitedLinkTableInit(table: SharedMemoryHandle)
    | UpdateUserScripts(scripts: SharedMemoryHandle)
    | ResolveHostName(name: string)
    | SendHistograms(sequenceNumber: int)
    | InvokeExtensionFunction(functionName: string, args: seq<string>)
    | SetExtensionFunctionNames(functionNames: seq<string>)
    | SetPageActions(extensionId: string, pageActions: seq<string>)
    | SetAPIPermissions(extensionId: string, permissions: seq<string>)
    | SetHostPermissions(extensionUrl: string, patterns: seq<string>)
    // messages to the browser
    | Send(message: HostMessage)

  /** The one call that brings the engine up. */
  predicate IsEngineStart(e: Event) {
    e.WebKitInitialize?
  }

  /** Engine calls whose callers run the initialisation gate first
      (render_thread.cc:310, 328, 334, 345). */
  predicate IsGatedCall(e: Event) {
    e.CreateView? || e.SetCacheCapacities? || e.GetResourceTypeStats? || e.GetUsageStats?
  }

  /** Entry `i` of `log` is a gated call. Quantifiers over a log's gated
      calls are triggered on this term rather than on `log[i]`, so that
      they do not feed each other through the prefixes they count over. */
  predicate GatedAt(log: seq<Event>, i: int)
    requires 0 <= i < |log|
  {
    IsGatedCall(log[i])
  }

  /** The hooks handed to V8 before the engine is initialised. */
  predicate IsScriptHook(e: Event) {
    e.SetCounterFunction? || e.SetCreateHistogramFunction? || e.SetAddHistogramSampleFunction?
  }

  /** A periodic cache-usage report to the browser. */
  predicate IsStatsReport(e: Event) {
    e.Send? && e.message.UpdatedCacheStats?
  }

  /** Whether `log` registers extension `x`, in any scope. */
  predicate Registers(log: seq<Event>, x: Extension) {
    exists i | 0 <= i < |log| :: log[i].RegisterExtension? && log[i].extension == x
  }
}
