# Renderer control thread and DevTools client counter, in Dafny

This project models two pieces of a Chromium snapshot and proves properties of them.

**`RenderThread`** (chrome/renderer/render_thread.cc) is the control thread of a renderer process. The model covers:

- the counters of widgets and hidden widgets;
- the idle-notification timer and its damped back-off;
- the cache-statistics report, which is posted at most once at a time;
- the one-shot engine bring-up `EnsureWebKitInitialized`;
- the control-message map and its handlers;
- the message filters installed on the IPC channel.

The thread is a Dafny `class` whose fields are the C++ members the source updates in place. Side effects are appended to two logs:

- `posted` records every `PostDelayedTask`, with its delay in milliseconds;
- `log` records every call into the script engine, the engine and other subsystems, and every message sent to the browser.

Each state-changing method states its whole new state in terms of the old one. The operations on widget visibility, the idle timer, the cache-statistics report, the gate and the message handlers require and keep `Valid()`, the thread's invariant; the constructor establishes it. `Init` resets the counters, the delay and two flags, registers the thread and installs the filters; `Destroy`, `AddFilter` and `RemoveFilter` touch only the slot, the filter list and, in `Destroy`, the shutdown entry of the log. These four neither require nor promise `Valid()`. The invariant is:

- no more widgets are hidden than exist;
- the idle delay never drops below one second;
- plugin refresh is allowed between operations;
- the engine is started exactly once if it is up, and not at all otherwise;
- every gated call, that is every CreateView, SetCacheCapacities, GetResourceTypeStats and GetUsageStats (the engine calls made by the handlers that run the gate), comes after the engine start in the log;
- every posted timer is a positive whole number of seconds;
- cache-statistics tasks posted = reports sent + (1 if a report is pending, else 0).

The steps of that invariant are proved as lemmas on `ThreadState`, a value snapshot of the fields. The engine bring-up is a pure function of the platform and the process's switches, and every thread's `bringUp` constant is defined as `BringUp(platform, env)`, so what the gate runs is known for any thread, not only a freshly built one. Its lemmas show:

- it starts the engine exactly once, after the three V8 hooks;
- it pairs the two scheme policies;
- each optional extension is registered under exactly its condition.

**`DevToolsManagerImpl`** (content/browser/devtools/devtools_manager_impl.cc) counts attached DevTools clients. It posts an attach task on the 0→1 edge and a detach task on the 1→0 edge. The model proves two things:

- the posted tasks alternate, starting with an attach;
- attaches outnumber detaches exactly while a client is attached.

Modules, one per file:

- `Options`: the `Option` type.
- `SeqCounting`: counting matches in a sequence.
- `Effects`: platforms, switches, engine calls and host messages.
- `IdleBackoff`: the damping arithmetic on exact reals.
- `WebKitGate`: the bring-up steps.
- `ChannelFilters`: the filter list.
- `ControlMessages`: the message map and the calls each handler makes.
- `RenderThreads`: the thread class.
- `DevTools`: the client counter.

## Model

| member | source | states |
|---|---|---|
| IdleBackoff.Damp | chrome/renderer/render_thread.cc:469-475 | the delay after one idle notification that did not reclaim everything: the old delay plus 1/(old delay + 2) seconds |
| IdleBackoff.TimerDelayMs | chrome/renderer/render_thread.cc:173-175 | the period of a posted idle timer: the delay truncated to whole seconds, in milliseconds (also used at lines 478-480) |
| IdleBackoff.DampStep | chrome/renderer/render_thread.cc:469-475 | one damping step `d + 1/(d + 2)` strictly increases the delay, by at most 1/2 from a non-negative delay and at most 1/3 from a delay of at least one second |
| IdleBackoff.TimerDelayBounds | chrome/renderer/render_thread.cc:477-480 | the period is a multiple of 1000 ms, the largest whole number of seconds not above the delay, and at least 1000 ms for any delay of at least the initial one |
| IdleBackoff.DelayAfter | chrome/renderer/render_thread.cc:469-475 | the delay after n incomplete notifications in a row is never below the initial one second |
| IdleBackoff.DampMonotone | chrome/renderer/render_thread.cc:474-475 | damping is monotone on non-negative delays |
| IdleBackoff.DelayStrictlyIncreasing | chrome/renderer/render_thread.cc:469-475 | successive delays strictly increase |
| IdleBackoff.DelayGrowsSlowly | chrome/renderer/render_thread.cc:469-475 | after n steps the delay is at most 1 + n/3 seconds |
| IdleBackoff.FirstDelays | chrome/renderer/render_thread.cc:474-475 | the first damped delays are exactly 4/3 and 49/30 seconds |
| IdleBackoff.RescheduleSchedule | chrome/renderer/render_thread.cc:469-480 | the first nine rescheduled timers have periods 1, 1, 1, 2, 2, 2, 2, 3, 3 seconds, the sequence the comment at lines 472-473 describes |
| ChannelFilters.InitFilters | chrome/renderer/render_thread.cc:121-130 | Init installs the DevTools agent filter, then the database filter, and the suicide-on-channel-error filter exactly on POSIX |
| ChannelFilters.TeardownLeavesSuicideFilter | chrome/renderer/render_thread.cc:133-136 | removing the DevTools and database filters from what Init installed leaves only the suicide filter on POSIX, and nothing elsewhere |
| ChannelFilters.RemoveFilter | chrome/renderer/render_thread.cc:161-163 | removing a filter that is not installed changes nothing; removing one that is installed shortens the list by one |
| ChannelFilters.RemoveFilterDropsFirst | chrome/renderer/render_thread.cc:161-163 | removal leaves out exactly the first entry for the filter and keeps the rest in order |
| ChannelFilters.RemoveFilterKeepsOthers | chrome/renderer/render_thread.cc:161-163 | every other filter is installed after the removal exactly if it was before |
| ControlMessages.VisitedLinkUpdates | chrome/renderer/render_thread.cc:202-206 | one visited-link update per fingerprint, in the fingerprints' order |
| ControlMessages.ColorNames | chrome/renderer/render_thread.cc:294-300 | the colour names of the mappings, in order |
| ControlMessages.ColorValues | chrome/renderer/render_thread.cc:294-300 | the colours of the mappings, in order |
| ControlMessages.HandlerFor | chrome/renderer/render_thread.cc:245-275 | each listed message kind has exactly one handler and unlisted kinds have none; the handler runs the engine gate exactly for view creation and the two cache messages |
| ControlMessages.HandlerEvents | chrome/renderer/render_thread.cc:240-276 | in what a handler does, every gated call (CreateView, SetCacheCapacities, GetResourceTypeStats, GetUsageStats) follows an engine start unless the engine was already up; the engine is started once if it was down and a gated handler runs, and never otherwise; no handler sends a cache report; an unlisted kind makes no call |
| ControlMessages.EngineCalls | chrome/renderer/render_thread.cc:305-338 | the calls the gated handlers make after the gate neither start the engine nor send a cache report |
| ControlMessages.DirectCalls | chrome/renderer/render_thread.cc:197-497 | the handlers without the gate (lines 197-238, 278-282, 287-303, 340-342, 484-487 and 489-497) neither start the engine, nor make a gated call, nor send a cache report; an unlisted kind makes no call |
| ControlMessages.GateThen | chrome/renderer/render_thread.cc:305-338 | running the gate and then calls that are neutral to the engine makes every gated call follow the engine start, starts the engine once exactly if it was down, and sends no report |
| WebKitGate.StartEngine | chrome/renderer/render_thread.cc:390-397 | the first five gate steps in order: the three V8 hooks, the engine start, then V8 single-thread mode |
| WebKitGate.SchemePolicy | chrome/renderer/render_thread.cc:402-409 | one scheme registered as local, then as no-access |
| WebKitGate.SchemePolicies | chrome/renderer/render_thread.cc:399-409 | the chrome: scheme's pair of policies, then the print: scheme's |
| WebKitGate.MediaPlayer | chrome/renderer/render_thread.cc:452-453 | the media player is enabled, once, exactly when the media library was initialised |
| WebKitGate.BringUp | chrome/renderer/render_thread.cc:390-453 | everything the first gate call does, in order: StartEngine, then Configuration |
| WebKitGate.GateEvents | chrome/renderer/render_thread.cc:386-388 | what one gate call appends: nothing if the engine is up, the whole bring-up otherwise |
| WebKitGate.BuiltinExtensions | chrome/renderer/render_thread.cc:411-439 | the extensions registered unconditionally include Gears exactly on Windows, and neither Benchmarking nor Playback |
| WebKitGate.OptionalExtensions | chrome/renderer/render_thread.cc:441-450 | Benchmarking is registered exactly when its switch is set; Playback exactly when the playback, record or no-JS-randomness switch is set; Gears never |
| WebKitGate.Configuration | chrome/renderer/render_thread.cc:399-453 | every step of the configuration, which follows the engine start and single-thread mode, is a scheme policy, an extension registration or the media-player switch |
| WebKitGate.BringUpStartsEngineOnce | chrome/renderer/render_thread.cc:390-397 | bring-up starts the engine exactly once, as its fourth step, after the three V8 hooks and before everything else |
| WebKitGate.BringUpIsNeutral | chrome/renderer/render_thread.cc:386-454 | bring-up makes no gated call and sends no report |
| WebKitGate.BringUpStartsEngine | chrome/renderer/render_thread.cc:386-454 | bring-up has one engine start, no gated call and no report, on every platform and command line |
| WebKitGate.BringUpPairsSchemePolicies | chrome/renderer/render_thread.cc:399-409 | chrome: and print: are each registered as local and as no-access; every local registration is immediately followed by the no-access one for the same scheme and vice versa; the extension scheme gets neither |
| WebKitGate.BringUpOptionalCapabilities | chrome/renderer/render_thread.cc:411-453 | Benchmarking, Playback, Gears and the media player appear in bring-up exactly under their switch, platform or media-library condition |
| RenderThreads.ComputeBringUp | chrome/renderer/render_thread.cc:386-454 | computes the bring-up steps of the process, which start the engine once and are otherwise neutral |
| RenderThreads.Invariant | chrome/renderer/render_thread.cc:92-497 | the thread's invariant listed above: hidden widgets at most the widgets, delay at least one second, plugin refresh allowed, one engine start exactly while the engine is up, gated calls after the start, whole-second timers, report tasks posted = reports sent + pending |
| RenderThreads.RenderThread.Valid | chrome/renderer/render_thread.cc:92-497 | the thread's fields satisfy Invariant |
| RenderThreads.AppendCalls | chrome/renderer/render_thread.cc:189-238 | appending calls that start nothing, report nothing and include a gated call only when the engine is up keeps the thread invariant |
| RenderThreads.AppendHandler | chrome/renderer/render_thread.cc:240-276 | appending what any matched handler does keeps the thread invariant, with the engine marked up exactly when it was up or the handler ran the gate |
| RenderThreads.NotifyAndBackOff | chrome/renderer/render_thread.cc:466-481 | logging the idle notification, damping the delay and posting one timer of floor(delay) seconds keeps the invariant |
| RenderThreads.ArmIdleTimer | chrome/renderer/render_thread.cc:168-176 | resetting the delay to one second and posting a 1000 ms idle timer keeps the invariant |
| RenderThreads.PostReportTask | chrome/renderer/render_thread.cc:352-362 | posting the 2000 ms report task while none is pending, and marking it pending, keeps the invariant |
| RenderThreads.SendReport | chrome/renderer/render_thread.cc:344-350 | the pending report task asking for usage and sending one report, then clearing the flag, keeps the invariant |
| RenderThreads.StartKeeps | chrome/renderer/render_thread.cc:386-454 | running bring-up while the engine is down and marking it up keeps the invariant |
| RenderThreads.InitialState | chrome/renderer/render_thread.cc:101-131 | a thread with no hidden widgets, the initial delay, nothing pending, the engine down and empty logs satisfies the invariant |
| RenderThreads.RenderThread.constructor | chrome/renderer/render_thread.cc:92-99 | a new thread is valid, registered in its thread-local slot, with no widgets, the initial delay, nothing pending, the engine down, Init's filters, and nothing posted or logged |
| RenderThreads.RenderThread.Init | chrome/renderer/render_thread.cc:101-131 | registers the thread, resets the counters, the delay and the flags, and appends Init's filters |
| RenderThreads.RenderThread.Destroy | chrome/renderer/render_thread.cc:133-141 | removes the DevTools and database filters, shuts the engine down exactly if it was started, and clears the thread-local slot |
| RenderThreads.RenderThread.Current | chrome/renderer/render_thread.cc:153-155 | returns the thread registered in the slot |
| RenderThreads.RenderThread.AddFilter | chrome/renderer/render_thread.cc:157-159 | appends the filter to the channel's list |
| RenderThreads.RenderThread.RemoveFilter | chrome/renderer/render_thread.cc:161-163 | the channel's list becomes RemoveFilter of the old list |
| RenderThreads.RenderThread.WidgetHidden | chrome/renderer/render_thread.cc:165-177 | one more hidden widget; if that hides the last visible one, the delay is reset and exactly one 1000 ms idle timer is posted, otherwise nothing else changes; the invariant is kept |
| RenderThreads.RenderThread.WidgetRestored | chrome/renderer/render_thread.cc:179-187 | one fewer hidden widget, with a pending timer and the delay left alone; the invariant is kept |
| RenderThreads.RenderThread.IdleHandler | chrome/renderer/render_thread.cc:456-482 | a stale timer or a dead engine changes nothing; otherwise there is exactly one idle notification, and unless the engine reclaimed everything the delay is damped and exactly one timer of floor(delay) seconds is posted; the delay never decreases |
| RenderThreads.RenderThread.NotifyIdle | chrome/renderer/render_thread.cc:466-481 | the notification is logged; if garbage remains, the delay is damped and one timer is posted, otherwise nothing else changes |
| RenderThreads.RenderThread.InformHostOfCacheStatsLater | chrome/renderer/render_thread.cc:352-362 | afterwards a report is pending; a 2000 ms report task is posted exactly when none was pending before |
| RenderThreads.RenderThread.InformHostOfCacheStats | chrome/renderer/render_thread.cc:344-350 | runs the gate, asks for usage, sends exactly one report, and clears the pending flag |
| RenderThreads.RenderThread.EnsureWebKitInitialized | chrome/renderer/render_thread.cc:386-454 | the first call appends the bring-up steps and marks the engine up; later calls change nothing |
| RenderThreads.RenderThread.OnControlMessageReceived | chrome/renderer/render_thread.cc:240-276 | a message the application cache takes, or an unlisted kind, changes nothing; otherwise the one handler of its kind runs and appends HandlerEvents |
| RenderThreads.RenderThread.RunHandler | chrome/renderer/render_thread.cc:245-275 | running the mapped handler appends its HandlerEvents and marks the engine up exactly if it was up or the handler runs the gate |
| RenderThreads.RenderThread.DispatchGated | chrome/renderer/render_thread.cc:251-258 | the three gated handlers append the gate's steps followed by their engine calls |
| RenderThreads.RenderThread.DispatchDirect | chrome/renderer/render_thread.cc:245-275 | the other handlers append their direct calls and nothing else |
| RenderThreads.RenderThread.OnUpdateVisitedLinks | chrome/renderer/render_thread.cc:197-200 | one visited-link table initialisation with the given valid handle |
| RenderThreads.RenderThread.OnAddVisitedLinks | chrome/renderer/render_thread.cc:202-206 | one visited-link update per fingerprint, in order |
| RenderThreads.RenderThread.OnResetVisitedLinks | chrome/renderer/render_thread.cc:208-210 | one visited-link reset |
| RenderThreads.RenderThread.OnUpdateUserScripts | chrome/renderer/render_thread.cc:212-216 | one user-script update with the given valid handle |
| RenderThreads.RenderThread.OnSetExtensionFunctionNames | chrome/renderer/render_thread.cc:218-221 | one call passing the names on |
| RenderThreads.RenderThread.OnPageActionsUpdated | chrome/renderer/render_thread.cc:223-227 | one call passing the extension's page actions on |
| RenderThreads.RenderThread.OnExtensionSetAPIPermissions | chrome/renderer/render_thread.cc:229-233 | one call passing the extension's API permissions on |
| RenderThreads.RenderThread.OnExtensionSetHostPermissions | chrome/renderer/render_thread.cc:235-238 | one call passing the extension's host permissions on |
| RenderThreads.RenderThread.OnSetNextPageID | chrome/renderer/render_thread.cc:278-282 | one call setting the next page id |
| RenderThreads.RenderThread.OnSetCSSColors | chrome/renderer/render_thread.cc:287-303 | one engine call with the colour names and colours split out in order, and their count |
| RenderThreads.RenderThread.OnCreateNewView | chrome/renderer/render_thread.cc:305-323 | the gate, then the view creation; the engine is up afterwards |
| RenderThreads.RenderThread.OnSetCacheCapacities | chrome/renderer/render_thread.cc:325-331 | the gate, then the cache-capacity call; the engine is up afterwards |
| RenderThreads.RenderThread.OnGetCacheResourceStats | chrome/renderer/render_thread.cc:333-338 | the gate, the resource-statistics query, then one message to the browser with its answer |
| RenderThreads.RenderThread.OnGetRendererHistograms | chrome/renderer/render_thread.cc:340-342 | one histogram send with the sequence number |
| RenderThreads.RenderThread.OnExtensionMessageInvoke | chrome/renderer/render_thread.cc:484-487 | one extension-function invocation |
| RenderThreads.RenderThread.OnPurgePluginListCache | chrome/renderer/render_thread.cc:489-497 | the plugin cache is reset with refresh disallowed, and refresh is allowed again afterwards |
| RenderThreads.RenderThread.Resolve | chrome/renderer/render_thread.cc:189-191 | one host-name resolution |
| RenderThreads.RenderThread.CloseIdleConnections | chrome/renderer/render_thread.cc:364-366 | one CloseIdleConnections message to the browser |
| RenderThreads.RenderThread.SetCacheMode | chrome/renderer/render_thread.cc:368-370 | one SetCacheMode message to the browser |
| RenderThreads.SplitColorMappings | chrome/renderer/render_thread.cc:290-301 | fills two arrays of the mappings' length with each mapping's name and colour at its index |
| RenderThreads.HideLastThenRestore | chrome/renderer/render_thread.cc:165-187 | hiding the last visible widget and showing one again leaves the one freshly armed 1000 ms timer posted and the delay at its initial value |
| RenderThreads.StaleIdleTimer | chrome/renderer/render_thread.cc:456-466 | if a widget is shown again before the armed timer fires, the timer neither notifies the engine nor posts another |
| RenderThreads.CacheStatsCoalesce | chrome/renderer/render_thread.cc:344-362 | three requests before the report task runs post a single 2000 ms task, and that task sends a single report after the gate |
| RenderThreads.RequestStatsThrice | chrome/renderer/render_thread.cc:352-362 | three requests while no report is pending post a single 2000 ms task and leave a report pending |
| RenderThreads.FirstGateConfiguresEngine | chrome/renderer/render_thread.cc:386-454 | on any valid thread whose engine is down, the gate appends exactly the process's bring-up, which registers chrome: and print: as local and no-access, Benchmarking exactly under its switch and the media player exactly when the media library is up |
| DevTools.Consistent | content/browser/devtools/devtools_manager_impl.cc:31-49 | the client count is never negative, the posted tasks alternate starting with an attach, and the last task is an attach exactly while a client is attached |
| DevTools.DevToolsManager.Valid | content/browser/devtools/devtools_manager_impl.cc:31-49 | the manager's count and posted tasks are Consistent |
| DevTools.AlternatingCounts | content/browser/devtools/devtools_manager_impl.cc:31-49 | in an alternating task list, attaches outnumber detaches by one exactly when the last task is an attach, and equal them otherwise |
| DevTools.OutstandingAttach | content/browser/devtools/devtools_manager_impl.cc:31-49 | more attaches than detaches have been posted exactly while a client is attached, and never more than one more |
| DevTools.AttachStep | content/browser/devtools/devtools_manager_impl.cc:31-39 | attaching keeps the count non-negative, the tasks alternating, and the observer attached exactly while some client is |
| DevTools.DetachStep | content/browser/devtools/devtools_manager_impl.cc:41-49 | detaching with a client attached keeps the same invariant |
| DevTools.DevToolsManager.constructor | content/browser/devtools/devtools_manager_impl.cc:22-25 | a new manager has no clients and has posted nothing |
| DevTools.DevToolsManager.OnClientAttached | content/browser/devtools/devtools_manager_impl.cc:31-39 | the count grows by one; an attach task is posted exactly when the count was zero |
| DevTools.DevToolsManager.OnClientDetached | content/browser/devtools/devtools_manager_impl.cc:41-49 | the count drops by one; a detach task is posted exactly when it reaches zero |
| DevTools.DevToolsManager.Destroy | content/browser/devtools/devtools_manager_impl.cc:27-29 | with no client attached, every attach posted was matched by a detach |
| DevTools.TwoClientsShareOneObserver | content/browser/devtools/devtools_manager_impl.cc:31-49 | with two clients attaching and then detaching, only the first attach and the last detach post a task |

## Left out

- Outside answers are method parameters: the script engine's `IsDead` and `IdleNotification`, the application-cache dispatcher's decision, and the engine's usage and resource statistics.
- The platform, the command-line switches and the media-library flag are fixed when the thread is created, as they are fixed for a process.
- Desktop Windows set-up (render_thread.cc:103-108 and 143-150) is not modelled: COM initialisation and plugin-channel cleanup are platform calls with no effect on the modelled state.
- The suicide filter's behaviour on a channel error (render_thread.cc:68-86) is not modelled: it ends the process with `_exit`. Only its installation is modelled.
- The histogram callbacks handed to V8 (render_thread.cc:372-384) are recorded only as the three hook calls. What they do is inside the histogram library.
- The thread-local registration `lazy_tls` is a `CurrentThreadSlot` object passed to the constructor. Threads and thread-local storage are not modelled.
- The bodies of `OnCreateNewView` after the gate (render_thread.cc:311-322), which include `RenderView::Create` and the modal-dialog event, are one `CreateView` call. Their internals live in other files.
- The channel's own filter list lives in the IPC library, which is not part of this model. `AddFilter` and `RemoveFilter` act on a list that keeps insertion order and removes the first matching entry.
- The widget-count increment is not in render_thread.cc. `WidgetCreated` is a stand-in for the widget-creation notification, which lives outside that file, and has no row.
- Logging (`LOG(INFO)`) is not modelled. Each DCHECK is a precondition of the method it guards:
  - `hidden < widgets` for `WidgetHidden`;
  - `hidden > 0` for `WidgetRestored`;
  - a valid table handle for `OnUpdateVisitedLinks` (render_thread.cc:198);
  - a valid script handle for `OnUpdateUserScripts` (render_thread.cc:214);
  - both handle checks, as `HandlesValid`, on `RunHandler`, `DispatchDirect` and on `OnControlMessageReceived` for messages the application cache does not take;
  - a client count of 0 for `DevToolsManager.Destroy` (devtools_manager_impl.cc:28).
- RenderThreads.RenderThread.InformHostOfCacheStats: requires a report to be pending, which render_thread.cc:344-350 does not check. The method runs only as the task posted at render_thread.cc:358-361, and that post sets the flag, so the source meets the precondition at its only call site.
- `posted` records every post and is never consumed: a task firing is modelled by calling `IdleHandler` or `InformHostOfCacheStats` directly, and its entry stays in `posted`. The model does not tie a call to a particular pending entry.
- The invariant orders only the gated calls after the engine start. The source also calls into the engine from handlers that do not run the gate: `WebKit::setNamedColors` (render_thread.cc:302), `WebKit::resetPluginCache` (render_thread.cc:495) and the visited-link updates and reset (render_thread.cc:205, 209). The model records these calls wherever they occur, also while the engine is down, and promises nothing about their order relative to the start.
- `IdleBackoff` models the delay in exact reals, not IEEE doubles, so rounding in `delay + 1/(delay + 2)` and in `floor` is idealised away.
- The delegate that `DevToolsManagerImpl` fetches in its constructor (devtools_manager_impl.cc:23) is never used in this file and is left out.
- The `Singleton` accessor (devtools_manager_impl.cc:18-20) is not modelled: it is global state. A manager is an object that callers create.
- Posting to the IO thread (devtools_manager_impl.cc:33-36, 44-47) is an append to `posted`. The observer's attach and detach run elsewhere.
- DevTools.DevToolsManager.OnClientDetached: requires a client to be attached. The source does not guard a detach at zero, which would drive the count negative and post nothing.
- DevTools.DevToolsManager: `client_count_` is modelled as an unbounded integer; overflow of the C++ `int` would take more than 2^31 clients.
- The first damped delay is 4/3 seconds, as the code computes it (`1 + 1/(1 + 2)`), not the 1.5 seconds a reading of the back-off as "half a second more" suggests; the model follows the code (IdleBackoff.FirstDelays).
