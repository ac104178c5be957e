/** The renderer control thread, RenderThread
    (chrome/renderer/render_thread.cc): widget visibility counters, the idle
    notification timer, the debounced cache-statistics report, the one-shot
    engine gate, control-message dispatch and the filters on its channel.
    Posted tasks and outside calls are appended to two logs. The answers of
    the script engine and of the application-cache dispatcher are method
    parameters; the platform, the process switches and the media flag are
    fixed when the thread is created. */
module RenderThreads {
  import opened Options
  import opened SeqCounting
  import opened IdleBackoff
  import opened Effects
  import opened WebKitGate
  import opened ChannelFilters
  import CM = ControlMessages

  /** kCacheStatsDelayMS: how long the cache-statistics report is deferred. */
  const CacheStatsDelayMs: int := 2000

  /** The task methods posted to the message loop with a delay. */
  datatype TaskKind = IdleHandlerTask | CacheStatsTask

  /** A PostDelayedTask call: which method runs, after how many milliseconds. */
  datatype PostedTask = PostedTask(kind: TaskKind, delayMs: int)

  predicate IsStatsTask(t: PostedTask) {
    t.kind == CacheStatsTask
  }

  /** A snapshot of every field of a RenderThread. */
  datatype ThreadState = ThreadState(
    widgetCount: nat,
    hiddenWidgetCount: nat,
    idleDelay: real,
    cacheStatsPending: bool,
    pluginRefreshAllowed: bool,
    webkitInitialized: bool,
    filters: seq<Filter>,
    posted: seq<PostedTask>,
    log: seq<Event>)

  /** Every gated call (the engine calls of the handlers that run the gate)
      is made after the engine was started. */
  predicate GatedCallsFollowStart(log: seq<Event>) {
    forall i {:trigger GatedAt(log, i)} | 0 <= i < |log| && GatedAt(log, i) ::
      CountIf(log[..i], IsEngineStart) > 0
  }

  /** Every timer the thread posts waits a positive whole number of seconds. */
  predicate TimersWholeSeconds(posted: seq<PostedTask>) {
    forall i | 0 <= i < |posted| :: posted[i].delayMs >= 1000 && posted[i].delayMs % 1000 == 0
  }

  /** What holds between any two operations of the thread:
      - no more widgets are hidden than exist;
      - the idle delay never drops below its initial value;
      - plugin refresh is allowed except during a plugin-cache purge;
      - the engine was started exactly once if the gate flag is set and never otherwise;
      - every gated call (view creation, cache capacities, resource and
        usage statistics) came after the engine start;
      - timers are whole seconds;
      - the debounce: every posted report task has either sent its report or
        is the one task still pending. */
  predicate Invariant(s: ThreadState) {
    && s.hiddenWidgetCount <= s.widgetCount
    && s.idleDelay >= InitialIdleDelay
    && s.pluginRefreshAllowed
    && CountIf(s.log, IsEngineStart) == (if s.webkitInitialized then 1 else 0)
    && GatedCallsFollowStart(s.log)
    && TimersWholeSeconds(s.posted)
    && CountIf(s.posted, IsStatsTask)
       == CountIf(s.log, IsStatsReport) + (if s.cacheStatsPending then 1 else 0)
  }

  /** A prefix of `log + es` that ends inside `log` counts as that prefix of `log`. */
  lemma StartedBeforeOld(log: seq<Event>, es: seq<Event>, i: nat)
    requires i < |log|
    requires CountIf(log[..i], IsEngineStart) > 0
    ensures CountIf((log + es)[..i], IsEngineStart) > 0
  {
    assert (log + es)[..i] == log[..i];
  }

  /** A prefix of `log + es` that ends inside `es` counts all of `log`. */
  lemma StartedBeforeNew(log: seq<Event>, es: seq<Event>, i: nat)
    requires |log| <= i <= |log + es|
    requires CountIf(log, IsEngineStart) > 0 || CountIf(es[..i - |log|], IsEngineStart) > 0
    ensures CountIf((log + es)[..i], IsEngineStart) > 0
  {
    assert (log + es)[..i] == log + es[..i - |log|];
    CountIfConcat(log, es[..i - |log|], IsEngineStart);
  }

  /** Appending calls keeps the log part of the invariant, provided the calls
      that are gated come after a start (earlier in the log or among
      the new calls). */
  lemma AppendKeepsGatedCalls(log: seq<Event>, es: seq<Event>)
    requires GatedCallsFollowStart(log)
    requires forall i {:trigger GatedAt(es, i)} | 0 <= i < |es| && GatedAt(es, i) ::
               CountIf(log, IsEngineStart) > 0 || CountIf(es[..i], IsEngineStart) > 0
    ensures GatedCallsFollowStart(log + es)
  {
    forall i | 0 <= i < |log + es| && GatedAt(log + es, i)
      ensures CountIf((log + es)[..i], IsEngineStart) > 0
    {
      if i < |log| {
        assert GatedAt(log, i);
        StartedBeforeOld(log, es, i);
      } else {
        assert GatedAt(es, i - |log|);
        StartedBeforeNew(log, es, i);
      }
    }
  }

  /** Appending calls that neither start the engine nor report statistics,
      and that make a gated call only when the engine is already up, keeps
      the invariant. */
  lemma AppendCalls(s: ThreadState, es: seq<Event>)
    requires Invariant(s)
    requires forall i | 0 <= i < |es| :: !IsEngineStart(es[i]) && !IsStatsReport(es[i])
    requires s.webkitInitialized || forall i | 0 <= i < |es| :: !IsGatedCall(es[i])
    ensures Invariant(s.(log := s.log + es))
  {
    CountIfZero(es, IsEngineStart);
    CountIfZero(es, IsStatsReport);
    CountIfConcat(s.log, es, IsEngineStart);
    CountIfConcat(s.log, es, IsStatsReport);
    forall i | 0 <= i < |es| && GatedAt(es, i)
      ensures CountIf(s.log, IsEngineStart) > 0
    {
    }
    AppendKeepsGatedCalls(s.log, es);
  }

  /** Appending what one matched handler does keeps the invariant. */
  lemma AppendHandler(s: ThreadState, msg: CM.ControlMessage, platform: Platform, env: ProcessEnv,
                      stats: StatsReport)
    requires Invariant(s)
    ensures Invariant(s.(webkitInitialized := s.webkitInitialized || CM.RunsGate(msg),
                         log := s.log + CM.HandlerEvents(msg, s.webkitInitialized, platform, env, stats)))
  {
    var es := CM.HandlerEvents(msg, s.webkitInitialized, platform, env, stats);
    CountIfZero(es, IsStatsReport);
    CountIfConcat(s.log, es, IsEngineStart);
    CountIfConcat(s.log, es, IsStatsReport);
    AppendKeepsGatedCalls(s.log, es);
  }

  /** Posting a task of whole seconds: the task count grows by one exactly
      for a report task. */
  lemma PostTimer(s: ThreadState, t: PostedTask)
    requires TimersWholeSeconds(s.posted)
    requires t.delayMs >= 1000 && t.delayMs % 1000 == 0
    ensures CountIf(s.posted + [t], IsStatsTask) == CountIf(s.posted, IsStatsTask) + (if IsStatsTask(t) then 1 else 0)
    ensures TimersWholeSeconds(s.posted + [t])
  {
    CountIfConcat(s.posted, [t], IsStatsTask);
    CountIfSingleton(t, IsStatsTask);
  }

  /** An idle notification that did not reclaim everything: the notification
      is logged, the delay damped to `d` and one new idle timer posted. */
  lemma NotifyAndBackOff(s: ThreadState, d: real, timer: PostedTask)
    requires Invariant(s)
    requires d == Damp(s.idleDelay) && timer == PostedTask(IdleHandlerTask, TimerDelayMs(d))
    ensures Invariant(s.(idleDelay := d, log := s.log + [IdleNotification], posted := s.posted + [timer]))
  {
    DampStep(s.idleDelay);
    TimerDelayBounds(d);
    AppendCalls(s, [IdleNotification]);
    PostTimer(s, timer);
  }

  /** Arming the idle timer after the last widget was hidden: the delay is
      reset and one timer of one second is posted. */
  lemma ArmIdleTimer(s: ThreadState)
    requires Invariant(s)
    ensures TimerDelayMs(InitialIdleDelay) == 1000
    ensures Invariant(s.(idleDelay := InitialIdleDelay,
                         posted := s.posted + [PostedTask(IdleHandlerTask, 1000)]))
  {
    PostTimer(s, PostedTask(IdleHandlerTask, 1000));
  }

  /** Posting the cache-statistics task while none is pending. */
  lemma PostReportTask(s: ThreadState)
    requires Invariant(s) && !s.cacheStatsPending
    ensures Invariant(s.(cacheStatsPending := true,
                         posted := s.posted + [PostedTask(CacheStatsTask, CacheStatsDelayMs)]))
  {
    PostTimer(s, PostedTask(CacheStatsTask, CacheStatsDelayMs));
  }

  /** The pending report task asking for usage statistics and sending one
      report, with the engine up. */
  lemma SendReport(s: ThreadState, usage: StatsReport)
    requires Invariant(s) && s.cacheStatsPending && s.webkitInitialized
    ensures Invariant(s.(cacheStatsPending := false,
                         log := s.log + [GetUsageStats, Send(UpdatedCacheStats(usage))]))
  {
    var calls := [GetUsageStats, Send(UpdatedCacheStats(usage))];
    ReportCalls(usage);
    CountIfConcat(s.log, calls, IsEngineStart);
    CountIfConcat(s.log, calls, IsStatsReport);
    AppendKeepsGatedCalls(s.log, calls);
  }

  /** The report task's two calls start nothing and send one report. */
  lemma ReportCalls(usage: StatsReport)
    ensures CountIf([GetUsageStats, Send(UpdatedCacheStats(usage))], IsEngineStart) == 0
    ensures CountIf([GetUsageStats, Send(UpdatedCacheStats(usage))], IsStatsReport) == 1
  {
    var calls := [GetUsageStats, Send(UpdatedCacheStats(usage))];
    assert calls == [GetUsageStats] + [Send(UpdatedCacheStats(usage))];
    CountIfSingleton(GetUsageStats, IsEngineStart);
    CountIfSingleton(Send(UpdatedCacheStats(usage)), IsEngineStart);
    CountIfSingleton(GetUsageStats, IsStatsReport);
    CountIfSingleton(Send(UpdatedCacheStats(usage)), IsStatsReport);
    CountIfConcat([GetUsageStats], [Send(UpdatedCacheStats(usage))], IsEngineStart);
    CountIfConcat([GetUsageStats], [Send(UpdatedCacheStats(usage))], IsStatsReport);
  }

  /** Starting the engine while it is down, with calls that start it once
      and are otherwise neutral, keeps the invariant. */
  lemma StartKeeps(s: ThreadState, steps: seq<Event>)
    requires Invariant(s) && !s.webkitInitialized
    requires StartsEngineOnce(steps)
    ensures Invariant(s.(webkitInitialized := true, log := s.log + steps))
  {
    CountIfZero(steps, IsGatedCall);
    CountIfConcat(s.log, steps, IsEngineStart);
    CountIfConcat(s.log, steps, IsStatsReport);
    forall i | 0 <= i < |steps| && GatedAt(steps, i)
      ensures false
    {
    }
    AppendKeepsGatedCalls(s.log, steps);
  }

  /** One more fingerprint extends the updates by one call. */
  lemma VisitedLinkUpdatesStep(fingerprints: seq<Fingerprint>, i: nat)
    requires i < |fingerprints|
    ensures CM.VisitedLinkUpdates(fingerprints[..i + 1])
         == CM.VisitedLinkUpdates(fingerprints[..i]) + [UpdateVisitedLinkState(fingerprints[i])]
  {
    assert fingerprints[..i + 1] == fingerprints[..i] + [fingerprints[i]];
  }

  /** The calls the engine gate runs in a process of `platform` and `env`. */
  method ComputeBringUp(platform: Platform, env: ProcessEnv) returns (steps: seq<Event>)
    ensures steps == BringUp(platform, env)
    ensures StartsEngineOnce(steps)
  {
    steps := BringUp(platform, env);
    BringUpStartsEngine(platform, env);
  }

  /** A thread with no widgets, the engine down and empty logs is consistent. */
  lemma InitialState(s: ThreadState)
    requires s.hiddenWidgetCount == 0 && s.idleDelay == InitialIdleDelay
    requires !s.cacheStatsPending && s.pluginRefreshAllowed && !s.webkitInitialized
    requires s.posted == [] && s.log == []
    ensures Invariant(s)
  {
  }

  /** A thread-local pointer to the RenderThread of the calling thread. */
  class CurrentThreadSlot {
    var current: RenderThread?

    constructor ()
      ensures current == null
    {
      current := null;
    }
  }

  class RenderThread {
    const platform: Platform
    /** the process's command-line switches and media-library state */
    const env: ProcessEnv
    /** what the engine gate runs in this process */
    const bringUp: seq<Event> := BringUp(platform, env)
    /** lazy_tls: where Init registers this thread and teardown unregisters it */
    const slot: CurrentThreadSlot

    var widgetCount: nat
    var hiddenWidgetCount: nat
    /** seconds */
    var idleDelay: real
    var cacheStatsPending: bool
    var pluginRefreshAllowed: bool
    /** stands for webkit_client_ being set */
    var webkitInitialized: bool
    /** the message filters installed on the channel, in order */
    var filters: seq<Filter>
    /** every PostDelayedTask call, in order */
    var posted: seq<PostedTask>
    /** every call out of the thread and every message sent, in order */
    var log: seq<Event>

    ghost function State(): ThreadState
      reads this
    {
      ThreadState(widgetCount, hiddenWidgetCount, idleDelay, cacheStatsPending,
                  pluginRefreshAllowed, webkitInitialized, filters, posted, log)
    }

    ghost predicate Valid()
      reads this
    {
      Invariant(State())
    }

    /** RenderThread::RenderThread (render_thread.cc:92-99): a thread with no
        widgets, the engine down, nothing posted and nothing logged, then Init. */
    constructor (slot: CurrentThreadSlot, platform: Platform, env: ProcessEnv)
      modifies slot
      ensures Valid()
      ensures this.slot == slot && this.platform == platform && this.env == env && slot.current == this
      ensures widgetCount == 0 && hiddenWidgetCount == 0 && idleDelay == InitialIdleDelay
      ensures !cacheStatsPending && pluginRefreshAllowed && !webkitInitialized
      ensures filters == InitFilters(platform) && posted == [] && log == []
    {
      this.slot := slot;
      this.platform := platform;
      this.env := env;
      widgetCount := 0;
      hiddenWidgetCount := 0;
      idleDelay := InitialIdleDelay;
      cacheStatsPending := false;
      pluginRefreshAllowed := true;
      webkitInitialized := false;
      filters := [];
      posted := [];
      log := [];
      new;
      Init();
      InitialState(State());
    }

    /** RenderThread::Init (render_thread.cc:101-131): registers the thread,
        resets the counters and flags, and installs the channel filters. */
    method Init()
      modifies slot, this`widgetCount, this`hiddenWidgetCount, this`idleDelay,
               this`cacheStatsPending, this`pluginRefreshAllowed, this`filters
      ensures slot.current == this
      ensures widgetCount == 0 && hiddenWidgetCount == 0 && idleDelay == InitialIdleDelay
      ensures !cacheStatsPending && pluginRefreshAllowed
      ensures filters == old(filters) + InitFilters(platform)
    {
      slot.current := this;
      pluginRefreshAllowed := true;
      cacheStatsPending := false;
      widgetCount := 0;
      hiddenWidgetCount := 0;
      idleDelay := InitialIdleDelay;
      ghost var before := filters;
      AddFilter(DevToolsAgentFilter);
      AddFilter(DBMessageFilter);
      if platform == Posix {
        AddFilter(SuicideOnChannelErrorFilter);
      }
      assert filters == before + InitFilters(platform);
    }

    /** RenderThread::~RenderThread (render_thread.cc:133-141): removes the
        DevTools and database filters, shuts the engine down only if it was
        started, and unregisters the thread. */
    method Destroy()
      modifies this`filters, this`log, slot
      ensures slot.current == null
      ensures filters == ChannelFilters.RemoveFilter(
                ChannelFilters.RemoveFilter(old(filters), DevToolsAgentFilter), DBMessageFilter)
      ensures log == old(log) + (if webkitInitialized then [WebKitShutdown] else [])
    {
      RemoveFilter(DevToolsAgentFilter);
      RemoveFilter(DBMessageFilter);
      if webkitInitialized {
        log := log + [WebKitShutdown];
      }
      slot.current := null;
    }

    /** RenderThread::current (render_thread.cc:153-155). */
    static method Current(slot: CurrentThreadSlot) returns (t: RenderThread?)
      ensures t == slot.current
    {
      t := slot.current;
    }

    method AddFilter(f: Filter)
      modifies this`filters
      ensures filters == old(filters) + [f]
    {
      filters := filters + [f];
    }

    method RemoveFilter(f: Filter)
      modifies this`filters
      ensures filters == ChannelFilters.RemoveFilter(old(filters), f)
    {
      filters := ChannelFilters.RemoveFilter(filters, f);
    }

    /** Stands for the widget-creation notification, which lives outside
        render_thread.cc: one more widget, nothing else. */
    method WidgetCreated()
      requires Valid()
      modifies this`widgetCount
      ensures Valid()
      ensures widgetCount == old(widgetCount) + 1
    {
      widgetCount := widgetCount + 1;
    }

    /** render_thread.cc:165-177: one more widget hidden; when that hides the
        last visible one, the delay is reset and one idle timer is armed. */
    method WidgetHidden()
      requires Valid()
      requires hiddenWidgetCount < widgetCount
      modifies this`hiddenWidgetCount, this`idleDelay, this`posted
      ensures Valid()
      ensures hiddenWidgetCount == old(hiddenWidgetCount) + 1
      ensures hiddenWidgetCount == widgetCount ==>
                idleDelay == InitialIdleDelay && posted == old(posted) + [PostedTask(IdleHandlerTask, 1000)]
      ensures hiddenWidgetCount < widgetCount ==> idleDelay == old(idleDelay) && posted == old(posted)
    {
      ghost var s0 := State();
      hiddenWidgetCount := hiddenWidgetCount + 1;
      assert State() == s0.(hiddenWidgetCount := s0.hiddenWidgetCount + 1);
      if widgetCount != 0 && hiddenWidgetCount == widgetCount {
        ghost var s := State();
        ArmIdleTimer(s);
        idleDelay := InitialIdleDelay;
        posted := posted + [PostedTask(IdleHandlerTask, TimerDelayMs(idleDelay))];
        assert State() == s.(idleDelay := InitialIdleDelay,
                             posted := s.posted + [PostedTask(IdleHandlerTask, 1000)]);
      }
    }

    /** render_thread.cc:179-187: one fewer widget hidden; a pending idle
        timer is left alone and the delay is not touched. */
    method WidgetRestored()
      requires Valid()
      requires hiddenWidgetCount > 0
      modifies this`hiddenWidgetCount
      ensures Valid()
      ensures hiddenWidgetCount == old(hiddenWidgetCount) - 1
    {
      hiddenWidgetCount := hiddenWidgetCount - 1;
    }

    /** render_thread.cc:456-482, the idle timer firing. `engineDead` and
        `reclaimedAll` are what V8::IsDead and V8::IdleNotification answer.
        A stale timer (some widget visible, or none at all) and a dead engine
        change nothing. Otherwise the engine is notified once; if it could not
        reclaim everything the delay is damped and exactly one new timer of
        floor(delay) seconds is posted. */
    method IdleHandler(engineDead: bool, reclaimedAll: bool)
      requires Valid()
      modifies this`idleDelay, this`log, this`posted
      ensures Valid()
      ensures idleDelay >= old(idleDelay)
      ensures (widgetCount == 0 || hiddenWidgetCount < widgetCount || engineDead) ==>
                idleDelay == old(idleDelay) && log == old(log) && posted == old(posted)
      ensures (widgetCount > 0 && hiddenWidgetCount == widgetCount && !engineDead) ==>
                log == old(log) + [IdleNotification]
      ensures (widgetCount > 0 && hiddenWidgetCount == widgetCount && !engineDead && reclaimedAll) ==>
                idleDelay == old(idleDelay) && posted == old(posted)
      ensures (widgetCount > 0 && hiddenWidgetCount == widgetCount && !engineDead && !reclaimedAll) ==>
                idleDelay == Damp(old(idleDelay)) &&
                posted == old(posted) + [PostedTask(IdleHandlerTask, TimerDelayMs(idleDelay))]
    {
      if widgetCount == 0 || hiddenWidgetCount < widgetCount {
        return;
      }
      if engineDead {
        return;
      }
      DampStep(idleDelay);
      NotifyIdle(reclaimedAll);
    }

    /** The idle timer with every widget hidden and the engine alive: one
        notification, and a damped timer if the engine kept garbage. */
    method NotifyIdle(reclaimedAll: bool)
      requires Valid()
      modifies this`idleDelay, this`log, this`posted
      ensures Valid()
      ensures log == old(log) + [IdleNotification]
      ensures reclaimedAll ==> idleDelay == old(idleDelay) && posted == old(posted)
      ensures !reclaimedAll ==>
                idleDelay == Damp(old(idleDelay)) &&
                posted == old(posted) + [PostedTask(IdleHandlerTask, TimerDelayMs(idleDelay))]
    {
      ghost var s := State();
      if reclaimedAll {
        AppendCalls(s, [IdleNotification]);
        log := log + [IdleNotification];
        assert State() == s.(log := s.log + [IdleNotification]);
      } else {
        DampStep(idleDelay);
        var d := Damp(idleDelay);
        var timer := PostedTask(IdleHandlerTask, TimerDelayMs(d));
        NotifyAndBackOff(s, d, timer);
        log := log + [IdleNotification];
        idleDelay := d;
        posted := posted + [timer];
        assert State() == s.(idleDelay := d, log := s.log + [IdleNotification], posted := s.posted + [timer]);
      }
    }

    /** render_thread.cc:352-362: posts one report task unless one is
        already pending. */
    method InformHostOfCacheStatsLater()
      requires Valid()
      modifies this`cacheStatsPending, this`posted
      ensures Valid()
      ensures cacheStatsPending
      ensures old(cacheStatsPending) ==> posted == old(posted)
      ensures !old(cacheStatsPending) ==> posted == old(posted) + [PostedTask(CacheStatsTask, CacheStatsDelayMs)]
    {
      if cacheStatsPending {
        return;
      }
      ghost var s := State();
      PostReportTask(s);
      cacheStatsPending := true;
      posted := posted + [PostedTask(CacheStatsTask, CacheStatsDelayMs)];
      assert State() == s.(cacheStatsPending := true,
                           posted := s.posted + [PostedTask(CacheStatsTask, CacheStatsDelayMs)]);
    }

    /** render_thread.cc:344-350, the report task running (so one is
        pending): runs the engine gate, asks the engine for its usage
        statistics `usage`, sends exactly one report and clears the flag. */
    method InformHostOfCacheStats(usage: StatsReport)
      requires Valid()
      requires cacheStatsPending
      modifies this`cacheStatsPending, this`webkitInitialized, this`log
      ensures Valid()
      ensures !cacheStatsPending && webkitInitialized
      ensures log == old(log) + GateEvents(old(webkitInitialized), bringUp)
                     + [GetUsageStats, Send(UpdatedCacheStats(usage))]
    {
      EnsureWebKitInitialized();
      ghost var s := State();
      SendReport(s, usage);
      log := log + [GetUsageStats, Send(UpdatedCacheStats(usage))];
      cacheStatsPending := false;
      assert State() == s.(cacheStatsPending := false,
                           log := s.log + [GetUsageStats, Send(UpdatedCacheStats(usage))]);
    }

    /** render_thread.cc:386-454: the first call starts the engine with the
        registrations of BringUp; later calls do nothing. */
    method EnsureWebKitInitialized()
      requires Valid()
      modifies this`webkitInitialized, this`log
      ensures Valid()
      ensures webkitInitialized
      ensures log == old(log) + GateEvents(old(webkitInitialized), bringUp)
    {
      if webkitInitialized {
        assert log + [] == log;
        return;
      }
      ghost var s := State();
      var steps := ComputeBringUp(platform, env);
      StartKeeps(s, steps);
      log := log + steps;
      webkitInitialized := true;
      assert State() == s.(webkitInitialized := true, log := s.log + bringUp);
    }

    /** render_thread.cc:240-276. The application-cache dispatcher sees the
        message first (`appcacheConsumes` is its answer); if it takes the
        message nothing else happens. Otherwise the message map runs the one
        handler of the message's kind, and an unlisted kind changes nothing. */
    method OnControlMessageReceived(msg: CM.ControlMessage, appcacheConsumes: bool,
                                    resourceStats: StatsReport)
      returns (handler: Option<CM.Handler>)
      requires Valid()
      requires !appcacheConsumes ==> CM.HandlesValid(msg)
      modifies this`webkitInitialized, this`log, this`pluginRefreshAllowed
      ensures Valid()
      ensures handler == if appcacheConsumes then None else CM.HandlerFor(msg)
      ensures handler.None? ==> webkitInitialized == old(webkitInitialized) && log == old(log)
      ensures handler.Some? ==> webkitInitialized == (old(webkitInitialized) || CM.RunsGate(msg))
      ensures handler.Some? ==>
                log == old(log) + CM.HandlerEvents(msg, old(webkitInitialized), platform, env, resourceStats)
    {
      if appcacheConsumes {
        return None;
      }
      handler := CM.HandlerFor(msg);
      RunHandler(msg, resourceStats);
    }

    /** The handler the message map picks for `msg`, run. */
    method RunHandler(msg: CM.ControlMessage, resourceStats: StatsReport)
      requires Valid()
      requires CM.HandlesValid(msg)
      modifies this`webkitInitialized, this`log, this`pluginRefreshAllowed
      ensures Valid()
      ensures webkitInitialized == (old(webkitInitialized) || CM.RunsGate(msg))
      ensures log == old(log) + CM.HandlerEvents(msg, old(webkitInitialized), platform, env, resourceStats)
    {
      ghost var up := webkitInitialized;
      if CM.RunsGate(msg) {
        DispatchGated(msg, resourceStats);
      } else {
        DispatchDirect(msg);
        assert CM.HandlerEvents(msg, up, platform, env, resourceStats) == CM.DirectCalls(msg);
      }
    }

    /** The three table entries that run the engine gate. */
    method DispatchGated(msg: CM.ControlMessage, resourceStats: StatsReport)
      requires Valid()
      requires CM.RunsGate(msg)
      modifies this`webkitInitialized, this`log
      ensures Valid()
      ensures webkitInitialized
      ensures log == old(log) + (GateEvents(old(webkitInitialized), bringUp) + CM.EngineCalls(msg, resourceStats))
    {
      match msg
      case New(parent, viewId) => OnCreateNewView(parent, viewId);
      case SetCacheCapacities(minDead, maxDead, capacity) =>
        OnSetCacheCapacities(minDead, maxDead, capacity);
      case GetCacheResourceStats => OnGetCacheResourceStats(resourceStats);
    }

    /** The table entries that do not need the engine gate. */
    method DispatchDirect(msg: CM.ControlMessage)
      requires Valid()
      requires !CM.RunsGate(msg) && CM.HandlesValid(msg)
      modifies this`log, this`pluginRefreshAllowed
      ensures Valid()
      ensures log == old(log) + CM.DirectCalls(msg)
    {
      match msg
      case VisitedLinkNewTable(t) => OnUpdateVisitedLinks(t);
      case VisitedLinkAdd(fps) => OnAddVisitedLinks(fps);
      case VisitedLinkReset => OnResetVisitedLinks();
      case SetNextPageID(id) => OnSetNextPageID(id);
      case SetCSSColors(colors) => OnSetCSSColors(colors);
      case GetRendererHistograms(n) => OnGetRendererHistograms(n);
      case UserScriptsUpdatedScripts(h) => OnUpdateUserScripts(h);
      case ExtensionMessageInvoke(f, args) => OnExtensionMessageInvoke(f, args);
      case ExtensionSetFunctionNames(names) => OnSetExtensionFunctionNames(names);
      case PurgePluginListCache => OnPurgePluginListCache();
      case ExtensionUpdatePageActions(id, actions) => OnPageActionsUpdated(id, actions);
      case ExtensionSetAPIPermissions(id, perms) => OnExtensionSetAPIPermissions(id, perms);
      case ExtensionSetHostPermissions(url, patterns) => OnExtensionSetHostPermissions(url, patterns);
      case Unrecognized(_) => assert log + [] == log;
    }

    /** Makes one call that starts nothing and reports nothing; a gated
        call is made only once the engine is up. */
    method Call(e: Event)
      requires Valid()
      requires !IsEngineStart(e) && !IsStatsReport(e)
      requires IsGatedCall(e) ==> webkitInitialized
      modifies this`log
      ensures Valid()
      ensures log == old(log) + [e]
    {
      ghost var s := State();
      AppendCalls(s, [e]);
      log := log + [e];
      assert State() == s.(log := s.log + [e]);
    }

    /** render_thread.cc:197-200. */
    method OnUpdateVisitedLinks(table: SharedMemoryHandle)
      requires Valid()
      requires table != InvalidHandle
      modifies this`log
      ensures Valid()
      ensures log == old(log) + [VisitedLinkTableInit(table)]
    {
      Call(VisitedLinkTableInit(table));
    }

    /** render_thread.cc:202-206: one visited-link update per fingerprint, in order. */
    method OnAddVisitedLinks(fingerprints: seq<Fingerprint>)
      requires Valid()
      modifies this`log
      ensures Valid()
      ensures log == old(log) + CM.VisitedLinkUpdates(fingerprints)
    {
      var i := 0;
      while i < |fingerprints|
        invariant 0 <= i <= |fingerprints|
        invariant Valid()
        invariant log == old(log) + CM.VisitedLinkUpdates(fingerprints[..i])
      {
        VisitedLinkUpdatesStep(fingerprints, i);
        Call(UpdateVisitedLinkState(fingerprints[i]));
        i := i + 1;
      }
      assert fingerprints[..i] == fingerprints;
    }

    /** render_thread.cc:208-210. */
    method OnResetVisitedLinks()
      requires Valid()
      modifies this`log
      ensures Valid()
      ensures log == old(log) + [ResetVisitedLinkState]
    {
      Call(ResetVisitedLinkState);
    }

    /** render_thread.cc:212-216. */
    method OnUpdateUserScripts(scripts: SharedMemoryHandle)
      requires Valid()
      requires scripts != InvalidHandle
      modifies this`log
      ensures Valid()
      ensures log == old(log) + [UpdateUserScripts(scripts)]
    {
      Call(UpdateUserScripts(scripts));
    }

    /** render_thread.cc:218-221. */
    method OnSetExtensionFunctionNames(names: seq<string>)
      requires Valid()
      modifies this`log
      ensures Valid()
      ensures log == old(log) + [SetExtensionFunctionNames(names)]
    {
      Call(SetExtensionFunctionNames(names));
    }

    /** render_thread.cc:223-227. */
    method OnPageActionsUpdated(extensionId: string, pageActions: seq<string>)
      requires Valid()
      modifies this`log
      ensures Valid()
      ensures log == old(log) + [SetPageActions(extensionId, pageActions)]
    {
      Call(SetPageActions(extensionId, pageActions));
    }

    /** render_thread.cc:229-233. */
    method OnExtensionSetAPIPermissions(extensionId: string, permissions: seq<string>)
      requires Valid()
      modifies this`log
      ensures Valid()
      ensures log == old(log) + [SetAPIPermissions(extensionId, permissions)]
    {
      Call(SetAPIPermissions(extensionId, permissions));
    }

    /** render_thread.cc:235-238. */
    method OnExtensionSetHostPermissions(extensionUrl: string, patterns: seq<string>)
      requires Valid()
      modifies this`log
      ensures Valid()
      ensures log == old(log) + [SetHostPermissions(extensionUrl, patterns)]
    {
      Call(SetHostPermissions(extensionUrl, patterns));
    }

    /** render_thread.cc:278-282. */
    method OnSetNextPageID(nextPageId: int)
      requires Valid()
      modifies this`log
      ensures Valid()
      ensures log == old(log) + [SetNextPageId(nextPageId)]
    {
      Call(SetNextPageId(nextPageId));
    }

    /** render_thread.cc:287-303: splits the mappings into a name array and a
        colour array and hands both to the engine in one call. */
    method OnSetCSSColors(colors: seq<CM.ColorMapping>)
      requires Valid()
      modifies this`log
      ensures Valid()
      ensures log == old(log) + [SetNamedColors(CM.ColorNames(colors), CM.ColorValues(colors), |colors|)]
    {
      var names, values := SplitColorMappings(colors);
      assert names[..] == CM.ColorNames(colors);
      assert values[..] == CM.ColorValues(colors);
      Call(SetNamedColors(names[..], values[..], |colors|));
    }

    /** render_thread.cc:305-323: runs the gate, then creates the view. */
    method OnCreateNewView(parent: NativeViewId, viewId: int)
      requires Valid()
      modifies this`webkitInitialized, this`log
      ensures Valid()
      ensures webkitInitialized
      ensures log == old(log) + (GateEvents(old(webkitInitialized), bringUp) + [CreateView(parent, viewId)])
    {
      EnsureWebKitInitialized();
      Call(CreateView(parent, viewId));
      AppendAssoc(old(log), GateEvents(old(webkitInitialized), bringUp), [CreateView(parent, viewId)]);
    }

    /** render_thread.cc:325-331: runs the gate, then sets the cache capacities. */
    method OnSetCacheCapacities(minDeadCapacity: nat, maxDeadCapacity: nat, capacity: nat)
      requires Valid()
      modifies this`webkitInitialized, this`log
      ensures Valid()
      ensures webkitInitialized
      ensures log == old(log) + (GateEvents(old(webkitInitialized), bringUp)
                     + [SetCacheCapacities(minDeadCapacity, maxDeadCapacity, capacity)])
    {
      EnsureWebKitInitialized();
      Call(SetCacheCapacities(minDeadCapacity, maxDeadCapacity, capacity));
      AppendAssoc(old(log), GateEvents(old(webkitInitialized), bringUp),
                  [SetCacheCapacities(minDeadCapacity, maxDeadCapacity, capacity)]);
    }

    /** render_thread.cc:333-338: runs the gate, asks the engine for its
        resource statistics `stats` and sends them to the browser. */
    method OnGetCacheResourceStats(stats: StatsReport)
      requires Valid()
      modifies this`webkitInitialized, this`log
      ensures Valid()
      ensures webkitInitialized
      ensures log == old(log) + (GateEvents(old(webkitInitialized), bringUp)
                     + [GetResourceTypeStats, Send(ResourceTypeStats(stats))])
    {
      EnsureWebKitInitialized();
      ghost var gated := log;
      Call(GetResourceTypeStats);
      Call(Send(ResourceTypeStats(stats)));
      assert log == gated + [GetResourceTypeStats, Send(ResourceTypeStats(stats))];
      AppendAssoc(old(log), GateEvents(old(webkitInitialized), bringUp),
                  [GetResourceTypeStats, Send(ResourceTypeStats(stats))]);
    }

    /** render_thread.cc:340-342 and 193-195. */
    method OnGetRendererHistograms(sequenceNumber: int)
      requires Valid()
      modifies this`log
      ensures Valid()
      ensures log == old(log) + [SendHistograms(sequenceNumber)]
    {
      Call(SendHistograms(sequenceNumber));
    }

    /** render_thread.cc:484-487. */
    method OnExtensionMessageInvoke(functionName: string, args: seq<string>)
      requires Valid()
      modifies this`log
      ensures Valid()
      ensures log == old(log) + [InvokeExtensionFunction(functionName, args)]
    {
      Call(InvokeExtensionFunction(functionName, args));
    }

    /** render_thread.cc:489-497: the plugin cache is reset with plugin
        refresh disallowed, and refresh is allowed again afterwards. */
    method OnPurgePluginListCache()
      requires Valid()
      modifies this`log, this`pluginRefreshAllowed
      ensures Valid()
      ensures pluginRefreshAllowed
      ensures log == old(log) + [ResetPluginCache(false)]
    {
      pluginRefreshAllowed := false;
      var call := ResetPluginCache(pluginRefreshAllowed);
      pluginRefreshAllowed := true;
      Call(call);
    }

    /** render_thread.cc:189-191. */
    method Resolve(name: string)
      requires Valid()
      modifies this`log
      ensures Valid()
      ensures log == old(log) + [ResolveHostName(name)]
    {
      Call(ResolveHostName(name));
    }

    /** render_thread.cc:364-366. */
    method CloseIdleConnections()
      requires Valid()
      modifies this`log
      ensures Valid()
      ensures log == old(log) + [Send(HostMessage.CloseIdleConnections)]
    {
      Call(Send(HostMessage.CloseIdleConnections));
    }

    /** render_thread.cc:368-370. */
    method SetCacheMode(enabled: bool)
      requires Valid()
      modifies this`log
      ensures Valid()
      ensures log == old(log) + [Send(HostMessage.SetCacheMode(enabled))]
    {
      Call(Send(HostMessage.SetCacheMode(enabled)));
    }
  }

  /** render_thread.cc:290-301: fills the name array and the colour array
      index by index from the mappings. */
  method SplitColorMappings(colors: seq<CM.ColorMapping>) returns (names: array<ColorName>, values: array<Color>)
    ensures names.Length == |colors| && values.Length == |colors|
    ensures forall i | 0 <= i < |colors| :: names[i] == colors[i].name && values[i] == colors[i].color
  {
    var n := |colors|;
    names := new ColorName[n];
    values := new Color[n];
    var i := 0;
    while i < n
      invariant 0 <= i <= n
      invariant forall k | 0 <= k < i :: names[k] == colors[k].name && values[k] == colors[k].color
    {
      names[i] := colors[i].name;
      values[i] := colors[i].color;
      i := i + 1;
    }
  }

  /** Hiding the last visible widget arms the idle timer; if a widget is
      shown again before the timer fires, the stale timer neither notifies
      the engine nor arms another (render_thread.cc:165-187, 456-466). */
  method StaleIdleTimer(t: RenderThread, engineDead: bool, reclaimedAll: bool)
    requires t.Valid()
    requires t.hiddenWidgetCount + 1 == t.widgetCount
    modifies t`hiddenWidgetCount, t`idleDelay, t`posted, t`log
    ensures t.hiddenWidgetCount == old(t.hiddenWidgetCount)
    ensures t.idleDelay == InitialIdleDelay
    ensures t.posted == old(t.posted) + [PostedTask(IdleHandlerTask, 1000)]
    ensures t.log == old(t.log)
  {
    HideLastThenRestore(t);
    t.IdleHandler(engineDead, reclaimedAll);
  }

  /** Hiding the last visible widget and showing one again leaves the
      freshly armed timer pending. */
  method HideLastThenRestore(t: RenderThread)
    requires t.Valid()
    requires t.hiddenWidgetCount + 1 == t.widgetCount
    modifies t`hiddenWidgetCount, t`idleDelay, t`posted
    ensures t.Valid()
    ensures t.hiddenWidgetCount + 1 == t.widgetCount
    ensures t.idleDelay == InitialIdleDelay
    ensures t.posted == old(t.posted) + [PostedTask(IdleHandlerTask, 1000)]
  {
    t.WidgetHidden();
    t.WidgetRestored();
  }

  /** The statistics changing three times before the report task runs post a
      single task, and that task sends a single report after making sure the
      engine is up (render_thread.cc:344-362). */
  method CacheStatsCoalesce(t: RenderThread, usage: StatsReport)
    requires t.Valid() && !t.cacheStatsPending
    modifies t`cacheStatsPending, t`posted, t`webkitInitialized, t`log
    ensures t.Valid() && !t.cacheStatsPending
    ensures t.posted == old(t.posted) + [PostedTask(CacheStatsTask, 2000)]
    ensures t.log == old(t.log) + GateEvents(old(t.webkitInitialized), t.bringUp)
                     + [GetUsageStats, Send(UpdatedCacheStats(usage))]
  {
    RequestStatsThrice(t);
    t.InformHostOfCacheStats(usage);
  }

  /** Three requests while no report is pending post one report task. */
  method RequestStatsThrice(t: RenderThread)
    requires t.Valid() && !t.cacheStatsPending
    modifies t`cacheStatsPending, t`posted
    ensures t.Valid() && t.cacheStatsPending
    ensures t.posted == old(t.posted) + [PostedTask(CacheStatsTask, 2000)]
  {
    t.InformHostOfCacheStatsLater();
    t.InformHostOfCacheStatsLater();
    t.InformHostOfCacheStatsLater();
  }
  /** The first gate call on any valid thread whose engine is down runs the
      process's bring-up: both schemes get both policies, and Benchmarking
      and the media player are set up exactly under their conditions
      (render_thread.cc:386-454). */
  method FirstGateConfiguresEngine(t: RenderThread)
    requires t.Valid() && !t.webkitInitialized
    modifies t`webkitInitialized, t`log
    ensures t.webkitInitialized
    ensures t.log == old(t.log) + BringUp(t.platform, t.env)
    ensures var steps := t.log[|old(t.log)|..];
      && RegisterURLSchemeAsLocal(ChromeUIScheme) in steps
      && RegisterURLSchemeAsNoAccess(ChromeUIScheme) in steps
      && RegisterURLSchemeAsLocal(PrintScheme) in steps
      && RegisterURLSchemeAsNoAccess(PrintScheme) in steps
      && (Registers(steps, Benchmarking) <==> t.env.switches.enableBenchmarking)
      && (EnableMediaPlayer in steps <==> t.env.mediaLibraryInitialized)
  {
    t.EnsureWebKitInitialized();
    assert t.log[|old(t.log)|..] == t.bringUp;
    BringUpPairsSchemePolicies(t.platform, t.env);
    BringUpOptionalCapabilities(t.platform, t.env);
  }
}
