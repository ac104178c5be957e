/** The one-shot engine bring-up, RenderThread::EnsureWebKitInitialized
    (chrome/renderer/render_thread.cc:386-454): the ordered calls it makes
    the first time it runs. */
module WebKitGate {
  import opened Effects
  import opened SeqCounting

  /** render_thread.cc:390-397: V8 hooks, engine start, single-thread mode. */
  function StartEngine(): seq<Event> {
    [SetCounterFunction, SetCreateHistogramFunction, SetAddHistogramSampleFunction,
     WebKitInitialize, EnableV8SingleThreadMode]
  }

  /** A scheme is always marked local and no-access together, in that order. */
  function SchemePolicy(s: Scheme): seq<Event> {
    [RegisterURLSchemeAsLocal(s), RegisterURLSchemeAsNoAccess(s)]
  }

  /** Every entry registers an extension. */
  predicate AllRegistrations(s: seq<Event>) {
    forall i | 0 <= i < |s| :: s[i].RegisterExtension?
  }

  /** render_thread.cc:411-439: the extensions registered unconditionally;
      Gears is among them exactly on Windows. */
  function BuiltinExtensions(platform: Platform): (r: seq<Event>)
    ensures AllRegistrations(r)
    ensures Registers(r, Gears) <==> platform == Windows
    ensures !Registers(r, Benchmarking) && !Registers(r, Playback)
  {
    var gears := if platform == Windows then [RegisterExtension(Gears, AllPages)] else [];
    var rest :=
      [RegisterExtension(Interval, AllPages),
       RegisterExtension(LoadTimes, AllPages),
       RegisterExtension(External, AllPages),
       RegisterExtension(ExtensionProcessBindings, ForScheme(ExtensionScheme)),
       RegisterExtension(BaseJs, ContentScripts),
       RegisterExtension(BaseJs, ForScheme(ExtensionScheme)),
       RegisterExtension(JsonSchema, ContentScripts),
       RegisterExtension(JsonSchema, ForScheme(ExtensionScheme)),
       RegisterExtension(EventBindings, ContentScripts),
       RegisterExtension(EventBindings, ForScheme(ExtensionScheme)),
       RegisterExtension(RendererExtensionBindings, ContentScripts),
       RegisterExtension(RendererExtensionBindings, ForScheme(ExtensionScheme)),
       RegisterExtension(ExtensionApiTest, ForScheme(ExtensionScheme)),
       RegisterExtension(ExtensionApiTest, ContentScripts)];
    assert platform == Windows ==> gears[0].extension == Gears;
    RegistersConcat(gears, rest, Gears);
    RegistersConcat(gears, rest, Benchmarking);
    RegistersConcat(gears, rest, Playback);
    gears + rest
  }

  /** render_thread.cc:443-450: Benchmarking is registered exactly when its
      switch is set, Playback exactly when any of the playback, record or
      no-JS-randomness switches is set. */
  function OptionalExtensions(sw: Switches): (r: seq<Event>)
    ensures AllRegistrations(r)
    ensures Registers(r, Benchmarking) <==> sw.enableBenchmarking
    ensures Registers(r, Playback) <==> sw.playbackMode || sw.recordMode || sw.noJsRandomness
    ensures !Registers(r, Gears)
  {
    var bench := if sw.enableBenchmarking then [RegisterExtension(Benchmarking, AllPages)] else [];
    var playback := if sw.playbackMode || sw.recordMode || sw.noJsRandomness
                    then [RegisterExtension(Playback, AllPages)] else [];
    assert sw.enableBenchmarking ==> bench[0].extension == Benchmarking;
    assert playback != [] ==> playback[0].extension == Playback;
    RegistersConcat(bench, playback, Benchmarking);
    RegistersConcat(bench, playback, Playback);
    RegistersConcat(bench, playback, Gears);
    bench + playback
  }

  /** An extension is registered by a concatenation exactly when one of the parts registers it. */
  lemma RegistersConcat(a: seq<Event>, b: seq<Event>, x: Extension)
    ensures Registers(a + b, x) <==> Registers(a, x) || Registers(b, x)
  {
    if Registers(a + b, x) {
      var i :| 0 <= i < |a + b| && (a + b)[i].RegisterExtension? && (a + b)[i].extension == x;
      if i >= |a| {
        assert b[i - |a|] == (a + b)[i];
      } else {
        assert a[i] == (a + b)[i];
      }
    }
    if Registers(a, x) {
      var j :| 0 <= j < |a| && a[j].RegisterExtension? && a[j].extension == x;
      assert (a + b)[j] == a[j];
    }
    if Registers(b, x) {
      var j :| 0 <= j < |b| && b[j].RegisterExtension? && b[j].extension == x;
      assert (a + b)[|a| + j] == b[j];
    }
  }

  /** Everything the first call of EnsureWebKitInitialized does, in order. */
  function BringUp(platform: Platform, env: ProcessEnv): seq<Event> {
    StartEngine() + Configuration(platform, env)
  }

  /** Calls that configure the running engine. */
  predicate IsConfiguration(e: Event) {
    e.RegisterURLSchemeAsLocal? || e.RegisterURLSchemeAsNoAccess? ||
    e.RegisterExtension? || e.EnableMediaPlayer?
  }

  /** render_thread.cc:399-453: what follows the engine start. */
  function Configuration(platform: Platform, env: ProcessEnv): (r: seq<Event>)
    ensures forall i | 0 <= i < |r| :: IsConfiguration(r[i])
  {
    var rest := Extensions(platform, env.switches) + MediaPlayer(env);
    RestIsConfiguration(Extensions(platform, env.switches), MediaPlayer(env));
    SchemePolicies() + rest
  }

  /** Entries that register extensions or enable media. */
  predicate ExtensionsOrMedia(s: seq<Event>) {
    forall i | 0 <= i < |s| :: s[i].RegisterExtension? || s[i].EnableMediaPlayer?
  }

  lemma RestIsConfiguration(exts: seq<Event>, media: seq<Event>)
    requires AllRegistrations(exts)
    requires forall i | 0 <= i < |media| :: media[i] == EnableMediaPlayer
    ensures ExtensionsOrMedia(exts + media)
    ensures forall i | 0 <= i < |SchemePolicies() + (exts + media)| ::
              IsConfiguration((SchemePolicies() + (exts + media))[i])
  {
    ConcatAt(exts, media);
    ConcatAt(SchemePolicies(), exts + media);
  }

  /** render_thread.cc:399-409: the chrome: and print: scheme policies. */
  function SchemePolicies(): seq<Event> {
    SchemePolicy(ChromeUIScheme) + SchemePolicy(PrintScheme)
  }

  function Extensions(platform: Platform, sw: Switches): (r: seq<Event>)
    ensures AllRegistrations(r)
  {
    BuiltinExtensions(platform) + OptionalExtensions(sw)
  }

  /** render_thread.cc:452-453. */
  function MediaPlayer(env: ProcessEnv): seq<Event> {
    if env.mediaLibraryInitialized then [EnableMediaPlayer] else []
  }

  /** The engine is started exactly once, after the three V8 hooks and
      before every other step. */
  lemma BringUpStartsEngineOnce(platform: Platform, env: ProcessEnv)
    ensures var r := BringUp(platform, env);
      && CountIf(r, IsEngineStart) == 1
      && 3 < |r| && r[3] == WebKitInitialize
      && forall i | 0 <= i < |r| :: IsScriptHook(r[i]) <==> i < 3
  {
    StartThenConfigure(Configuration(platform, env));
  }

  lemma StartThenConfigure(conf: seq<Event>)
    requires forall i | 0 <= i < |conf| :: IsConfiguration(conf[i])
    ensures var r := StartEngine() + conf;
      && CountIf(r, IsEngineStart) == 1
      && 3 < |r| && r[3] == WebKitInitialize
      && forall i | 0 <= i < |r| :: IsScriptHook(r[i]) <==> i < 3
  {
    StartEngineCount();
    CountIfZero(conf, IsEngineStart);
    CountIfConcat(StartEngine(), conf, IsEngineStart);
    ConcatAt(StartEngine(), conf);
  }

  lemma StartEngineCount()
    ensures CountIf(StartEngine(), IsEngineStart) == 1
  {
    var hooks := [SetCounterFunction, SetCreateHistogramFunction, SetAddHistogramSampleFunction];
    assert StartEngine() == hooks + [WebKitInitialize] + [EnableV8SingleThreadMode];
    assert CountIf(hooks, IsEngineStart) == 0;
    assert CountIf([EnableV8SingleThreadMode], IsEngineStart) == 0;
    CountIfSingleton(WebKitInitialize, IsEngineStart);
    CountIfConcat(hooks, [WebKitInitialize], IsEngineStart);
    CountIfConcat(hooks + [WebKitInitialize], [EnableV8SingleThreadMode], IsEngineStart);
  }

  /** Indexing into a concatenation. */
  lemma ConcatAt(a: seq<Event>, b: seq<Event>)
    ensures forall i | 0 <= i < |a| :: (a + b)[i] == a[i]
    ensures forall i | |a| <= i < |a| + |b| :: (a + b)[i] == b[i - |a|]
  {
  }

  /** Bring-up makes none of the engine calls that are gated behind it and
      sends no statistics report. */
  lemma BringUpIsNeutral(platform: Platform, env: ProcessEnv)
    ensures var r := BringUp(platform, env);
      forall i | 0 <= i < |r| :: !IsGatedCall(r[i]) && !IsStatsReport(r[i])
  {
    ConcatAt(StartEngine(), Configuration(platform, env));
  }

  /** chrome: and print: are each registered as local and as no-access, and
      the two registrations always come as an adjacent pair; no other scheme
      is given this policy. */
  lemma BringUpPairsSchemePolicies(platform: Platform, env: ProcessEnv)
    ensures var r := BringUp(platform, env);
      && RegisterURLSchemeAsLocal(ChromeUIScheme) in r
      && RegisterURLSchemeAsNoAccess(ChromeUIScheme) in r
      && RegisterURLSchemeAsLocal(PrintScheme) in r
      && RegisterURLSchemeAsNoAccess(PrintScheme) in r
      && (forall i | 0 <= i < |r| && r[i].RegisterURLSchemeAsLocal? ::
            i + 1 < |r| && r[i + 1] == RegisterURLSchemeAsNoAccess(r[i].scheme))
      && (forall i | 0 <= i < |r| && r[i].RegisterURLSchemeAsNoAccess? ::
            0 < i && r[i - 1] == RegisterURLSchemeAsLocal(r[i].scheme))
      && (forall i | 0 <= i < |r| && (r[i].RegisterURLSchemeAsLocal? || r[i].RegisterURLSchemeAsNoAccess?) ::
            r[i].scheme != ExtensionScheme)
  {
    var rest := Extensions(platform, env.switches) + MediaPlayer(env);
    BringUpSplits(platform, env);
    PoliciesListed(rest);
    PoliciesPaired(rest);
  }

  /** Bring-up is the engine start, the scheme policies, then only
      extension registrations and media set-up. */
  lemma BringUpSplits(platform: Platform, env: ProcessEnv)
    ensures var rest := Extensions(platform, env.switches) + MediaPlayer(env);
      BringUp(platform, env) == StartEngine() + SchemePolicies() + rest && ExtensionsOrMedia(rest)
  {
    RestIsConfiguration(Extensions(platform, env.switches), MediaPlayer(env));
  }

  /** Both schemes get both policies. */
  lemma PoliciesListed(rest: seq<Event>)
    ensures var r := StartEngine() + SchemePolicies() + rest;
      && RegisterURLSchemeAsLocal(ChromeUIScheme) in r
      && RegisterURLSchemeAsNoAccess(ChromeUIScheme) in r
      && RegisterURLSchemeAsLocal(PrintScheme) in r
      && RegisterURLSchemeAsNoAccess(PrintScheme) in r
  {
    var head := StartEngine() + SchemePolicies();
    var r := head + rest;
    assert r[5] == RegisterURLSchemeAsLocal(ChromeUIScheme);
    assert r[6] == RegisterURLSchemeAsNoAccess(ChromeUIScheme);
    assert r[7] == RegisterURLSchemeAsLocal(PrintScheme);
    assert r[8] == RegisterURLSchemeAsNoAccess(PrintScheme);
  }

  /** Each local policy is followed by the no-access policy for the same
      scheme, each no-access policy follows one, and the extension scheme
      gets neither. */
  lemma PoliciesPaired(rest: seq<Event>)
    requires ExtensionsOrMedia(rest)
    ensures var r := StartEngine() + SchemePolicies() + rest;
      && (forall i | 0 <= i < |r| && r[i].RegisterURLSchemeAsLocal? ::
            i + 1 < |r| && r[i + 1] == RegisterURLSchemeAsNoAccess(r[i].scheme))
      && (forall i | 0 <= i < |r| && r[i].RegisterURLSchemeAsNoAccess? ::
            0 < i && r[i - 1] == RegisterURLSchemeAsLocal(r[i].scheme))
      && (forall i | 0 <= i < |r| && (r[i].RegisterURLSchemeAsLocal? || r[i].RegisterURLSchemeAsNoAccess?) ::
            r[i].scheme != ExtensionScheme)
  {
    var head := StartEngine() + SchemePolicies();
    ConcatAt(head, rest);
  }

  /** The optional capabilities follow the switches, the platform and the
      media library. */
  lemma BringUpOptionalCapabilities(platform: Platform, env: ProcessEnv)
    ensures var r := BringUp(platform, env);
      && (Registers(r, Benchmarking) <==> env.switches.enableBenchmarking)
      && (Registers(r, Playback) <==>
            env.switches.playbackMode || env.switches.recordMode || env.switches.noJsRandomness)
      && (Registers(r, Gears) <==> platform == Windows)
      && (EnableMediaPlayer in r <==> env.mediaLibraryInitialized)
  {
    var builtin, optional := BuiltinExtensions(platform), OptionalExtensions(env.switches);
    var media := MediaPlayer(env);
    assert BringUp(platform, env) == StartEngine() + SchemePolicies() + (builtin + optional) + media;
    RegistrationsOfParts(StartEngine() + SchemePolicies(), builtin + optional, media);
    RegistersConcat(builtin, optional, Benchmarking);
    RegistersConcat(builtin, optional, Playback);
    RegistersConcat(builtin, optional, Gears);
  }

  lemma RegistrationsOfParts(head: seq<Event>, exts: seq<Event>, media: seq<Event>)
    requires forall i | 0 <= i < |head| :: !head[i].RegisterExtension? && head[i] != EnableMediaPlayer
    requires AllRegistrations(exts)
    requires forall i | 0 <= i < |media| :: media[i] == EnableMediaPlayer
    ensures forall x :: Registers(head + exts + media, x) <==> Registers(exts, x)
    ensures EnableMediaPlayer in head + exts + media <==> media != []
  {
    forall x: Extension
      ensures Registers(head + exts + media, x) <==> Registers(exts, x)
    {
      RegistersConcat(head + exts, media, x);
      RegistersConcat(head, exts, x);
    }
    ConcatAt(head, exts);
    ConcatAt(head + exts, media);
    if media != [] {
      assert (head + exts + media)[|head + exts|] == EnableMediaPlayer;
    }
  }

  /** Calls that start the engine exactly once and otherwise make no gated
      call and send no statistics report. */
  predicate StartsEngineOnce(steps: seq<Event>) {
    && CountIf(steps, IsEngineStart) == 1
    && CountIf(steps, IsGatedCall) == 0
    && CountIf(steps, IsStatsReport) == 0
  }

  /** Bring-up is such a sequence on every platform and command line. */
  lemma BringUpStartsEngine(platform: Platform, env: ProcessEnv)
    ensures StartsEngineOnce(BringUp(platform, env))
  {
    BringUpStartsEngineOnce(platform, env);
    BringUpIsNeutral(platform, env);
    CountIfZero(BringUp(platform, env), IsGatedCall);
    CountIfZero(BringUp(platform, env), IsStatsReport);
  }

  /** What a call of the gate appends, given the bring-up calls: nothing
      once the engine is up. */
  function GateEvents(initialized: bool, bringUp: seq<Event>): seq<Event> {
    if initialized then [] else bringUp
  }
}
