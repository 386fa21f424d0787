/** The initialization coordinator (AppManager): moves unknow -> loading ->
    success on the first connected network event, sets up the dependent managers
    behind a one-shot latch, and fans in the release state, the remote ad payload
    and the consent state into the ad registration. Its calls into other
    components are recorded as an effect log; the values those components send
    back arrive as input events. */
module App {
  import opened Wrappers
  import Release
  import Consent

  type Data = seq<bv8>

  datatype AppState = Unknown | Loading | Success | Timeout

  /** AppConfig: a plain carrier of the caller's settings. */
  datatype AppConfig = AppConfig(appID: string, issuerID: string, keyID: string, privateKey: string,
                                 adConfigKey: string, defaultData: Data, maxSdkKey: Option<string>,
                                 devKey: Option<string>, trackingTimeout: Option<real>)

  /** Calls the coordinator makes into other components. */
  datatype Effect =
    | StartRemote                                     // remoteManager.initialize()
    | InitRelease(config: Release.ReleaseConfig)      // releaseManager.initialize(...)
    | InitConsent(maxSdkKey: Option<string>)          // consentManager.initialize(...)
    | UpdateConsentCache(data: Data)                  // consentManager.update(consentData:)
    | Register(isRelease: bool, isConsent: bool, defaultData: Data, remoteData: Data)  // AdManager.register
    | ErrorCallback                                   // didError?()

  /** The latest value one CombineLatest3 subscription holds per source. */
  datatype Latest = Latest(release: Option<Release.ReleaseState>, remote: Option<Data>,
                           consent: Option<Consent.ConsentState>)

  /** One value sent by one of the three sources. */
  datatype SourceValue =
    | ReleaseValue(release: Release.ReleaseState)
    | RemoteValue(data: Data)
    | ConsentValue(consent: Consent.ConsentState)

  const NoValues: Latest := Latest(None, None, None)

  function Merge(latest: Latest, v: SourceValue): (r: Latest)
    ensures v.ReleaseValue? ==> r == latest.(release := Some(v.release))
    ensures v.RemoteValue? ==> r == latest.(remote := Some(v.data))
    ensures v.ConsentValue? ==> r == latest.(consent := Some(v.consent))
  {
    match v
    case ReleaseValue(s) => latest.(release := Some(s))
    case RemoteValue(d) => latest.(remote := Some(d))
    case ConsentValue(c) => latest.(consent := Some(c))
  }

  /** All three sources have sent at least once. */
  predicate Complete(latest: Latest)
  {
    latest.release.Some? && latest.remote.Some? && latest.consent.Some?
  }

  /** Once a subscription has heard from all three sources it stays complete:
      CombineLatest3 fires on every later value. */
  lemma MergeKeepsComplete(latest: Latest, v: SourceValue)
    requires Complete(latest)
    ensures Complete(Merge(latest, v))
  {
  }

  /** The release half of the ad permission (line 188). */
  predicate IsRelease(release: Release.ReleaseState)
  {
    release == Release.Live || release == Release.Error
  }

  /** The consent half of the ad permission (line 189). */
  predicate IsConsent(consent: Consent.ConsentState)
  {
    consent == Consent.Allow || consent == Consent.Error
  }

  /** The consent flag pushed to the ad networks agrees with the consent half
      of the ad permission for every resolved state. */
  lemma PrivacyConsentAgreesWithFanIn(consent: Consent.ConsentState)
    ensures Consent.PrivacyConsent(consent) <==> IsConsent(consent)
  {
  }

  /** As written, an Error resolution (reached from Unknown, the only state
      `change` acts in) permits ads in the fan-in but withholds consent from the
      networks. */
  lemma PrivacyConsentAsWrittenDisagreesWithFanIn()
    ensures IsConsent(Consent.Error) && !Consent.PrivacyConsentAsWritten(Consent.Error, Consent.Unknown)
  {
  }

  /** The registration one complete subscription makes. Failures fail open: only
      a build waiting for review (or never resolved) and a rejected (or never
      resolved) consent withhold permission. Debug builds pass the default
      payload as the remote one. */
  function Registration(latest: Latest, defaultData: Data, debug: bool): (e: Effect)
    requires Complete(latest)
    ensures e.Register? && e.defaultData == defaultData
    ensures !e.isRelease <==> latest.release.value in {Release.WaitReview, Release.Unknown}
    ensures !e.isConsent <==> latest.consent.value in {Consent.Reject, Consent.Unknown}
    ensures e.remoteData == if debug then defaultData else latest.remote.value
  {
    Register(IsRelease(latest.release.value), IsConsent(latest.consent.value), defaultData,
             if debug then defaultData else latest.remote.value)
  }

  /** The registrations the subscriptions `subs` make, in subscription order;
      each is an ad registration over the default payload. */
  function Fires(subs: seq<Latest>, defaultData: Data, debug: bool): (r: seq<Effect>)
    ensures |r| <= |subs|
    ensures forall k :: 0 <= k < |r| ==> r[k].Register? && r[k].defaultData == defaultData
  {
    if subs == [] then []
    else
      Fires(subs[..|subs| - 1], defaultData, debug) +
      (if Complete(subs[|subs| - 1]) then [Registration(subs[|subs| - 1], defaultData, debug)] else [])
  }

  /** The positions of the complete subscriptions, in increasing order. */
  function CompleteIndices(subs: seq<Latest>): (idx: seq<nat>)
    ensures |idx| <= |subs|
    ensures forall k :: 0 <= k < |idx| ==> idx[k] < |subs| && Complete(subs[idx[k]])
    ensures forall k, l :: 0 <= k < l < |idx| ==> idx[k] < idx[l]
    ensures forall j :: 0 <= j < |subs| && Complete(subs[j]) ==> j in idx
  {
    if subs == [] then []
    else
      var front := subs[..|subs| - 1];
      assert forall j :: 0 <= j < |front| ==> front[j] == subs[j];
      CompleteIndices(front) + (if Complete(subs[|subs| - 1]) then [|subs| - 1] else [])
  }

  /** The fan-in registers once for each complete subscription and for no
      other, in subscription order. */
  lemma {:induction false} FiresExactlyComplete(subs: seq<Latest>, defaultData: Data, debug: bool)
    ensures var idx := CompleteIndices(subs);
            |Fires(subs, defaultData, debug)| == |idx| &&
            forall k :: 0 <= k < |idx| ==>
              Fires(subs, defaultData, debug)[k] == Registration(subs[idx[k]], defaultData, debug)
  {
    if subs != [] {
      var front, last := subs[..|subs| - 1], subs[|subs| - 1];
      FiresExactlyComplete(front, defaultData, debug);
      assert subs == front + [last];
      FiresAppend(front, last, defaultData, debug);
      var idx, frontIdx := CompleteIndices(subs), CompleteIndices(front);
      var r, frontR := Fires(subs, defaultData, debug), Fires(front, defaultData, debug);
      assert idx == frontIdx + (if Complete(last) then [|subs| - 1] else []);
      forall k | 0 <= k < |idx|
        ensures r[k] == Registration(subs[idx[k]], defaultData, debug)
      {
        if k < |frontIdx| {
          assert r[k] == frontR[k];
          assert subs[idx[k]] == front[frontIdx[k]];
        }
      }
    }
  }

  lemma {:induction false} FiresAppend(subs: seq<Latest>, latest: Latest, defaultData: Data, debug: bool)
    ensures Fires(subs + [latest], defaultData, debug) ==
            Fires(subs, defaultData, debug) +
            (if Complete(latest) then [Registration(latest, defaultData, debug)] else [])
  {
    assert (subs + [latest])[..|subs|] == subs;
  }

  /** Firing the first i + 1 subscriptions adds the (i + 1)-th one's
      registration, if it is complete, to firing the first i. */
  lemma FiresStep(subs: seq<Latest>, i: nat, defaultData: Data, debug: bool)
    requires i < |subs|
    ensures Fires(subs[..i + 1], defaultData, debug) ==
            Fires(subs[..i], defaultData, debug) +
            (if Complete(subs[i]) then [Registration(subs[i], defaultData, debug)] else [])
  {
    assert subs[..i + 1] == subs[..i] + [subs[i]];
    FiresAppend(subs[..i], subs[i], defaultData, debug);
  }

  /** The subscriptions fire at all exactly when one of them has heard from
      all three sources. */
  lemma {:induction false} FiresIffSomeComplete(subs: seq<Latest>, defaultData: Data, debug: bool)
    ensures Fires(subs, defaultData, debug) != [] <==> exists k :: 0 <= k < |subs| && Complete(subs[k])
  {
    if subs != [] {
      var init := subs[..|subs| - 1];
      FiresIffSomeComplete(init, defaultData, debug);
      if exists k :: 0 <= k < |init| && Complete(init[k]) {
        var k :| 0 <= k < |init| && Complete(init[k]);
        assert subs[k] == init[k];
      }
      if exists k :: 0 <= k < |subs| && Complete(subs[k]) {
        var k :| 0 <= k < |subs| && Complete(subs[k]);
        if k < |init| {
          assert init[k] == subs[k];
        }
      }
    }
  }

  /** No entry of the log but the one at `at` initialises the release manager. */
  ghost predicate ReleaseInitOnlyAt(effects: seq<Effect>, at: int)
  {
    forall k :: 0 <= k < |effects| && effects[k].InitRelease? ==> k == at
  }

  /** The calls made when the first connected event arrives while loading
      (lines 217-224 with the latch body of lines 239-256). */
  function ConnectEffects(didConnectedConfigure: bool, config: AppConfig): (r: seq<Effect>)
    ensures r != [] && r[0] == StartRemote
    ensures InitConsent(config.maxSdkKey) in r
    ensures didConnectedConfigure ==> forall k :: 0 <= k < |r| ==> !r[k].InitRelease?
    ensures !didConnectedConfigure ==> |r| > 1 && r[1].InitRelease?
  {
    var release := Release.ReleaseConfig(config.appID, config.keyID, config.issuerID, config.privateKey);
    if didConnectedConfigure then [StartRemote, InitConsent(config.maxSdkKey)]
    else [StartRemote, InitRelease(release), InitConsent(config.maxSdkKey), InitConsent(config.maxSdkKey)]
  }

  class AppManager {
    var state: AppState
    var appConfig: Option<AppConfig>
    /** Latch of initilizedBeforeNetworkConnected; remoteManager is set, and the
        remote subscription exists, exactly when it is true. */
    var didConnectedConfigure: bool
    var adConfigStatus: bool
    var configStatus: bool
    /** timeoutTimer != nil. */
    var timeoutTimer: bool
    /** Timers scheduled so far. */
    var timersScheduled: nat
    /** Number of times addObservers ran (each adds one subscription per source). */
    var subscriptions: nat
    /** One CombineLatest3 subscription per addObservers run. */
    var combiners: seq<Latest>
    var effects: seq<Effect>
    /** didError is never assigned, so no error handler is ever installed. */
    var hasErrorHandler: bool
    /** The DEBUG compilation condition. */
    const isDebugBuild: bool
    /** Where the release manager's initialisation sits in the effect log
        (-1 before it). */
    ghost var releaseInitAt: int

    ghost predicate Valid()
      reads this
    {
      |combiners| == subscriptions &&
      (subscriptions > 0 <==> state != Unknown) &&
      (subscriptions > 0 ==> appConfig.Some?) &&
      (timeoutTimer ==> subscriptions > 0) &&
      (adConfigStatus ==> configStatus) &&
      ReleaseInitOnlyAt(effects, releaseInitAt) &&
      (didConnectedConfigure ==> 0 <= releaseInitAt < |effects| && effects[releaseInitAt].InitRelease?) &&
      (!didConnectedConfigure ==> releaseInitAt == -1)
    }

    /** The default payload passed on a registration. */
    function DefaultData(): Data
      reads this`appConfig
    {
      if appConfig.Some? then appConfig.value.defaultData else []
    }

    constructor (isDebugBuild: bool)
      ensures Valid()
      ensures state == Unknown && appConfig == None && !didConnectedConfigure
      ensures !adConfigStatus && !configStatus && !timeoutTimer && timersScheduled == 0
      ensures subscriptions == 0 && combiners == [] && effects == [] && !hasErrorHandler
      ensures this.isDebugBuild == isDebugBuild
    {
      state := Unknown;
      appConfig := None;
      didConnectedConfigure := false;
      adConfigStatus := false;
      configStatus := false;
      timeoutTimer := false;
      timersScheduled := 0;
      subscriptions := 0;
      combiners := [];
      effects := [];
      hasErrorHandler := false;
      this.isDebugBuild := isDebugBuild;
      releaseInitAt := -1;
    }

    /** The reachability sink (lines 212-224), run once per event whatever the
        number of subscriptions: only the first sink can pass the guard. */
    method HandleNetwork(isConnected: bool)
      requires Valid() && subscriptions > 0
      modifies this
      ensures Valid()
      ensures if isConnected && old(state) == Loading then
                state == Success && didConnectedConfigure &&
                effects == old(effects) + ConnectEffects(old(didConnectedConfigure), appConfig.value)
              else
                state == old(state) && didConnectedConfigure == old(didConnectedConfigure) &&
                effects == old(effects)
      ensures appConfig == old(appConfig) && subscriptions == old(subscriptions) && combiners == old(combiners)
      ensures adConfigStatus == old(adConfigStatus) && configStatus == old(configStatus)
      ensures timeoutTimer == old(timeoutTimer) && timersScheduled == old(timersScheduled)
      ensures hasErrorHandler == old(hasErrorHandler)
    {
      if !isConnected || state != Loading {
        return;
      }
      state := Success;
      if didConnectedConfigure {
        effects := effects + [StartRemote];
      }
      InitializedBeforeNetworkConnected();
      effects := effects + [InitConsent(appConfig.value.maxSdkKey)];
    }

    /** initilizedBeforeNetworkConnected: its body runs at most once. */
    method InitializedBeforeNetworkConnected()
      requires appConfig.Some?
      requires ReleaseInitOnlyAt(effects, releaseInitAt)
      requires didConnectedConfigure ==> 0 <= releaseInitAt < |effects| && effects[releaseInitAt].InitRelease?
      requires !didConnectedConfigure ==> releaseInitAt == -1
      modifies this`didConnectedConfigure, this`effects, this`releaseInitAt
      ensures didConnectedConfigure && ReleaseInitOnlyAt(effects, releaseInitAt)
      ensures 0 <= releaseInitAt < |effects| && effects[releaseInitAt].InitRelease?
      ensures old(didConnectedConfigure) ==> effects == old(effects)
      ensures !old(didConnectedConfigure) ==>
                effects == old(effects) +
                  [StartRemote,
                   InitRelease(Release.ReleaseConfig(appConfig.value.appID, appConfig.value.keyID,
                                                     appConfig.value.issuerID, appConfig.value.privateKey)),
                   InitConsent(appConfig.value.maxSdkKey)]
    {
      if didConnectedConfigure {
        return;
      }
      didConnectedConfigure := true;
      var config := appConfig.value;
      var added := [StartRemote,
                    InitRelease(Release.ReleaseConfig(config.appID, config.keyID, config.issuerID, config.privateKey)),
                    InitConsent(config.maxSdkKey)];
      releaseInitAt := |effects| + 1;
      effects := effects + added;
    }

    /** initialize: overwrites the config, then is ignored while loading;
        otherwise starts loading, adds a new set of subscriptions (the published
        reachability value is delivered to the new sink at once) and registers
        the timeout. */
    method Initialize(config: AppConfig, connectedNow: bool)
      requires Valid()
      modifies this
      ensures Valid() && appConfig == Some(config)
      ensures old(state) == Loading ==>
                state == Loading && subscriptions == old(subscriptions) && combiners == old(combiners) &&
                effects == old(effects) && timeoutTimer == old(timeoutTimer) &&
                timersScheduled == old(timersScheduled) && didConnectedConfigure == old(didConnectedConfigure)
      ensures old(state) != Loading ==>
                subscriptions == old(subscriptions) + 1 && combiners == old(combiners) + [NoValues] &&
                timeoutTimer &&
                timersScheduled == old(timersScheduled) + (if old(timeoutTimer) then 0 else 1) &&
                (connectedNow ==> state == Success && didConnectedConfigure &&
                                  effects == old(effects) + ConnectEffects(old(didConnectedConfigure), config)) &&
                (!connectedNow ==> state == Loading && effects == old(effects) &&
                                   didConnectedConfigure == old(didConnectedConfigure))
      ensures adConfigStatus == old(adConfigStatus) && configStatus == old(configStatus)
    {
      appConfig := Some(config);
      if state == Loading {
        return;
      }
      state := Loading;
      // addObservers
      subscriptions := subscriptions + 1;
      combiners := combiners + [NoValues];
      HandleNetwork(connectedNow);
      RegisterTimeout();
    }

    /** A reachability change (reachable && !connectionRequired). */
    method OnNetworkChanged(isConnected: bool)
      requires Valid()
      modifies this
      ensures Valid()
      ensures if subscriptions > 0 && isConnected && old(state) == Loading then
                state == Success && didConnectedConfigure &&
                effects == old(effects) + ConnectEffects(old(didConnectedConfigure), appConfig.value)
              else
                state == old(state) && didConnectedConfigure == old(didConnectedConfigure) &&
                effects == old(effects)
      ensures appConfig == old(appConfig) && subscriptions == old(subscriptions) && combiners == old(combiners)
      ensures adConfigStatus == old(adConfigStatus) && configStatus == old(configStatus)
      ensures timeoutTimer == old(timeoutTimer)
    {
      if subscriptions > 0 {
        HandleNetwork(isConnected);
      }
    }

    /** Each complete subscription of `subs`, in order, registers the ad
        configuration (lines 190-203); `fired` is whether any did. */
    method RegisterAll(subs: seq<Latest>) returns (fired: bool)
      modifies this`effects
      ensures effects == old(effects) + Fires(subs, DefaultData(), isDebugBuild)
      ensures fired <==> Fires(subs, DefaultData(), isDebugBuild) != []
    {
      var defaultData := DefaultData();
      fired := false;
      var i := 0;
      while i < |subs|
        invariant 0 <= i <= |subs|
        invariant effects == old(effects) + Fires(subs[..i], defaultData, isDebugBuild)
        invariant fired <==> Fires(subs[..i], defaultData, isDebugBuild) != []
      {
        FiresStep(subs, i, defaultData, isDebugBuild);
        if Complete(subs[i]) {
          effects := effects + [Registration(subs[i], defaultData, isDebugBuild)];
          fired := true;
        }
        i := i + 1;
      }
      assert subs[..i] == subs;
    }

    /** The complete subscriptions fire; if any did, both statuses are set and
        the timeout is released (lines 204-206). These writes are the same for
        every firing, so they are applied once after the registrations. */
    method FireAll(subs: seq<Latest>)
      modifies this`effects, this`adConfigStatus, this`configStatus, this`timeoutTimer
      ensures effects == old(effects) + Fires(subs, DefaultData(), isDebugBuild)
      ensures adConfigStatus == (old(adConfigStatus) || Fires(subs, DefaultData(), isDebugBuild) != [])
      ensures configStatus == (old(configStatus) || Fires(subs, DefaultData(), isDebugBuild) != [])
      ensures timeoutTimer == (old(timeoutTimer) && Fires(subs, DefaultData(), isDebugBuild) == [])
    {
      var fired := RegisterAll(subs);
      if fired {
        adConfigStatus := true;
        configStatus := true;
        ReleaseTimeout();
      }
    }

    /** A source value (a release state, a remote payload or a consent state)
        reaches every CombineLatest3 subscription; each one that then holds a
        value from all three sources fires. */
    method Deliver(v: SourceValue)
      requires Valid()
      modifies this`combiners, this`effects, this`adConfigStatus, this`configStatus, this`timeoutTimer
      ensures Valid()
      ensures |combiners| == |old(combiners)|
      ensures forall k :: 0 <= k < |combiners| ==> combiners[k] == Merge(old(combiners)[k], v)
      ensures effects == old(effects) + Fires(combiners, DefaultData(), isDebugBuild)
      ensures Fires(combiners, DefaultData(), isDebugBuild) != [] ==>
                adConfigStatus && configStatus && !timeoutTimer
      ensures Fires(combiners, DefaultData(), isDebugBuild) == [] ==>
                adConfigStatus == old(adConfigStatus) && configStatus == old(configStatus) &&
                timeoutTimer == old(timeoutTimer)
      ensures old(adConfigStatus) ==> adConfigStatus
      ensures old(configStatus) ==> configStatus
    {
      var current := combiners;
      combiners := seq(|current|, k requires 0 <= k < |current| => Merge(current[k], v));
      FireAll(combiners);
    }

    /** The remote manager reports a fetch state and the ad payload: only a
        success reaches the fan-in and then the consent cache, and only once
        the remote subscription exists (lines 243-255). */
    method OnRemoteState(succeeded: bool, data: Data)
      requires Valid()
      modifies this`combiners, this`effects, this`adConfigStatus, this`configStatus, this`timeoutTimer
      ensures Valid()
      ensures |combiners| == |old(combiners)|
      ensures !(didConnectedConfigure && succeeded) ==>
                combiners == old(combiners) && effects == old(effects) &&
                adConfigStatus == old(adConfigStatus) && configStatus == old(configStatus) &&
                timeoutTimer == old(timeoutTimer)
      ensures didConnectedConfigure && succeeded ==>
                (forall k :: 0 <= k < |combiners| ==> combiners[k] == Merge(old(combiners)[k], RemoteValue(data))) &&
                effects == old(effects) + Fires(combiners, DefaultData(), isDebugBuild) + [UpdateConsentCache(data)] &&
                (Fires(combiners, DefaultData(), isDebugBuild) != [] ==> adConfigStatus && configStatus && !timeoutTimer)
      ensures old(adConfigStatus) ==> adConfigStatus
      ensures old(configStatus) ==> configStatus
    {
      if !didConnectedConfigure || !succeeded {
        return;
      }
      Deliver(RemoteValue(data));
      effects := effects + [UpdateConsentCache(data)];
    }

    /** timeoutConfig: loading -> timeout, with the error callback; otherwise
        nothing. */
    method TimeoutConfig()
      requires Valid()
      modifies this
      ensures Valid()
      ensures old(state) == Loading ==>
                state == Timeout &&
                effects == old(effects) + (if hasErrorHandler then [ErrorCallback] else [])
      ensures old(state) != Loading ==> state == old(state) && effects == old(effects)
      ensures combiners == old(combiners) && subscriptions == old(subscriptions)
      ensures adConfigStatus == old(adConfigStatus) && configStatus == old(configStatus)
      ensures timeoutTimer == old(timeoutTimer) && didConnectedConfigure == old(didConnectedConfigure)
    {
      if state != Loading {
        return;
      }
      state := Timeout;
      if hasErrorHandler {
        effects := effects + [ErrorCallback];
      }
    }

    /** registerTimeout: does nothing if a timer already exists. */
    method RegisterTimeout()
      modifies this`timeoutTimer, this`timersScheduled
      ensures timeoutTimer
      ensures timersScheduled == old(timersScheduled) + (if old(timeoutTimer) then 0 else 1)
    {
      if timeoutTimer {
        return;
      }
      timeoutTimer := true;
      timersScheduled := timersScheduled + 1;
    }

    /** releaseTimeout: idempotent; leaves no timer. */
    method ReleaseTimeout()
      modifies this`timeoutTimer
      ensures !timeoutTimer
    {
      if !timeoutTimer {
        return;
      }
      timeoutTimer := false;
    }

    /** The scheduled timer fires: configStatus becomes true and the timer is
        released; the state does not change. */
    method TimerFired()
      requires Valid() && timeoutTimer
      modifies this
      ensures Valid()
      ensures configStatus && !timeoutTimer
      ensures state == old(state) && adConfigStatus == old(adConfigStatus) && effects == old(effects)
      ensures combiners == old(combiners) && didConnectedConfigure == old(didConnectedConfigure)
    {
      configStatus := true;
      ReleaseTimeout();
    }
  }

  // ---------------------------------------------------------------------------
  // Scenarios

  const SampleConfig: AppConfig :=
    AppConfig("app", "issuer", "key", "pem", "ads", [1, 2], Some("max"), None, None)

  /** Disconnected at start: loading. The first connected event succeeds and
      initialises the release manager once; reconnecting changes nothing. The
      consent manager is asked to initialise twice on that first success. */
  method ReconnectDoesNotReinitialize() returns (state: AppState, log: seq<Effect>)
    ensures state == Success
    ensures log == ConnectEffects(false, SampleConfig)
  {
    var m := new AppManager(false);
    m.Initialize(SampleConfig, false);
    m.OnNetworkChanged(true);
    m.OnNetworkChanged(false);
    m.OnNetworkChanged(true);
    state, log := m.state, m.effects;
  }

  /** A single subscription holding release Error and consent Error registers
      with both permissions granted. */
  lemma ErrorsRegisterPermissively(data: Data)
    ensures Fires([Latest(Some(Release.Error), Some(data), Some(Consent.Error))], SampleConfig.defaultData, false) ==
            [Register(true, true, SampleConfig.defaultData, data)]
  {
    var latest := Latest(Some(Release.Error), Some(data), Some(Consent.Error));
    assert [latest][..0] == [];
  }

  /** Release Error, then the remote payload, then consent Error: one
      registration that permits both, and the statuses are set. */
  method FanInFailsOpen(data: Data) returns (registered: Effect, adConfigured: bool, configured: bool, timer: bool)
    ensures registered == Register(true, true, SampleConfig.defaultData, data)
    ensures adConfigured && configured && !timer
  {
    var m := new AppManager(false);
    m.Initialize(SampleConfig, true);
    m.Deliver(ReleaseValue(Release.Error));
    assert m.combiners[0] == Latest(Some(Release.Error), None, None);
    m.OnRemoteState(true, data);
    assert m.combiners[0] == Latest(Some(Release.Error), Some(data), None);
    m.Deliver(ConsentValue(Consent.Error));
    assert m.combiners == [Latest(Some(Release.Error), Some(data), Some(Consent.Error))];
    ErrorsRegisterPermissively(data);
    registered := m.effects[|m.effects| - 1];
    adConfigured, configured, timer := m.adConfigStatus, m.configStatus, m.timeoutTimer;
  }

  /** Before the first connection the timer fires: configStatus only; the
      state stays loading and nothing is registered. */
  method TimerMarksConfiguredOnly() returns (state: AppState, adConfigured: bool, configured: bool)
    ensures state == Loading && !adConfigured && configured
  {
    var m := new AppManager(false);
    m.Initialize(SampleConfig, false);
    m.TimerFired();
    state, adConfigured, configured := m.state, m.adConfigStatus, m.configStatus;
  }
}
