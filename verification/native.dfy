/** The single-use AdMob native unit (AdMobNativeAd): wait -> loading ->
    {receive, error}. The first completion of a load (a received ad, a loader
    failure or the timeout) decides it; every later one is ignored. Loader
    callbacks and the timeout arrive as event methods; the unit's request and
    handler calls are recorded as a notice log. */
module Native {
  import opened Wrappers

  datatype NativeState = Wait | Loading | Receive | Error

  /** A NativeAd object handed back by the loader, by identity. */
  type AdId = nat

  /** A view controller, by identity. */
  type ViewControllerId = nat

  /** The native placement's configuration (Native). */
  datatype NativeConfig = NativeConfig(status: bool, id: string, placement: string,
                                       timeout: Option<real>, isFullScreen: Option<bool>)

  datatype Notice =
    | LoadRequested(unitId: string, portrait: bool)   // AdLoader(...).load, with the portrait option when full screen
    | Received                                        // didReceive?()
    | Errored                                         // didError?()

  class AdMobNativeAd {
    var nativeAd: Option<AdId>
    /** Held weakly by the source. */
    var rootViewController: Option<ViewControllerId>
    var adUnitID: Option<string>
    var placement: Option<string>
    var isFullScreen: bool
    var timeout: Option<real>
    var state: NativeState
    /** Timeout callbacks scheduled and not yet run. */
    var pendingTimeouts: nat
    var notices: seq<Notice>

    /** Loading starts only with a bound id. The notices are exactly one
        request once loading has started, followed by exactly one outcome once
        the state is decided; an ad is held exactly when one was received; at
        most one timeout is ever scheduled. */
    ghost predicate Valid()
      reads this
    {
      (state != Wait ==> adUnitID.Some?) &&
      (state == Wait ==> notices == [] && pendingTimeouts == 0) &&
      (state == Loading ==> |notices| == 1 && notices[0].LoadRequested?) &&
      (state == Receive ==> |notices| == 2 && notices[0].LoadRequested? && notices[1] == Received) &&
      (state == Error ==> |notices| == 2 && notices[0].LoadRequested? && notices[1] == Errored) &&
      (nativeAd.Some? <==> state == Receive) &&
      pendingTimeouts <= (if timeout.Some? then 1 else 0)
    }

    constructor ()
      ensures Valid()
      ensures nativeAd == None && rootViewController == None && adUnitID == None && placement == None
      ensures !isFullScreen && timeout == None && state == Wait && pendingTimeouts == 0 && notices == []
    {
      nativeAd := None;
      rootViewController := None;
      adUnitID := None;
      placement := None;
      isFullScreen := false;
      timeout := None;
      state := Wait;
      pendingTimeouts := 0;
      notices := [];
    }

    /** config(ad:rootViewController:into:): always takes the view controller;
        binds the placement and loads only when the configuration is enabled
        and nothing is bound yet. */
    method Config(ad: NativeConfig, rootViewController: Option<ViewControllerId>)
      requires Valid()
      modifies this
      ensures Valid()
      ensures this.rootViewController == rootViewController && nativeAd == old(nativeAd)
      ensures !ad.status || old(adUnitID).Some? ==>
                adUnitID == old(adUnitID) && placement == old(placement) && timeout == old(timeout) &&
                isFullScreen == old(isFullScreen) && state == old(state) && notices == old(notices) &&
                pendingTimeouts == old(pendingTimeouts)
      ensures ad.status && old(adUnitID).None? ==>
                adUnitID == Some(ad.id) && placement == Some(ad.placement) && timeout == ad.timeout &&
                isFullScreen == (if ad.isFullScreen.Some? then ad.isFullScreen.value else old(isFullScreen)) &&
                state == Loading && notices == [LoadRequested(ad.id, isFullScreen)] &&
                pendingTimeouts == (if ad.timeout.Some? then 1 else 0)
    {
      this.rootViewController := rootViewController;
      if !ad.status || adUnitID.Some? {
        return;
      }
      adUnitID := Some(ad.id);
      placement := Some(ad.placement);
      timeout := ad.timeout;
      if ad.isFullScreen.Some? {
        isFullScreen := ad.isFullScreen.value;
      }
      Load();
    }

    /** load(): only from wait with a bound id; starts the request and, when a
        timeout is configured, schedules it. */
    method Load()
      requires Valid()
      modifies this`state, this`notices, this`pendingTimeouts
      ensures Valid()
      ensures old(state) != Wait || old(adUnitID).None? ==>
                state == old(state) && notices == old(notices) && pendingTimeouts == old(pendingTimeouts)
      ensures old(state) == Wait && old(adUnitID).Some? ==>
                state == Loading && notices == [LoadRequested(adUnitID.value, isFullScreen)] &&
                pendingTimeouts == (if timeout.Some? then 1 else 0)
    {
      if state != Wait || adUnitID.None? {
        return;
      }
      state := Loading;
      notices := notices + [LoadRequested(adUnitID.value, isFullScreen)];
      if timeout.Some? {
        pendingTimeouts := pendingTimeouts + 1;
      }
    }

    /** The loader failed: decides Error, but only while loading. */
    method OnFailed()
      requires Valid()
      modifies this`state, this`notices
      ensures Valid()
      ensures old(state) == Loading ==> state == Error && notices == old(notices) + [Errored]
      ensures old(state) != Loading ==> state == old(state) && notices == old(notices)
    {
      if state != Loading {
        return;
      }
      state := Error;
      notices := notices + [Errored];
    }

    /** The loader delivered an ad: decides Receive and keeps the ad, but only
        while loading. */
    method OnReceived(ad: AdId)
      requires Valid()
      modifies this`state, this`nativeAd, this`notices
      ensures Valid()
      ensures old(state) == Loading ==>
                state == Receive && nativeAd == Some(ad) && notices == old(notices) + [Received]
      ensures old(state) != Loading ==>
                state == old(state) && nativeAd == old(nativeAd) && notices == old(notices)
    {
      if state != Loading {
        return;
      }
      state := Receive;
      nativeAd := Some(ad);
      notices := notices + [Received];
    }

    /** The scheduled timeout runs: decides Error, but only while loading. */
    method OnTimeout()
      requires Valid() && pendingTimeouts > 0
      modifies this`state, this`notices, this`pendingTimeouts
      ensures Valid() && pendingTimeouts == old(pendingTimeouts) - 1
      ensures old(state) == Loading ==> state == Error && notices == old(notices) + [Errored]
      ensures old(state) != Loading ==> state == old(state) && notices == old(notices)
    {
      pendingTimeouts := pendingTimeouts - 1;
      OnFailed();
    }
  }

  // ---------------------------------------------------------------------------
  // Scenarios

  /** The timeout decides the load; the ad that arrives afterwards is dropped. */
  method TimeoutBeatsLateAd() returns (state: NativeState, ad: Option<AdId>, log: seq<Notice>)
    ensures state == Error && ad == None
    ensures log == [LoadRequested("native", false), Errored]
  {
    var unit := new AdMobNativeAd();
    unit.Config(NativeConfig(true, "native", "home", Some(5.0), None), Some(1));
    unit.OnTimeout();
    unit.OnReceived(3);
    state, ad, log := unit.state, unit.nativeAd, unit.notices;
  }

  /** An ad that arrives first decides the load; a later failure and the
      timeout change nothing. */
  method AdBeatsTimeout() returns (state: NativeState, ad: Option<AdId>, log: seq<Notice>)
    ensures state == Receive && ad == Some(3)
    ensures log == [LoadRequested("native", true), Received]
  {
    var unit := new AdMobNativeAd();
    unit.Config(NativeConfig(true, "native", "home", Some(5.0), Some(true)), None);
    unit.OnReceived(3);
    unit.OnFailed();
    unit.OnTimeout();
    state, ad, log := unit.state, unit.nativeAd, unit.notices;
  }

  /** A disabled configuration binds nothing; a second enabled one after the
      first is ignored apart from its view controller. */
  method ConfigBindsOnce() returns (id: Option<string>, controller: Option<ViewControllerId>, log: seq<Notice>)
    ensures id == Some("first") && controller == Some(9)
    ensures log == [LoadRequested("first", false)]
  {
    var unit := new AdMobNativeAd();
    unit.Config(NativeConfig(false, "off", "home", None, None), Some(1));
    unit.Config(NativeConfig(true, "first", "home", None, None), Some(2));
    unit.Config(NativeConfig(true, "second", "feed", Some(2.0), Some(true)), Some(9));
    id, controller, log := unit.adUnitID, unit.rootViewController, unit.notices;
  }
}
