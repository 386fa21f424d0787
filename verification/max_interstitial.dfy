/** The reusable AppLovin MAX interstitial unit (MaxInterstitialAd). Unlike the
    app-open unit, the ad object is created when a load's dispatched block
    runs, so the unit counts as having an ad from then on, and a failed load
    does not drop it.
    SDK delegate calls arrive as event methods; the unit's requests and handler
    calls are recorded as a notice log. */
module MaxInterstitial {
  import opened Wrappers
  import opened ReuseAd

  class MaxInterstitialAd {
    /** The MAInterstitialAd object, by the unit id it was created for. */
    var interstitialAd: Option<string>
    var adUnitID: Option<string>
    var name: Option<string>
    var placement: Option<string>
    var presentState: bool
    var isLoading: bool
    var retryAttempt: nat
    var notices: seq<Notice>

    /** A load in flight has a bound unit id, and every request but the one in
        flight has had its reply. */
    ghost predicate Valid()
      reads this
    {
      (isLoading ==> adUnitID.Some?) &&
      Pending(notices) == (if isLoading then 1 else 0)
    }

    /** isExist(). */
    predicate IsExist()
      reads this
    {
      interstitialAd.Some?
    }

    constructor ()
      ensures Valid()
      ensures interstitialAd == None && adUnitID == None && name == None && placement == None
      ensures !presentState && !isLoading && retryAttempt == 0 && notices == []
    {
      interstitialAd := None;
      adUnitID := None;
      name := None;
      placement := None;
      presentState := false;
      isLoading := false;
      retryAttempt := 0;
      notices := [];
    }

    /** Reports one notice that is neither a load request nor a load reply. */
    method Report(notice: Notice)
      requires Valid() && !notice.LoadRequested? && !notice.LoadSucceeded? && !notice.LoadFailed?
      modifies this`notices
      ensures Valid() && notices == old(notices) + [notice]
    {
      PendingAppend(notices, notice);
      notices := notices + [notice];
    }

    /** load(): a no-op while loading, while an ad object exists or before an
        id is bound; otherwise the ad object is created for the bound id and
        asked to load. */
    method Load()
      requires Valid()
      modifies this`isLoading, this`interstitialAd, this`notices
      ensures Valid()
      ensures old(isLoading) || old(interstitialAd).Some? || old(adUnitID).None? ==>
                isLoading == old(isLoading) && interstitialAd == old(interstitialAd) && notices == old(notices)
      ensures !old(isLoading) && old(interstitialAd).None? && old(adUnitID).Some? ==>
                isLoading && interstitialAd == adUnitID &&
                notices == old(notices) + [LoadRequested(adUnitID.value)]
    {
      if isLoading || interstitialAd.Some? || adUnitID.None? {
        return;
      }
      PendingAppend(notices, LoadRequested(adUnitID.value));
      isLoading := true;
      interstitialAd := adUnitID;
      notices := notices + [LoadRequested(adUnitID.value)];
    }

    /** config(id:name:): binds the unit id and name, then loads. */
    method Config(id: string, name: string)
      requires Valid()
      modifies this`adUnitID, this`name, this`isLoading, this`interstitialAd, this`notices
      ensures Valid()
      ensures adUnitID == Some(id) && this.name == Some(name)
      ensures old(isLoading) || old(interstitialAd).Some? ==>
                isLoading == old(isLoading) && interstitialAd == old(interstitialAd) && notices == old(notices)
      ensures !old(isLoading) && old(interstitialAd).None? ==>
                isLoading && interstitialAd == Some(id) && notices == old(notices) + [LoadRequested(id)]
    {
      adUnitID := Some(id);
      this.name := Some(name);
      Load();
    }

    /** The retry inside isReady(): with no ad object and at least one failed
        attempt since the last success, load() is called. */
    method Retry()
      requires Valid()
      modifies this`isLoading, this`interstitialAd, this`notices
      ensures Valid()
      ensures var retries := old(interstitialAd).None? && retryAttempt >= 1 && !old(isLoading) && adUnitID.Some?;
              (retries ==> isLoading && interstitialAd == adUnitID &&
                           notices == old(notices) + [LoadRequested(adUnitID.value)]) &&
              (!retries ==> isLoading == old(isLoading) && interstitialAd == old(interstitialAd) &&
                            notices == old(notices))
    {
      if interstitialAd.None? && retryAttempt >= 1 {
        Load();
      }
    }

    /** isReady(): whether an ad object exists, with the retry above. The
        retried load creates its object in a block dispatched to the main
        queue, which runs only after isReady() has answered, so that object
        never makes the answer true. */
    method IsReady() returns (ready: bool)
      requires Valid()
      modifies this`isLoading, this`interstitialAd, this`notices
      ensures Valid()
      ensures ready <==> old(interstitialAd).Some?
      ensures var retries := old(interstitialAd).None? && retryAttempt >= 1 && !old(isLoading) && adUnitID.Some?;
              (retries ==> isLoading && interstitialAd == adUnitID &&
                           notices == old(notices) + [LoadRequested(adUnitID.value)]) &&
              (!retries ==> isLoading == old(isLoading) && interstitialAd == old(interstitialAd) &&
                            notices == old(notices))
    {
      ready := IsExist();
      Retry();
    }

    /** show(...): refuses while presenting or when not ready; otherwise
        remembers the placement and asks the ad object to show. The load a
        not-ready check retries runs after show returns, so the refusal is
        reported before its request. */
    method Show(placement: string) returns (requested: bool)
      requires Valid()
      modifies this`placement, this`isLoading, this`interstitialAd, this`notices
      ensures Valid()
      ensures requested <==> !presentState && old(interstitialAd).Some?
      ensures this.placement == if requested then Some(placement) else old(this.placement)
      ensures presentState ==>
                isLoading == old(isLoading) && interstitialAd == old(interstitialAd) &&
                notices == old(notices) + [ShowRefused]
      ensures !presentState ==>
                var retries := old(interstitialAd).None? && retryAttempt >= 1 && !old(isLoading) && adUnitID.Some?;
                isLoading == (old(isLoading) || retries) &&
                interstitialAd == (if retries then adUnitID else old(interstitialAd)) &&
                notices == old(notices) + [if requested then PresentRequested else ShowRefused] +
                           (if retries then [LoadRequested(adUnitID.value)] else [])
    {
      if presentState {
        Report(ShowRefused);
        return false;
      }
      requested := IsExist();
      if requested {
        this.placement := Some(placement);
        Report(PresentRequested);
      } else {
        Report(ShowRefused);
      }
      Retry();
    }

    /** didLoad: the load finished; the attempts are reset. */
    method OnDidLoad()
      requires Valid() && isLoading
      modifies this`isLoading, this`retryAttempt, this`notices
      ensures Valid() && !isLoading && retryAttempt == 0
      ensures notices == old(notices) + [LoadSucceeded]
    {
      PendingAppend(notices, LoadSucceeded);
      isLoading := false;
      retryAttempt := 0;
      notices := notices + [LoadSucceeded];
    }

    /** didFailToLoadAd: one more attempt is counted; the ad object is kept. */
    method OnDidFailToLoad()
      requires Valid() && isLoading
      modifies this`isLoading, this`retryAttempt, this`notices
      ensures Valid() && !isLoading && retryAttempt == old(retryAttempt) + 1
      ensures notices == old(notices) + [LoadFailed]
    {
      PendingAppend(notices, LoadFailed);
      isLoading := false;
      retryAttempt := retryAttempt + 1;
      notices := notices + [LoadFailed];
    }

    /** didDisplay: presenting from now on. */
    method OnDidDisplay()
      requires Valid()
      modifies this`presentState, this`notices
      ensures Valid() && presentState
      ensures notices == old(notices) + [WillPresent]
    {
      Report(WillPresent);
      presentState := true;
    }

    /** didFail(toDisplay:): the ad object is dropped and a new load starts. */
    method OnDidFailToDisplay()
      requires Valid()
      modifies this`interstitialAd, this`isLoading, this`notices
      ensures Valid()
      ensures old(isLoading) || adUnitID.None? ==>
                interstitialAd.None? && isLoading == old(isLoading) && notices == old(notices) + [ShowFailed]
      ensures !old(isLoading) && adUnitID.Some? ==>
                interstitialAd == adUnitID && isLoading &&
                notices == old(notices) + [ShowFailed, LoadRequested(adUnitID.value)]
    {
      var before := notices;
      Report(ShowFailed);
      interstitialAd := None;
      Load();
      assert adUnitID.Some? && !old(isLoading) ==> notices == before + [ShowFailed, LoadRequested(adUnitID.value)];
    }

    /** didHide: the ad object is dropped, presenting ends, and a new load
        starts. */
    method OnDidHide()
      requires Valid()
      modifies this`interstitialAd, this`presentState, this`isLoading, this`notices
      ensures Valid() && !presentState
      ensures old(isLoading) || adUnitID.None? ==>
                interstitialAd.None? && isLoading == old(isLoading) && notices == old(notices) + [Hidden]
      ensures !old(isLoading) && adUnitID.Some? ==>
                interstitialAd == adUnitID && isLoading &&
                notices == old(notices) + [Hidden, LoadRequested(adUnitID.value)]
    {
      var before := notices;
      Report(Hidden);
      interstitialAd := None;
      presentState := false;
      Load();
      assert adUnitID.Some? && !old(isLoading) ==> notices == before + [Hidden, LoadRequested(adUnitID.value)];
    }
  }

  // ---------------------------------------------------------------------------
  // Scenarios

  /** A unit configured for "unit" whose first load has failed. */
  method FailedLoadUnit() returns (unit: MaxInterstitialAd)
    ensures fresh(unit) && unit.Valid()
    ensures unit.interstitialAd == Some("unit") && unit.adUnitID == Some("unit")
    ensures !unit.isLoading && !unit.presentState && unit.retryAttempt == 1
    ensures unit.notices == [LoadRequested("unit"), LoadFailed]
  {
    unit := new MaxInterstitialAd();
    unit.Config("unit", "inter");
    unit.OnDidFailToLoad();
  }

  /** After a failed load the ad object is kept: the unit reports ready,
      requests no retry however often it is asked, and a show is passed to the
      unloaded object. Only the display failure that follows starts a new
      load. */
  method FailedLoadKeepsUnitReady() returns (ready: bool, readyAgain: bool, shown: bool, log: seq<Notice>)
    ensures ready && readyAgain && shown
    ensures log == [LoadRequested("unit"), LoadFailed, PresentRequested, ShowFailed, LoadRequested("unit")]
  {
    var unit := FailedLoadUnit();
    ready := unit.IsReady();
    assert unit.interstitialAd == Some("unit") && !unit.isLoading && !unit.presentState;
    assert unit.notices == [LoadRequested("unit"), LoadFailed];
    readyAgain := unit.IsReady();
    assert unit.interstitialAd == Some("unit") && !unit.isLoading && !unit.presentState;
    assert unit.notices == [LoadRequested("unit"), LoadFailed];
    shown := unit.Show("level_end");
    assert !unit.isLoading && unit.adUnitID == Some("unit");
    assert unit.notices == [LoadRequested("unit"), LoadFailed, PresentRequested];
    unit.OnDidFailToDisplay();
    log := unit.notices;
  }

  /** A unit configured for "unit" that was shown while its first load was in
      flight and whose display then failed: the object is dropped and the
      reload is skipped, since a load is still in flight. */
  method DisplayFailedWhileLoading() returns (unit: MaxInterstitialAd, shown: bool)
    ensures fresh(unit) && unit.Valid() && shown
    ensures unit.interstitialAd.None? && unit.adUnitID == Some("unit")
    ensures unit.isLoading && !unit.presentState
    ensures unit.notices == [LoadRequested("unit"), PresentRequested, ShowFailed]
  {
    unit := new MaxInterstitialAd();
    unit.Config("unit", "inter");
    assert unit.interstitialAd == Some("unit") && unit.isLoading && !unit.presentState;
    assert unit.notices == [LoadRequested("unit")];
    shown := unit.Show("level_end");
    assert unit.interstitialAd == Some("unit") && unit.isLoading && unit.adUnitID == Some("unit");
    assert unit.notices == [LoadRequested("unit"), PresentRequested];
    unit.OnDidFailToDisplay();
  }

  /** A failed display drops the object while its load is still in flight, so
      the reload is skipped; once that load fails, a show finds no object and
      is refused, and only then does the retried load create a new one. */
  method RetryAfterDisplayFailureRefusesShow() returns (first: bool, second: bool, ready: bool,
                                                        log: seq<Notice>)
    ensures first && !second && ready
    ensures log == [LoadRequested("unit"), PresentRequested, ShowFailed, LoadFailed, ShowRefused,
                    LoadRequested("unit")]
  {
    var unit;
    unit, first := DisplayFailedWhileLoading();
    unit.OnDidFailToLoad();
    assert unit.retryAttempt >= 1 && !unit.isLoading && unit.adUnitID == Some("unit");
    assert unit.notices == [LoadRequested("unit"), PresentRequested, ShowFailed, LoadFailed];
    second := unit.Show("level_end");
    ready := unit.IsExist();
    log := unit.notices;
  }

  /** The unit is ready as soon as a load starts, before any reply. */
  method ReadyWhileLoading() returns (ready: bool, loading: bool)
    ensures ready && loading
  {
    var unit := new MaxInterstitialAd();
    unit.Config("unit", "inter");
    ready := unit.IsReady();
    loading := unit.isLoading;
  }

  /** Hidden after a show: presenting ends and the next load starts. */
  method HideReloads() returns (presenting: bool, loading: bool, log: seq<Notice>)
    ensures !presenting && loading
    ensures log == [LoadRequested("unit"), LoadSucceeded, PresentRequested, WillPresent, Hidden,
                    LoadRequested("unit")]
  {
    var unit := new MaxInterstitialAd();
    unit.Config("unit", "inter");
    unit.OnDidLoad();
    var shown := unit.Show("level_end");
    unit.OnDidDisplay();
    unit.OnDidHide();
    presenting, loading, log := unit.presentState, unit.isLoading, unit.notices;
  }
}
