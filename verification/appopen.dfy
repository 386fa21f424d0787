/** The reusable AdMob app-open unit (AdMobAppOpenAd): a guarded load, a
    readiness check that can retry a failed load, a show that fails fast, and a
    reload after the ad is dismissed or fails to present. SDK replies arrive as
    event methods; what the unit reports to its handlers and asks of the SDK is
    recorded as a notice log. */
module AppOpen {
  import opened Wrappers
  import opened ReuseAd

  /** An AppOpenAd object handed back by the SDK, by identity. */
  type AdId = nat

  class AdMobAppOpenAd {
    var appOpenAd: Option<AdId>
    var adUnitID: Option<string>
    var name: Option<string>
    var placement: Option<string>
    var presentState: bool
    var isLoading: bool
    var retryAttempt: nat
    var notices: seq<Notice>

    /** A load in flight has no ad and a bound unit id, and every request but
        the one in flight has had its reply. */
    ghost predicate Valid()
      reads this
    {
      (isLoading ==> appOpenAd.None? && adUnitID.Some?) &&
      Pending(notices) == (if isLoading then 1 else 0)
    }

    /** isExist(). */
    predicate IsExist()
      reads this
    {
      appOpenAd.Some?
    }

    constructor ()
      ensures Valid()
      ensures appOpenAd == None && adUnitID == None && name == None && placement == None
      ensures !presentState && !isLoading && retryAttempt == 0 && notices == []
    {
      appOpenAd := None;
      adUnitID := None;
      name := None;
      placement := None;
      presentState := false;
      isLoading := false;
      retryAttempt := 0;
      notices := [];
    }

    /** load(): a no-op while loading, while an ad exists or before an id is
        bound; otherwise one request starts. */
    method Load()
      requires Valid()
      modifies this`isLoading, this`notices
      ensures Valid()
      ensures old(isLoading) || old(appOpenAd).Some? || old(adUnitID).None? ==>
                isLoading == old(isLoading) && notices == old(notices)
      ensures !old(isLoading) && old(appOpenAd).None? && old(adUnitID).Some? ==>
                isLoading && notices == old(notices) + [LoadRequested(adUnitID.value)]
    {
      if isLoading || appOpenAd.Some? || adUnitID.None? {
        return;
      }
      PendingAppend(notices, LoadRequested(adUnitID.value));
      isLoading := true;
      notices := notices + [LoadRequested(adUnitID.value)];
    }

    /** config(id:name:): binds the unit id and name, then loads. */
    method Config(id: string, name: string)
      requires Valid()
      modifies this`adUnitID, this`name, this`isLoading, this`notices
      ensures Valid()
      ensures adUnitID == Some(id) && this.name == Some(name)
      ensures old(isLoading) || old(appOpenAd).Some? ==> isLoading == old(isLoading) && notices == old(notices)
      ensures !old(isLoading) && old(appOpenAd).None? ==> isLoading && notices == old(notices) + [LoadRequested(id)]
    {
      adUnitID := Some(id);
      this.name := Some(name);
      Load();
    }

    /** The retry inside isReady(): with no ad and at least one failed attempt
        since the last success, load() is called. */
    method Retry()
      requires Valid()
      modifies this`isLoading, this`notices
      ensures Valid()
      ensures var retries := appOpenAd.None? && retryAttempt >= 1 && !old(isLoading) && adUnitID.Some?;
              (retries ==> isLoading && notices == old(notices) + [LoadRequested(adUnitID.value)]) &&
              (!retries ==> isLoading == old(isLoading) && notices == old(notices))
    {
      if appOpenAd.None? && retryAttempt >= 1 {
        Load();
      }
    }

    /** isReady(): whether an ad exists, with the retry above (a load cannot
        make an ad exist at once). */
    method IsReady() returns (ready: bool)
      requires Valid()
      modifies this`isLoading, this`notices
      ensures Valid()
      ensures ready <==> appOpenAd.Some?
      ensures var retries := appOpenAd.None? && retryAttempt >= 1 && !old(isLoading) && adUnitID.Some?;
              (retries ==> isLoading && notices == old(notices) + [LoadRequested(adUnitID.value)]) &&
              (!retries ==> isLoading == old(isLoading) && notices == old(notices))
    {
      ready := IsExist();
      Retry();
    }

    /** Reports one notice that is neither a load request nor a load reply. */
    method Report(notice: Notice)
      requires Valid() && !notice.LoadRequested? && !notice.LoadSucceeded? && !notice.LoadFailed?
      modifies this`notices
      ensures Valid() && notices == old(notices) + [notice]
    {
      PendingAppend(notices, notice);
      notices := notices + [notice];
    }

    /** show(...): refuses while an ad is presented or when not ready;
        otherwise remembers the placement and asks the ad to present. The load
        a not-ready check retries runs in a block dispatched to the main queue,
        after show returns, so the refusal is reported before its request. */
    method Show(placement: string) returns (requested: bool)
      requires Valid()
      modifies this`placement, this`isLoading, this`notices
      ensures Valid()
      ensures requested <==> !presentState && appOpenAd.Some?
      ensures this.placement == if requested then Some(placement) else old(this.placement)
      ensures presentState ==> isLoading == old(isLoading) && notices == old(notices) + [ShowRefused]
      ensures !presentState ==>
                var retries := appOpenAd.None? && retryAttempt >= 1 && !old(isLoading) && adUnitID.Some?;
                isLoading == (old(isLoading) || retries) &&
                notices == old(notices) + [if requested then PresentRequested else ShowRefused] +
                           (if retries then [LoadRequested(adUnitID.value)] else [])
    {
      if presentState {
        Report(ShowRefused);
        return false;
      }
      requested := IsExist();
      if requested {
        this.placement := Some(placement);
        Report(PresentRequested);
      } else {
        Report(ShowRefused);
      }
      Retry();
    }

    /** The load completion: a failure counts one more attempt and stores no
        ad; a success resets the attempts and stores the ad. */
    method OnLoadCompleted(ad: Option<AdId>)
      requires Valid() && isLoading
      modifies this`isLoading, this`retryAttempt, this`appOpenAd, this`notices
      ensures Valid() && !isLoading
      ensures ad.None? ==>
                retryAttempt == old(retryAttempt) + 1 && appOpenAd.None? && notices == old(notices) + [LoadFailed]
      ensures ad.Some? ==>
                retryAttempt == 0 && appOpenAd == ad && notices == old(notices) + [LoadSucceeded]
    {
      isLoading := false;
      match ad
      case None =>
        PendingAppend(notices, LoadFailed);
        retryAttempt := retryAttempt + 1;
        notices := notices + [LoadFailed];
      case Some(_) =>
        PendingAppend(notices, LoadSucceeded);
        retryAttempt := 0;
        appOpenAd := ad;
        notices := notices + [LoadSucceeded];
    }

    /** The ad failed to present: it is dropped and a new load starts. */
    method OnPresentFailed()
      requires Valid()
      modifies this`appOpenAd, this`isLoading, this`notices
      ensures Valid() && appOpenAd.None?
      ensures old(isLoading) || adUnitID.None? ==> notices == old(notices) + [ShowFailed] && isLoading == old(isLoading)
      ensures !old(isLoading) && adUnitID.Some? ==>
                isLoading && notices == old(notices) + [ShowFailed, LoadRequested(adUnitID.value)]
    {
      Report(ShowFailed);
      appOpenAd := None;
      Load();
    }

    /** The ad will present: presenting from now on. */
    method OnWillPresent()
      requires Valid()
      modifies this`presentState, this`notices
      ensures Valid() && presentState
      ensures notices == old(notices) + [WillPresent]
    {
      Report(WillPresent);
      presentState := true;
    }

    /** The ad was dismissed: dropped, no longer presenting, and a new load
        starts. */
    method OnDismissed()
      requires Valid()
      modifies this`appOpenAd, this`presentState, this`isLoading, this`notices
      ensures Valid() && appOpenAd.None? && !presentState
      ensures old(isLoading) || adUnitID.None? ==> notices == old(notices) + [Hidden] && isLoading == old(isLoading)
      ensures !old(isLoading) && adUnitID.Some? ==>
                isLoading && notices == old(notices) + [Hidden, LoadRequested(adUnitID.value)]
    {
      Report(Hidden);
      appOpenAd := None;
      presentState := false;
      Load();
    }
  }

  // ---------------------------------------------------------------------------
  // Scenarios

  /** A failed first load is retried by the next readiness check, once: a
      second check while that retry is in flight requests nothing more. */
  method FailedLoadIsRetriedOnce() returns (first: bool, second: bool, retry: nat, log: seq<Notice>)
    ensures !first && !second && retry == 1
    ensures log == [LoadRequested("unit"), LoadFailed, LoadRequested("unit")]
  {
    var unit := new AdMobAppOpenAd();
    unit.Config("unit", "splash");
    unit.OnLoadCompleted(None);
    first := unit.IsReady();
    second := unit.IsReady();
    retry, log := unit.retryAttempt, unit.notices;
  }

  /** Loaded, shown and presented: a second show is refused; dismissal drops
      the ad and starts the next load. */
  method DismissReloads() returns (shown: bool, again: bool, loading: bool, log: seq<Notice>)
    ensures shown && !again && loading
    ensures log == [LoadRequested("unit"), LoadSucceeded, PresentRequested, WillPresent,
                    ShowRefused, Hidden, LoadRequested("unit")]
  {
    var unit := new AdMobAppOpenAd();
    unit.Config("unit", "splash");
    unit.OnLoadCompleted(Some(7));
    shown := unit.Show("home");
    unit.OnWillPresent();
    again := unit.Show("home");
    unit.OnDismissed();
    loading, log := unit.isLoading, unit.notices;
  }

  /** Before any attempt has failed a missing ad is not retried: show is
      refused and nothing is requested. */
  method NoRetryBeforeFirstFailure() returns (shown: bool, log: seq<Notice>)
    ensures !shown && log == [ShowRefused]
  {
    var unit := new AdMobAppOpenAd();
    shown := unit.Show("home");
    log := unit.notices;
  }
}
