# MediationAds orchestration core in Dafny

This project models the core of the MediationAds iOS library. That core coordinates the start-up of an app's advertising stack and runs the lifecycle of individual ad placements. There are four event-driven state machines:

- **Consent gate** (`ConsentManager`, `consent.dfy`).
  - The IAB Transparency & Consent Framework v2 test `canShowAds` is a pure function over the four `IABTCF_*` strings of the defaults store. It reads 1-based positions and uses Google's vendor id 755.
  - The consent state is first-wins. `change` acts once and sends once.
  - `requestConsentIfRequired` has a one-shot latch.
  - `initialize` starts a task that resolves Error or Allow after the consent request and the tracking authorisation; two such tasks interleave.
  - The privacy-options entry point `requestConsentUpdate` re-derives the state and bypasses the first-wins guard.
- **Release gate** (`ReleaseManager`, `release.dfy`).
  - The release state is first-wins.
  - It short-circuits on the cached released version.
  - There is a timeout, then the iTunes lookup, then App Store Connect. Both lookup steps are pure decision functions; each returns the state and the version to cache.
- **Initialization coordinator** (`AppManager`, `app.dfy`).
  - State moves `unknow -> loading -> success` on the first connected network event.
  - Dependent managers are set up behind a one-shot latch.
  - A CombineLatest3 fan-in takes the release state, the remote ad payload and the consent state, and registers the ad configuration with `isRelease = release in {live, error}` and `isConsent = consent in {allow, error}`.
  - Timer register and release are idempotent; the status flags are monotone.
- **Ad units**:
  - The reusable full-screen units `AdMobAppOpenAd` (`appopen.dfy`) and `MaxInterstitialAd` (`max_interstitial.dfy`). They have a guarded load, a readiness check that can retry a failed load, a show that fails fast, and a reload after dismissal or a presentation failure.
  - The single-use `AdMobNativeAd` (`native.dfy`), a `wait -> loading -> {receive, error}` machine in which only the first completion counts.

How the Swift is modelled:

- **Classes.** Each Swift class is a Dafny class. Its fields are updated in place by `modifies` methods, and a `Valid()` predicate is the invariant every event preserves.
- **Events.** Timer callbacks, SDK delegate calls, network replies and reachability changes are event methods, each applied whole. The consent gate's `initialize` task is split at its suspension points into events of its own, so two tasks can interleave.
- **Logs.** What a component asks of others is appended to a log field, and the contracts state that log exactly:
  - SDK load requests and handler calls go to `notices`.
  - Calls into other managers and `AdManager.register` go to `effects`.
  - Values sent on a `PassthroughSubject` go to `emitted`.
- **Persisted values.** `RELEASE_CACHE` and `CONSENT_CACHE` are fields.
- **Versions.** Version strings are parsed to `real`. A parse failure is `None`.
- **Shared types.** `wrappers.dfy` holds `Option`. `reuse_ad.dfy` holds the notice type shared by the two reusable units and `Pending`: load requests not yet answered, which each unit's invariant keeps at 1 while loading and 0 otherwise.

Behaviour of the code worth knowing when reading the model:

- **Coordinator timer.** The coordinator's timer only sets `configStatus` and releases itself (AppManager.swift:227-233, 281-288); it neither changes the state nor calls a failure callback. `timeoutConfig` (267-275) is never called, and `didError` is never assigned. `TimerFired` models the timer; `TimeoutConfig` is its own method with no handler installed.
- **Consent `initialize`.** Its task resolves Error when the consent request threw and Allow otherwise (ConsentManager.swift:177-191). `canShowAds` is consulted only by `requestConsentUpdate`.
- **Consent send order.** `isInitilizedSdk` is never set (ConsentManager.swift:40), so `change` sends every resolution at once and its deferred-start path cannot run.
- **Release lookups and reachability.** `ReleaseManager` does not check reachability itself; it is started from behind the coordinator's connected-event latch.
- **Ad-unit timeouts.** Only the native unit has a load timeout. The reusable units keep no state enum: the ad-exists and `isLoading` fields stand in for it.
- **Max interstitial after a failed load.** The `MAInterstitialAd` object is created when a load starts and is not dropped when the load fails. So after a failed load the unit reports ready, `isReady` never retries, and `show` hands the unloaded object to the SDK. Only the display failure that follows starts a new load (`MaxInterstitial.FailedLoadKeepsUnitReady`). When the object is missing instead, a retried load creates it only in its dispatched block, after `isReady` has answered, so that `show` is refused (`MaxInterstitial.RetryAfterDisplayFailureRefusesShow`).

## Model

| member | source | states |
|---|---|---|
| `Consent.StringFor` | Sources/MediationAds/Managers/ConsentManager.swift:401-404 | A key missing from the defaults store reads as the empty string; a present key reads as its value. |
| `Consent.HasAttribute` | Sources/MediationAds/Managers/ConsentManager.swift:418-420 | True exactly when the 1-based position `index` is granted by the bit string (character `index - 1` is `'1'`); so it implies the string has at least `index` characters. |
| `Consent.AllGranted` | Sources/MediationAds/Managers/ConsentManager.swift:423 | `allSatisfy` of `hasAttribute`: true exactly when every listed purpose is granted by the string. |
| `Consent.HasConsentFor` | Sources/MediationAds/Managers/ConsentManager.swift:422-424 | True exactly when the vendor consent holds and every listed purpose is consented to. |
| `Consent.HasConsentOrLegitimateInterestFor` | Sources/MediationAds/Managers/ConsentManager.swift:426-436 | True exactly when every listed purpose has either purpose and vendor legitimate interest, or purpose and vendor consent. |
| `Consent.CanShowAds` | Sources/MediationAds/Managers/ConsentManager.swift:398-416 | True exactly when the stored TCF strings grant purpose 1 consent and Google (755) vendor consent, and each of purposes 2, 7, 9, 10 is covered by legitimate interest or by consent. This is stated over the granted-id sets of the four strings. |
| `Consent.MissingKeyGrantsNothing` | Sources/MediationAds/Managers/ConsentManager.swift:401-404 | A missing key grants no position at all. |
| `Consent.EmptyStoreRejects` | Sources/MediationAds/Managers/ConsentManager.swift:398-416 | With neither consent string stored, ads are not allowed. |
| `Consent.AllOnesAllows` | Sources/MediationAds/Managers/ConsentManager.swift:398-416 | All-ones consent strings long enough to reach purpose 10 and vendor 755 allow ads, whatever the legitimate-interest strings hold. |
| `Consent.PurposeOneRequired` | Sources/MediationAds/Managers/ConsentManager.swift:410 | Without purpose 1 consent, ads are never allowed. |
| `Consent.GoogleVendorConsentRequired` | Sources/MediationAds/Managers/ConsentManager.swift:406-410 | Without Google's vendor consent, ads are never allowed; vendor legitimate interest cannot replace it. |
| `Consent.OnlyGoogleBitsMatter` | Sources/MediationAds/Managers/ConsentManager.swift:398-416 | Two stores that agree on purposes 1, 2, 7, 9, 10 and on vendor 755 get the same decision. |
| `Consent.PrivacyConsentAsWritten` | Sources/MediationAds/Managers/ConsentManager.swift:494 | The flag as written, over the new state and the state being left: unless the state being left is Error, consent is reported exactly for Allow. |
| `Consent.PrivacyConsentAsWrittenIgnoresError` | Sources/MediationAds/Managers/ConsentManager.swift:493-494 | As written, the privacy flag reads the state being left; the first-wins guard has just required that state to be Unknown. So the flag is true for Allow only, and an Error resolution reports no consent. |
| `Consent.PrivacyConsent` | Sources/MediationAds/Managers/ConsentManager.swift:493-494 | Corrected flag: consent is reported exactly for Allow and Error (the fail-open states), never for Reject. |
| `Consent.ConsentManager.constructor` | Sources/MediationAds/Managers/ConsentManager.swift:32-40 | A fresh manager is Unknown, has sent nothing, has not requested consent, has started no task, and holds the given store and cache. |
| `Consent.ConsentManager.Change` | Sources/MediationAds/Managers/ConsentManager.swift:316-359 | First-wins: it acts only from Unknown with a state other than Unknown. It then sets the state, pushes the corrected privacy flag `PrivacyConsent` (see Findings; line 494 as written computes `PrivacyConsentAsWritten`) and sends exactly one value. Otherwise nothing changes. |
| `Consent.ConsentManager.Initialize` | Sources/MediationAds/Managers/ConsentManager.swift:166-178 | Records the AppLovin key and starts a new task, appended to the task list; nothing else changes. |
| `Consent.ConsentManager.RequestConsentIfRequired` | Sources/MediationAds/Managers/ConsentManager.swift:94-99 | The task's body enters `requestConsentIfRequired`. If the latch is already taken it returns without throwing and the task goes on to the authorisation; otherwise it takes the latch, the request count becomes 1, and the task suspends in the request. The invariant keeps at most one task in the request. |
| `Consent.ConsentManager.ConsentRequestReturned` | Sources/MediationAds/Managers/ConsentManager.swift:103-123 | The request throws exactly when the info update, the top controller or the form fails; a completed form leaves its TCF strings in the store. The task then awaits the authorisation and remembers whether the request threw. |
| `Consent.ConsentManager.AuthorizationReturned` | Sources/MediationAds/Managers/ConsentManager.swift:179-190 | After the tracking authorisation the task finishes with Error if its request threw and Allow otherwise, without consulting `canShowAds`, through first-wins: an already-resolved state is kept and at most one value is ever sent. |
| `Consent.ConsentManager.RequestConsentUpdate` | Sources/MediationAds/Managers/ConsentManager.swift:43-92 | No top controller or a form error: completes Error and changes nothing. Already Allow: completes Allow. Otherwise the state becomes Allow or Reject from `canShowAds` on the new strings, bypassing first-wins and sending nothing. The flag is pushed, and the SDKs start only on Allow. |
| `Consent.ConsentManager.Update` | Sources/MediationAds/Managers/ConsentManager.swift:201-203 | The cache reads back as the decoded payload, or as nil when decoding failed; nothing else changes. |
| `Consent.InitializeTwiceKeepsFirstResolution` | Sources/MediationAds/Managers/ConsentManager.swift:166-192 | A task whose info update fails resolves Error. A second initialize after it has finished neither re-requests nor changes the state, and exactly `[Error]` is sent. |
| `Consent.BackToBackInitializeResolvesAllow` | Sources/MediationAds/Managers/ConsentManager.swift:166-192 | Two initialize calls back to back, as the coordinator makes them (AppManager.swift:249 then 224): the second task passes the latch taken by the first (lines 95-97) and resolves Allow while the first is still in the request, so the failing request resolves nothing and exactly `[Allow]` is sent. |
| `Consent.UpdateAfterErrorRederives` | Sources/MediationAds/Managers/ConsentManager.swift:43-92 | After an Error resolution, an update with empty TCF strings moves the state to Reject, while only `[Error]` was ever sent. |
| `Consent.UpdateAfterAllowKeepsAllow` | Sources/MediationAds/Managers/ConsentManager.swift:63-66 | Once Allow, an update completes Allow whatever the new strings hold. |
| `Release.ItunesReleaseState` | Sources/MediationAds/Managers/ReleaseManager.swift:100-132 | No bundle id, a thrown request or an unparsable first version gives Error. No results gives Unknown. A first version at least the current one gives Live and is cached. A lower one gives Unknown. It never gives WaitReview, and it caches exactly when Live. |
| `Release.FirstReadyForSale` | Sources/MediationAds/Managers/ReleaseManager.swift:141 | The index of the first `READY_FOR_SALE` version, if any; no earlier entry has that state. None means no entry has it. |
| `Release.AppStoreConnectReleaseState` | Sources/MediationAds/Managers/ReleaseManager.swift:134-164 | No config or a thrown request gives Error. With no `READY_FOR_SALE` version it gives WaitReview. Otherwise the first such version decides: unparsable gives Error, at least the current one gives Live and caches that released version, lower gives WaitReview and caches nothing. It is never Unknown, and it caches exactly when Live. |
| `Release.ReleaseManager.constructor` | Sources/MediationAds/Managers/ReleaseManager.swift:34-39 | Unknown, nothing sent, no lookup, with the persisted cache. |
| `Release.ReleaseManager.Change` | Sources/MediationAds/Managers/ReleaseManager.swift:166-185 | Takes effect only while Unknown, and each effective call sends exactly one value. The invariant `SentFor` keeps the resolved state as the last and only non-Unknown value sent. |
| `Release.ReleaseManager.Fetch` | Sources/MediationAds/Managers/ReleaseManager.swift:187-189 | The manager's released version is reloaded from the cache. |
| `Release.ReleaseManager.Update` | Sources/MediationAds/Managers/ReleaseManager.swift:191-194 | Writes the cache and reloads it, so both hold the written version. |
| `Release.ReleaseManager.Initialize` | Sources/MediationAds/Managers/ReleaseManager.swift:43-52 | Stores the credentials, reloads the cache and checks, with the outcomes of `Check`. |
| `Release.ReleaseManager.Check` | Sources/MediationAds/Managers/ReleaseManager.swift:56-98 | A missing or unparsable build version resolves Error. A build version not above the cached one resolves Live with no lookup. Otherwise it starts exactly one timeout and one lookup, and leaves the state alone. |
| `Release.ReleaseManager.TimeoutFired` | Sources/MediationAds/Managers/ReleaseManager.swift:72-82 | Resolves Error only while still Unknown; otherwise no effect. |
| `Release.ReleaseManager.ItunesReplied` | Sources/MediationAds/Managers/ReleaseManager.swift:83-96 | Live or Error from iTunes is applied first-wins and ends the lookup. Unknown moves on to App Store Connect without touching the state. The cache only grows, and a new cached value is at least the build version. |
| `Release.ReleaseManager.AppStoreConnectReplied` | Sources/MediationAds/Managers/ReleaseManager.swift:89-92 | The App Store Connect decision is applied first-wins, and the cache only grows. |
| `Release.CachedVersionShortCircuits` | Sources/MediationAds/Managers/ReleaseManager.swift:68-70 | Build 1.5 with 2.0 cached: Live, no lookup started, `[Live]` sent. |
| `Release.ItunesConfirmsRelease` | Sources/MediationAds/Managers/ReleaseManager.swift:119-122 | Build 2.0 with 1.5 cached and iTunes reporting 2.0: Live, and the cache advances to 2.0. |
| `Release.NothingReadyForSaleWaitsReview` | Sources/MediationAds/Managers/ReleaseManager.swift:141-144 | Build 2.0 with 1.5 cached, no iTunes result and no `READY_FOR_SALE` version: WaitReview, cache unchanged. |
| `Release.TimeoutBeatsLateReply` | Sources/MediationAds/Managers/ReleaseManager.swift:72-82 | The timeout resolves Error first. A late iTunes Live cannot change the state or send again, but it still advances the cache. |
| `App.Complete` | MediationAds/Sources/MediationAds/Managers/AppManager.swift:185-186 | A subscription delivers to its sink only once it holds a value from each of the three sources (the CombineLatest3 condition); a definition, with `App.MergeKeepsComplete` and `App.FiresIffSomeComplete` stating its consequences. |
| `App.MergeKeepsComplete` | MediationAds/Sources/MediationAds/Managers/AppManager.swift:185-186 | Once complete, a subscription stays complete whatever value arrives next, so it fires on every later value. |
| `App.IsRelease` | MediationAds/Sources/MediationAds/Managers/AppManager.swift:188 | Release permission: Live or Error; a definition, its meaning stated through `App.Registration`. |
| `App.IsConsent` | MediationAds/Sources/MediationAds/Managers/AppManager.swift:189 | Consent permission: Allow or Error; a definition, its meaning stated through `App.Registration` and `App.PrivacyConsentAgreesWithFanIn`. |
| `App.Merge` | MediationAds/Sources/MediationAds/Managers/AppManager.swift:185 | A value from one source replaces that source's latest value and keeps the other two. |
| `App.Registration` | MediationAds/Sources/MediationAds/Managers/AppManager.swift:188-200 | A complete subscription registers. Release permission is withheld exactly for WaitReview and Unknown; consent permission exactly for Reject and Unknown. The remote payload is the default payload in debug builds and the received one otherwise. |
| `App.Fires` | MediationAds/Sources/MediationAds/Managers/AppManager.swift:185-208 | The registrations of one delivered value: no more than there are subscriptions, and every call made is an ad registration over the default payload. |
| `App.CompleteIndices` | MediationAds/Sources/MediationAds/Managers/AppManager.swift:185-208 | The positions of exactly the complete subscriptions, each once, in increasing order. |
| `App.FiresExactlyComplete` | MediationAds/Sources/MediationAds/Managers/AppManager.swift:185-208 | The fan-in registers once for each complete subscription and for no other, in subscription order: entry `k` is the registration of the `k`-th complete subscription. |
| `App.FiresIffSomeComplete` | MediationAds/Sources/MediationAds/Managers/AppManager.swift:185-208 | The fan-in fires exactly when some subscription holds a value from all three sources. |
| `App.PrivacyConsentAgreesWithFanIn` | MediationAds/Sources/MediationAds/Managers/AppManager.swift:189 | The corrected privacy flag and the fan-in's consent permission agree for every consent state. |
| `App.PrivacyConsentAsWrittenDisagreesWithFanIn` | Sources/MediationAds/Managers/ConsentManager.swift:494 | As written, an Error resolution is permissive in the fan-in but withholds consent from the mediation networks. |
| `App.AppManager.constructor` | MediationAds/Sources/MediationAds/Managers/AppManager.swift:36-56 | Unknown, with no subscriptions, no timer, statuses false and nothing called. |
| `App.ConnectEffects` | MediationAds/Sources/MediationAds/Managers/AppManager.swift:217-256 | The calls of the first connected event start with the remote manager and always initialise the consent manager; the release manager is initialised (second call) exactly when the latch was not yet taken, and never otherwise. |
| `App.AppManager.HandleNetwork` | MediationAds/Sources/MediationAds/Managers/AppManager.swift:211-225 | Only a connected event while loading acts: the state becomes success and the remote, release and consent calls are made as `ConnectEffects`. Any other event changes nothing. |
| `App.AppManager.InitializedBeforeNetworkConnected` | MediationAds/Sources/MediationAds/Managers/AppManager.swift:239-259 | Latched: the first call starts the remote manager and initialises the release and consent managers. Every later call does nothing, so the release manager is initialised once (the only `InitRelease` in the log). |
| `App.AppManager.Initialize` | MediationAds/Sources/MediationAds/Managers/AppManager.swift:58-71 | The config is overwritten before the guard. While loading nothing else changes. Otherwise it is loading (or success at once if the network is already up), adds one subscription and registers the timer. The statuses are untouched. |
| `App.AppManager.OnNetworkChanged` | MediationAds/Sources/MediationAds/Managers/AppManager.swift:211-225 | Moves loading to success only on a connected event once subscribed. Disconnects and events after success change nothing, so reconnection never re-initialises. |
| `App.AppManager.RegisterAll` | MediationAds/Sources/MediationAds/Managers/AppManager.swift:190-200 | Appends, in subscription order, exactly the registrations of the complete subscriptions, and reports whether any fired. |
| `App.AppManager.FireAll` | MediationAds/Sources/MediationAds/Managers/AppManager.swift:186-208 | After any registration both statuses are true and the timer is released. Without one they are unchanged. |
| `App.AppManager.Deliver` | MediationAds/Sources/MediationAds/Managers/AppManager.swift:185-208 | A source value is merged into every subscription, and each complete one registers. After any registration both statuses are set and the timer is gone. The statuses are never reset. |
| `App.AppManager.OnRemoteState` | MediationAds/Sources/MediationAds/Managers/AppManager.swift:251-257 | Only a success reaches the fan-in and then the consent cache, and only after the latch has created the remote subscription. |
| `App.AppManager.TimeoutConfig` | MediationAds/Sources/MediationAds/Managers/AppManager.swift:267-275 | Loading becomes timeout, with the error callback if one is installed. In any other state nothing changes. |
| `App.AppManager.RegisterTimeout` | MediationAds/Sources/MediationAds/Managers/AppManager.swift:279-289 | Leaves a timer. It schedules one only if none exists. |
| `App.AppManager.ReleaseTimeout` | MediationAds/Sources/MediationAds/Managers/AppManager.swift:291-295 | Idempotent: leaves no timer. |
| `App.AppManager.TimerFired` | MediationAds/Sources/MediationAds/Managers/AppManager.swift:281-288 | Sets `configStatus` and clears the timer. The state, `adConfigStatus` and the log are unchanged. |
| `App.ReconnectDoesNotReinitialize` | MediationAds/Sources/MediationAds/Managers/AppManager.swift:211-225 | Disconnected at start, then connected, disconnected and connected again: success, and the log holds the first connection's calls only. That is one release initialisation and two consent initialisations. |
| `App.ErrorsRegisterPermissively` | MediationAds/Sources/MediationAds/Managers/AppManager.swift:188-200 | A single subscription holding release Error and consent Error registers with both permissions granted and the remote payload. |
| `App.FanInFailsOpen` | MediationAds/Sources/MediationAds/Managers/AppManager.swift:185-208 | Release Error, a remote payload and consent Error register with both permissions, and set both statuses. |
| `App.TimerMarksConfiguredOnly` | MediationAds/Sources/MediationAds/Managers/AppManager.swift:227-233 | A timer firing before any connection sets `configStatus` only; the state stays loading. |
| `AppOpen.AdMobAppOpenAd.constructor` | Sources/MediationAds/Supports/Ad/AdMob/Ads/AdMobAppOpenAd.swift:13-19 | A fresh unit holds no ad, no unit id, name or placement, is neither presenting nor loading, has made no attempt and has reported nothing. |
| `AppOpen.AdMobAppOpenAd.IsExist` | Sources/MediationAds/Supports/Ad/AdMob/Ads/AdMobAppOpenAd.swift:42-44 | Whether an ad is held; a definition, which `IsReady` returns. |
| `AppOpen.AdMobAppOpenAd.Load` | Sources/MediationAds/Supports/Ad/AdMob/Ads/AdMobAppOpenAd.swift:118-137 | A no-op while loading, while an ad exists or with no unit id. Otherwise exactly one load request for the bound id is added. |
| `AppOpen.AdMobAppOpenAd.Config` | Sources/MediationAds/Supports/Ad/AdMob/Ads/AdMobAppOpenAd.swift:32-36 | Binds the id and name, then loads under the same guard. |
| `AppOpen.AdMobAppOpenAd.Retry` | Sources/MediationAds/Supports/Ad/AdMob/Ads/AdMobAppOpenAd.swift:111-114 | The retry inside `isReady`: a load is started exactly when no ad exists, at least one attempt failed, none is in flight and an id is bound; otherwise nothing changes. |
| `AppOpen.AdMobAppOpenAd.IsReady` | Sources/MediationAds/Supports/Ad/AdMob/Ads/AdMobAppOpenAd.swift:111-116 | Returns whether an ad exists. A load is started only when no ad exists, at least one attempt failed and none is in flight. |
| `AppOpen.AdMobAppOpenAd.Show` | Sources/MediationAds/Supports/Ad/AdMob/Ads/AdMobAppOpenAd.swift:46-73 | Presents exactly when not presenting and an ad exists, remembering the placement. Otherwise it reports the show failure and presents nothing; a load retried by the readiness check is requested after that report, as its dispatched block runs after `show` returns. While presenting it does not even check readiness. |
| `AppOpen.AdMobAppOpenAd.OnLoadCompleted` | Sources/MediationAds/Supports/Ad/AdMob/Ads/AdMobAppOpenAd.swift:152-170 | Failure: not loading, one more attempt, no ad, load-fail reported. Success: not loading, attempts reset, the ad stored, load-success reported. |
| `AppOpen.AdMobAppOpenAd.OnPresentFailed` | Sources/MediationAds/Supports/Ad/AdMob/Ads/AdMobAppOpenAd.swift:77-87 | Reports the failure, drops the ad and reloads. |
| `AppOpen.AdMobAppOpenAd.OnWillPresent` | Sources/MediationAds/Supports/Ad/AdMob/Ads/AdMobAppOpenAd.swift:89-96 | Reports will-present and marks the unit presenting. |
| `AppOpen.AdMobAppOpenAd.OnDismissed` | Sources/MediationAds/Supports/Ad/AdMob/Ads/AdMobAppOpenAd.swift:98-107 | Reports the hide, drops the ad, ends presenting and reloads. |
| `AppOpen.FailedLoadIsRetriedOnce` | Sources/MediationAds/Supports/Ad/AdMob/Ads/AdMobAppOpenAd.swift:111-116 | After one failed load, two readiness checks request exactly one new load, not a burst. |
| `AppOpen.DismissReloads` | Sources/MediationAds/Supports/Ad/AdMob/Ads/AdMobAppOpenAd.swift:98-107 | Loaded, shown and presenting: a second show fails fast, and dismissal starts the next load. |
| `AppOpen.NoRetryBeforeFirstFailure` | Sources/MediationAds/Supports/Ad/AdMob/Ads/AdMobAppOpenAd.swift:59-64 | With no ad and no failed attempt, show is refused and nothing is requested. |
| `MaxInterstitial.MaxInterstitialAd.constructor` | Sources/MediationAds/Supports/Ad/Max/Ads/MaxInterstitialAd.swift:13-19 | A fresh unit holds no ad object, no unit id, name or placement, is neither presenting nor loading, has made no attempt and has reported nothing. |
| `MaxInterstitial.MaxInterstitialAd.IsExist` | Sources/MediationAds/Supports/Ad/Max/Ads/MaxInterstitialAd.swift:42-44 | Whether an ad object is held; a definition, which `IsReady` returns. |
| `MaxInterstitial.MaxInterstitialAd.Load` | Sources/MediationAds/Supports/Ad/Max/Ads/MaxInterstitialAd.swift:169-200 | A no-op while loading, while an ad object exists or with no unit id. Otherwise it is loading, the ad object exists for the bound id, and one request is added. |
| `MaxInterstitial.MaxInterstitialAd.Config` | Sources/MediationAds/Supports/Ad/Max/Ads/MaxInterstitialAd.swift:32-36 | Binds the id and name, then loads under the same guard. |
| `MaxInterstitial.MaxInterstitialAd.Retry` | Sources/MediationAds/Supports/Ad/Max/Ads/MaxInterstitialAd.swift:163-165 | The retry inside `isReady`: a load (object created, one request) happens exactly when no object exists, at least one attempt failed, none is in flight and an id is bound; otherwise nothing changes. |
| `MaxInterstitial.MaxInterstitialAd.IsReady` | Sources/MediationAds/Supports/Ad/Max/Ads/MaxInterstitialAd.swift:162-167 | Returns whether an ad object existed before the call: the object a retried load creates is made in a block dispatched to the main queue, after the answer. That load starts only with no object, at least one failed attempt, none in flight and an id bound. |
| `MaxInterstitial.MaxInterstitialAd.Show` | Sources/MediationAds/Supports/Ad/Max/Ads/MaxInterstitialAd.swift:46-73 | Shows exactly when not presenting and an ad object existed before the call, remembering the placement. Otherwise it reports the show failure; a load retried by the readiness check is requested after that report and cannot make this show succeed. |
| `MaxInterstitial.MaxInterstitialAd.OnDidLoad` | Sources/MediationAds/Supports/Ad/Max/Ads/MaxInterstitialAd.swift:77-89 | Not loading, attempts reset, load-success reported. |
| `MaxInterstitial.MaxInterstitialAd.OnDidFailToLoad` | Sources/MediationAds/Supports/Ad/Max/Ads/MaxInterstitialAd.swift:91-99 | Not loading, one more attempt, load-fail reported. The ad object is kept. |
| `MaxInterstitial.MaxInterstitialAd.OnDidDisplay` | Sources/MediationAds/Supports/Ad/Max/Ads/MaxInterstitialAd.swift:101-108 | Reports will-present and marks the unit presenting. |
| `MaxInterstitial.MaxInterstitialAd.OnDidFailToDisplay` | Sources/MediationAds/Supports/Ad/Max/Ads/MaxInterstitialAd.swift:117-125 | Reports the failure, drops the ad object and reloads. |
| `MaxInterstitial.MaxInterstitialAd.OnDidHide` | Sources/MediationAds/Supports/Ad/Max/Ads/MaxInterstitialAd.swift:127-136 | Reports the hide, drops the ad object, ends presenting and reloads. |
| `MaxInterstitial.FailedLoadKeepsUnitReady` | Sources/MediationAds/Supports/Ad/Max/Ads/MaxInterstitialAd.swift:91-99 | After a failed load the unit reports ready twice with no retry request. Show passes the unloaded object on, and only the display failure starts a new load. |
| `MaxInterstitial.ReadyWhileLoading` | Sources/MediationAds/Supports/Ad/Max/Ads/MaxInterstitialAd.swift:188-198 | The unit is ready as soon as a load starts, before any reply. |
| `MaxInterstitial.RetryAfterDisplayFailureRefusesShow` | Sources/MediationAds/Supports/Ad/Max/Ads/MaxInterstitialAd.swift:162-199 | A display failure while the first load is in flight drops the object and skips the reload; after that load fails, a show is refused, and only then does the retried load create a new object and request it. |
| `MaxInterstitial.HideReloads` | Sources/MediationAds/Supports/Ad/Max/Ads/MaxInterstitialAd.swift:127-136 | Loaded, shown, displayed and hidden: presenting ends and exactly one new load is requested. |
| `Native.AdMobNativeAd.constructor` | MediationAds/Sources/MediationAds/Supports/Ad/AdMob/Ads/AdMobNativeAd.swift:20-29 | A fresh unit is in `wait`, holds no ad, view controller, unit id, placement or timeout, is not full screen, has no pending timeout and has reported nothing. |
| `Native.AdMobNativeAd.Config` | MediationAds/Sources/MediationAds/Supports/Ad/AdMob/Ads/AdMobNativeAd.swift:31-46 | Always takes the view controller. It binds the id, placement and timeout and loads only when the configuration is enabled and no id is bound yet, so later calls never rebind. `isFullScreen` changes only when a value is supplied. |
| `Native.AdMobNativeAd.Load` | MediationAds/Sources/MediationAds/Supports/Ad/AdMob/Ads/AdMobNativeAd.swift:120-171 | Acts only from wait with a bound id. It moves to loading, adds one request (portrait when full screen) and schedules one timeout exactly when a timeout is configured. |
| `Native.AdMobNativeAd.OnFailed` | MediationAds/Sources/MediationAds/Supports/Ad/AdMob/Ads/AdMobNativeAd.swift:63-74 | Only while loading: error, with the error handler called. Otherwise nothing changes. |
| `Native.AdMobNativeAd.OnReceived` | MediationAds/Sources/MediationAds/Supports/Ad/AdMob/Ads/AdMobNativeAd.swift:76-87 | Only while loading: receive, the ad stored, the receive handler called. Otherwise nothing changes. |
| `Native.AdMobNativeAd.OnTimeout` | MediationAds/Sources/MediationAds/Supports/Ad/AdMob/Ads/AdMobNativeAd.swift:155-170 | Consumes the scheduled timeout. Error with the error handler only while still loading. The invariant keeps receive and error terminal, with exactly one outcome per load. |
| `Native.TimeoutBeatsLateAd` | MediationAds/Sources/MediationAds/Supports/Ad/AdMob/Ads/AdMobNativeAd.swift:155-170 | The timeout decides error; an ad arriving afterwards is dropped. |
| `Native.AdBeatsTimeout` | MediationAds/Sources/MediationAds/Supports/Ad/AdMob/Ads/AdMobNativeAd.swift:76-87 | A received ad decides; a later failure and the timeout change nothing. |
| `Native.ConfigBindsOnce` | MediationAds/Sources/MediationAds/Supports/Ad/AdMob/Ads/AdMobNativeAd.swift:31-46 | A disabled configuration binds nothing. A second enabled one only replaces the view controller. |

## Left out

- Logging, analytics, timing and `print` calls are left out, as are AppsFlyer revenue forwarding and the paid-event handlers: they are side channels with no effect on state.
- Third-party SDK calls are left out: network privacy flags beyond the one consent flag, `MobileAds`/AppLovin start, and the Facebook, Mintegral, Vungle and InMobi settings. SDK start is a counter in the consent gate.
- Network and HTTP code, JSON decoding, JWT signing and the region lookup are left out. Their results are input events: iTunes and App Store Connect replies as version lists, the remote fetch as a success flag and a payload, reachability as a boolean.
- `Double(...)` parsing of version strings is left out: it is floating point. Versions are `real`, and a parse failure is `None`.
- Timers, `DispatchQueue` hops and `async`/`await` continuations are events applied whole, one at a time. The consent gate's `initialize` task is split at its awaits, so its tasks interleave. Threads running truly in parallel are not modelled: the manager is `@unchecked Sendable` (ConsentManager.swift:18), so two tasks could both read the `didRequestConsent` latch as unset before either sets it.
- `AdMobAppOpenAd.Load` and `MaxInterstitialAd.Load` do their work inside a block dispatched to the main queue (AdMobAppOpenAd.swift:132-137, MaxInterstitialAd.swift:183-199). The model applies that block at the end of the operation that called `load()` (after `isReady` has answered and after `show` has reported), not at a later turn of the queue. So two synchronous loads racing past the guard before either block runs are not captured.
- Weak `self` captures are left out: the managers and units are never deallocated in the model.
- Handler presence is left out (`didLoadFail`, `didShowFail`, `didHide`, `didReceive`, `didError` and the rest). A notice records that the handler is called; a nil handler does nothing in the source.
- `config(didFail:didSuccess:)`, `bind(didReceive:didError:)`, `didClick`, `isPresent`, `getState` and `getAd` are left out: they store handlers or only read a field.
- `TrackingManager` (ATT, AppsFlyer) is not part of this model. The authorisation awaited in consent `initialize` is the suspension point `AuthorizationReturned`; its answer is ignored by the source.
- `Consent.ConsentManager.Change`: pushes the corrected privacy flag `PrivacyConsent` rather than the line as written (`PrivacyConsentAsWritten`, see Findings), so an Error resolution reports consent to the networks.
- The `isInitilizedSdk` deferred-start path of consent `change` is left out: the flag is never set, so that path cannot run.
- The consent form UI is left out. Its outcome is an input: the info update succeeded or not, a top view controller exists or not, and the form failed or completed with the TCF strings it left in the store.
- `Consent.HasAttribute` reads the bit strings as sequences of characters, where Swift's `Array(input)[index - 1]` indexes grapheme clusters. The two agree on the ASCII `0`/`1` strings a consent management platform writes; other strings are not modelled.
- `RemoteManager`, `AdManager`, `NetworkManager`, `ConsentConfig` and `AppConfig` beyond its fields are not part of this model; their contents are not available. The coordinator records the calls it makes into them.
- The DEBUG compilation condition is a constructor parameter of the coordinator.
- Re-entry of `AppManager.initialize` after success or timeout adds another set of subscriptions. The model keeps one fan-in entry per set, and one network sink acts per event, since only the first can pass its guard.
- `Release.ReleaseManager.Initialize` requires that no lookup is in flight. The source does not demand this, but its only caller sits behind the coordinator's one-shot latch, so it holds there.
- `Release.ReleaseManager.Check` requires that no lookup is in flight, for the same reason.
- `App.Fires`: its own contract states only the length bound and that every entry is a registration over the default payload. Which subscriptions register, and in what order, is stated by `App.FiresExactlyComplete` over `App.CompleteIndices`; whether any registers at all is stated by `App.FiresIffSomeComplete`.
- `App.AppManager.FireAll` applies the status writes and the timer release once after all registrations of one delivery rather than after each one. These writes are idempotent, so the final state is the same.

## Findings

| source | as written | input that shows it | evidently intended | confidence | as-written member | corrected member |
|---|---|---|---|---|---|---|
| Sources/MediationAds/Managers/ConsentManager.swift:494 | The privacy flag pushed to AppLovin, Mintegral, Vungle and InMobi is true when the new state is `.allow` or when `consentState` is `.error`. `consentState` is the state being left, which the guard of `change` has just required to be `.unknow`. | `initialize` with a failing consent info update: `change(state: .error)` runs from `.unknow`, so the flag is false. Meanwhile the coordinator's fan-in treats consent Error as permissive. | The flag is true when the new state is `.allow` or `.error`: Error fails open for the networks as it does in the fan-in. | not executed | `Consent.PrivacyConsentAsWrittenIgnoresError` | `Consent.PrivacyConsent` |
