/** The release gate (ReleaseManager): decides whether the running build is
    publicly released, from a cached version, the iTunes lookup and then
    App Store Connect. Version strings are parsed to `real`; a string that does
    not parse is `None`. */
module Release {
  import opened Wrappers

  datatype ReleaseState = Unknown | WaitReview | Live | Error

  const ReadyForSale: string := "READY_FOR_SALE"

  /** Credentials for App Store Connect (used only to sign the request). */
  datatype ReleaseConfig = ReleaseConfig(appId: string, keyId: string, issuerId: string, privateKey: string)

  /** iTunes lookup: the request threw, or the parsed versions of the results in order. */
  datatype ItunesReply = ItunesThrew | ItunesResults(versions: seq<Option<real>>)

  /** One App Store Connect version: its state string and its parsed version. */
  datatype StoreVersion = StoreVersion(state: string, version: Option<real>)

  /** App Store Connect: the request threw, or the versions it listed in order. */
  datatype ConnectReply = ConnectThrew | ConnectVersions(versions: seq<StoreVersion>)

  /** What a lookup step decides: the state to resolve, and the version to write
      to the cache (if any). */
  datatype Decision = Decision(state: ReleaseState, cacheWrite: Option<real>)

  /** The state a resolution attempt leaves under first-wins. */
  function FirstWins(current: ReleaseState, attempt: ReleaseState): ReleaseState
  {
    if current == Unknown then attempt else current
  }

  /** itunesReleaseState: only the first result counts. */
  function ItunesReleaseState(hasBundleId: bool, reply: ItunesReply, nowVersion: real): (d: Decision)
    ensures d.state != WaitReview
    ensures d.state == Error <==>
              !hasBundleId || reply.ItunesThrew? || (|reply.versions| > 0 && reply.versions[0].None?)
    ensures d.state == Live <==>
              hasBundleId && reply.ItunesResults? && |reply.versions| > 0 &&
              reply.versions[0].Some? && nowVersion <= reply.versions[0].value
    ensures d.state == Unknown && hasBundleId && reply.ItunesResults? && reply.versions != [] ==>
              reply.versions[0].Some? && reply.versions[0].value < nowVersion
    ensures d.cacheWrite.Some? <==> d.state == Live
    ensures d.cacheWrite.Some? ==> d.cacheWrite == reply.versions[0] && nowVersion <= d.cacheWrite.value
  {
    if !hasBundleId then Decision(Error, None)
    else match reply
      case ItunesThrew => Decision(Error, None)
      case ItunesResults(versions) =>
        if versions == [] then Decision(Unknown, None)
        else match versions[0]
          case None => Decision(Error, None)
          case Some(releaseVersion) =>
            if nowVersion <= releaseVersion then Decision(Live, Some(releaseVersion))
            else Decision(Unknown, None)
  }

  /** first(where: state == READY_FOR_SALE), as an index. */
  function FirstReadyForSale(versions: seq<StoreVersion>): (r: Option<nat>)
    ensures r.Some? ==> r.value < |versions| && versions[r.value].state == ReadyForSale
    ensures r.Some? ==> forall j :: 0 <= j < r.value ==> versions[j].state != ReadyForSale
    ensures r.None? ==> forall j :: 0 <= j < |versions| ==> versions[j].state != ReadyForSale
  {
    if versions == [] then None
    else if versions[0].state == ReadyForSale then Some(0)
    else match FirstReadyForSale(versions[1..])
      case None => None
      case Some(k) => Some(k + 1)
  }

  /** appStoreConnectReleaseState: never Unknown; the first READY_FOR_SALE entry
      decides; none at all means the build waits for review. */
  function AppStoreConnectReleaseState(hasConfig: bool, reply: ConnectReply, nowVersion: real): (d: Decision)
    ensures d.state != Unknown
    ensures !hasConfig || reply.ConnectThrew? ==> d == Decision(Error, None)
    ensures hasConfig && reply.ConnectVersions? ==>
              match FirstReadyForSale(reply.versions)
              case None => d == Decision(WaitReview, None)
              case Some(k) =>
                match reply.versions[k].version
                case None => d == Decision(Error, None)
                case Some(v) => d == (if nowVersion <= v then Decision(Live, Some(v)) else Decision(WaitReview, None))
    ensures d.cacheWrite.Some? <==> d.state == Live
    ensures d.cacheWrite.Some? ==> nowVersion <= d.cacheWrite.value
  {
    if !hasConfig then Decision(Error, None)
    else match reply
      case ConnectThrew => Decision(Error, None)
      case ConnectVersions(versions) =>
        match FirstReadyForSale(versions)
        case None => Decision(WaitReview, None)
        case Some(k) =>
          match versions[k].version
          case None => Decision(Error, None)
          case Some(releaseVersion) =>
            if nowVersion <= releaseVersion then Decision(Live, Some(releaseVersion))
            else Decision(WaitReview, None)
  }

  /** What releaseSubject has carried for the current state: nothing but
      Unknown until the state is resolved, then the resolved state, last and
      only once. */
  ghost predicate SentFor(sent: seq<ReleaseState>, state: ReleaseState)
  {
    (forall k :: 0 <= k < |sent| && sent[k] != Unknown ==> k == |sent| - 1 && sent[k] == state) &&
    (state != Unknown ==> |sent| > 0 && sent[|sent| - 1] == state)
  }

  /** Where the lookup task started by check() stands. */
  datatype Lookup = NotStarted | AwaitingItunes | AwaitingAppStoreConnect | Finished

  class ReleaseManager {
    var releaseState: ReleaseState
    /** Values sent on releaseSubject, in order. */
    var emitted: seq<ReleaseState>
    var nowVersion: real
    /** The manager's copy of the cached released version. */
    var releaseVersion: real
    /** RELEASE_CACHE in the defaults store (0.0 when never written). */
    var cache: real
    var config: Option<ReleaseConfig>
    var lookup: Lookup
    /** Timeout callbacks scheduled and not yet run. */
    var pendingTimeouts: nat
    /** Lookup tasks started (each one a network round trip). */
    var lookupsStarted: nat
    /** CFBundleShortVersionString, parsed; None when missing or not a number. */
    const bundleVersion: Option<real>
    const hasBundleId: bool

    ghost predicate Valid()
      reads this
    {
      SentFor(emitted, releaseState) &&
      (lookup == AwaitingItunes || lookup == AwaitingAppStoreConnect ==> nowVersion > cache) &&
      (config.Some? ==> releaseVersion == cache)
    }

    constructor (persisted: real, bundleVersion: Option<real>, hasBundleId: bool)
      ensures Valid()
      ensures releaseState == Unknown && emitted == [] && cache == persisted
      ensures releaseVersion == 0.0 && nowVersion == 0.0 && config == None
      ensures lookup == NotStarted && pendingTimeouts == 0 && lookupsStarted == 0
      ensures this.bundleVersion == bundleVersion && this.hasBundleId == hasBundleId
    {
      releaseState := Unknown;
      emitted := [];
      nowVersion := 0.0;
      releaseVersion := 0.0;
      cache := persisted;
      config := None;
      lookup := NotStarted;
      pendingTimeouts := 0;
      lookupsStarted := 0;
      this.bundleVersion := bundleVersion;
      this.hasBundleId := hasBundleId;
    }

    /** change(state:): takes effect only while Unknown; each effective call sends
        exactly one value. */
    method Change(state: ReleaseState)
      requires Valid()
      modifies this`releaseState, this`emitted
      ensures Valid()
      ensures releaseState == FirstWins(old(releaseState), state)
      ensures emitted == if old(releaseState) == Unknown then old(emitted) + [state] else old(emitted)
    {
      if releaseState != Unknown {
        return;
      }
      releaseState := state;
      emitted := emitted + [state];
    }

    /** fetch(): reload the cached released version. */
    method Fetch()
      modifies this`releaseVersion
      ensures releaseVersion == cache
    {
      releaseVersion := cache;
    }

    /** update(_:): write the cache, then reload it. */
    method Update(version: real)
      modifies this`cache, this`releaseVersion
      ensures cache == version && releaseVersion == version
    {
      cache := version;
      Fetch();
    }

    /** initialize: stores the credentials, reloads the cache and checks. */
    method Initialize(cfg: ReleaseConfig)
      requires Valid()
      requires lookup != AwaitingItunes && lookup != AwaitingAppStoreConnect
      modifies this`config, this`releaseVersion, this`nowVersion, this`releaseState, this`emitted,
               this`pendingTimeouts, this`lookupsStarted, this`lookup
      ensures Valid()
      ensures config == Some(cfg) && releaseVersion == cache
      ensures bundleVersion.None? ==>
                releaseState == FirstWins(old(releaseState), Error) &&
                emitted == (if old(releaseState) == Unknown then old(emitted) + [Error] else old(emitted)) &&
                lookup == old(lookup) && lookupsStarted == old(lookupsStarted) &&
                pendingTimeouts == old(pendingTimeouts)
      ensures bundleVersion.Some? ==> nowVersion == bundleVersion.value
      ensures bundleVersion.Some? && bundleVersion.value <= cache ==>
                releaseState == FirstWins(old(releaseState), Live) &&
                emitted == (if old(releaseState) == Unknown then old(emitted) + [Live] else old(emitted)) &&
                lookup == old(lookup) && lookupsStarted == old(lookupsStarted) &&
                pendingTimeouts == old(pendingTimeouts)
      ensures bundleVersion.Some? && bundleVersion.value > cache ==>
                releaseState == old(releaseState) && emitted == old(emitted) &&
                lookup == AwaitingItunes && lookupsStarted == old(lookupsStarted) + 1 &&
                pendingTimeouts == old(pendingTimeouts) + 1
    {
      config := Some(cfg);
      Fetch();
      Check();
    }

    /** check: a missing or unparsable build version resolves Error; a build
        version not newer than the cached one resolves Live with no lookup;
        otherwise a timeout and the lookup task are started. */
    method Check()
      requires Valid() && releaseVersion == cache
      requires lookup != AwaitingItunes && lookup != AwaitingAppStoreConnect
      modifies this`nowVersion, this`releaseState, this`emitted, this`pendingTimeouts, this`lookupsStarted, this`lookup
      ensures Valid()
      ensures bundleVersion.None? ==>
                releaseState == FirstWins(old(releaseState), Error) &&
                emitted == (if old(releaseState) == Unknown then old(emitted) + [Error] else old(emitted)) &&
                lookup == old(lookup) && lookupsStarted == old(lookupsStarted) &&
                pendingTimeouts == old(pendingTimeouts)
      ensures bundleVersion.Some? ==> nowVersion == bundleVersion.value
      ensures bundleVersion.Some? && bundleVersion.value <= cache ==>
                releaseState == FirstWins(old(releaseState), Live) &&
                emitted == (if old(releaseState) == Unknown then old(emitted) + [Live] else old(emitted)) &&
                lookup == old(lookup) && lookupsStarted == old(lookupsStarted) &&
                pendingTimeouts == old(pendingTimeouts)
      ensures bundleVersion.Some? && bundleVersion.value > cache ==>
                releaseState == old(releaseState) && emitted == old(emitted) &&
                lookup == AwaitingItunes && lookupsStarted == old(lookupsStarted) + 1 &&
                pendingTimeouts == old(pendingTimeouts) + 1
    {
      match bundleVersion
      case None =>
        Change(Error);
      case Some(version) =>
        nowVersion := version;
        if nowVersion <= releaseVersion {
          Change(Live);
        } else {
          pendingTimeouts := pendingTimeouts + 1;
          lookupsStarted := lookupsStarted + 1;
          lookup := AwaitingItunes;
        }
    }

    /** The timeout scheduled by check(): resolves Error only if still Unknown. */
    method TimeoutFired()
      requires Valid() && pendingTimeouts > 0
      modifies this`pendingTimeouts, this`releaseState, this`emitted
      ensures Valid()
      ensures pendingTimeouts == old(pendingTimeouts) - 1
      ensures releaseState == FirstWins(old(releaseState), Error)
      ensures emitted == if old(releaseState) == Unknown then old(emitted) + [Error] else old(emitted)
    {
      pendingTimeouts := pendingTimeouts - 1;
      if releaseState == Unknown {
        Change(Error);
      }
    }

    /** The iTunes reply reaches the lookup task: Live and Error are applied at
        once, Unknown moves on to App Store Connect. The cache only grows. */
    method ItunesReplied(reply: ItunesReply)
      requires Valid() && lookup == AwaitingItunes
      modifies this`lookup, this`cache, this`releaseVersion, this`releaseState, this`emitted
      ensures Valid()
      ensures var d := ItunesReleaseState(hasBundleId, reply, old(nowVersion));
              (d.cacheWrite.Some? ==> cache == d.cacheWrite.value) &&
              (d.cacheWrite.None? ==> cache == old(cache)) &&
              (d.state == Unknown ==> lookup == AwaitingAppStoreConnect && releaseState == old(releaseState)) &&
              (d.state != Unknown ==> lookup == Finished && releaseState == FirstWins(old(releaseState), d.state))
      ensures cache >= old(cache) && (cache != old(cache) ==> cache >= nowVersion)
      ensures var d := ItunesReleaseState(hasBundleId, reply, old(nowVersion));
              emitted == if old(releaseState) == Unknown && d.state != Unknown then old(emitted) + [d.state] else old(emitted)
    {
      var d := ItunesReleaseState(hasBundleId, reply, nowVersion);
      lookup := if d.state == Unknown then AwaitingAppStoreConnect else Finished;
      if d.cacheWrite.Some? {
        Update(d.cacheWrite.value);
      }
      if d.state != Unknown {
        Change(d.state);
      }
    }

    /** The App Store Connect reply reaches the lookup task and is applied. */
    method AppStoreConnectReplied(reply: ConnectReply)
      requires Valid() && lookup == AwaitingAppStoreConnect
      modifies this`lookup, this`cache, this`releaseVersion, this`releaseState, this`emitted
      ensures Valid()
      ensures var d := AppStoreConnectReleaseState(old(config).Some?, reply, old(nowVersion));
              (d.cacheWrite.Some? ==> cache == d.cacheWrite.value) &&
              (d.cacheWrite.None? ==> cache == old(cache)) &&
              releaseState == FirstWins(old(releaseState), d.state)
      ensures lookup == Finished
      ensures cache >= old(cache) && (cache != old(cache) ==> cache >= nowVersion)
      ensures emitted == if old(releaseState) == Unknown then old(emitted) + [releaseState] else old(emitted)
    {
      var d := AppStoreConnectReleaseState(config.Some?, reply, nowVersion);
      lookup := Finished;
      if d.cacheWrite.Some? {
        Update(d.cacheWrite.value);
      }
      Change(d.state);
    }
  }

  // ---------------------------------------------------------------------------
  // Scenarios

  /** Build 1.5 with 2.0 cached: Live at once, with no lookup. */
  method CachedVersionShortCircuits() returns (state: ReleaseState, lookups: nat, sent: seq<ReleaseState>)
    ensures state == Live && lookups == 0 && sent == [Live]
  {
    var m := new ReleaseManager(2.0, Some(1.5), true);
    m.Initialize(ReleaseConfig("app", "key", "issuer", "pem"));
    state, lookups, sent := m.releaseState, m.lookupsStarted, m.emitted;
  }

  /** Build 2.0 with 1.5 cached; iTunes reports 2.0: Live and the cache moves to 2.0. */
  method ItunesConfirmsRelease() returns (state: ReleaseState, cached: real)
    ensures state == Live && cached == 2.0
  {
    var m := new ReleaseManager(1.5, Some(2.0), true);
    m.Initialize(ReleaseConfig("app", "key", "issuer", "pem"));
    m.ItunesReplied(ItunesResults([Some(2.0)]));
    state, cached := m.releaseState, m.cache;
  }

  /** Build 2.0 with 1.5 cached; iTunes has nothing and App Store Connect lists
      no READY_FOR_SALE version: WaitReview, cache unchanged. */
  method NothingReadyForSaleWaitsReview() returns (state: ReleaseState, cached: real)
    ensures state == WaitReview && cached == 1.5
  {
    var m := new ReleaseManager(1.5, Some(2.0), true);
    m.Initialize(ReleaseConfig("app", "key", "issuer", "pem"));
    m.ItunesReplied(ItunesResults([]));
    m.AppStoreConnectReplied(ConnectVersions([StoreVersion("PREPARE_FOR_SUBMISSION", Some(2.0))]));
    state, cached := m.releaseState, m.cache;
  }

  /** The timeout resolves Error first; a late iTunes reply cannot change the
      state, yet it still advances the cache. */
  method TimeoutBeatsLateReply() returns (state: ReleaseState, cached: real, sent: seq<ReleaseState>)
    ensures state == Error && cached == 2.0 && sent == [Error]
  {
    var m := new ReleaseManager(1.5, Some(2.0), true);
    m.Initialize(ReleaseConfig("app", "key", "issuer", "pem"));
    m.TimeoutFired();
    m.ItunesReplied(ItunesResults([Some(2.0)]));
    state, cached, sent := m.releaseState, m.cache, m.emitted;
  }
}
