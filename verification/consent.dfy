/** The consent gate (ConsentManager): the IAB TCF v2 bit-string test that decides
    whether Google ads may be shown, and the first-wins consent state. */
module Consent {
  import opened Wrappers

  datatype ConsentState = Unknown | Allow | Reject | Error

  /** The part of the app's key/value defaults store that the consent SDK writes:
      key -> string value. A key that is absent reads as the empty string. */
  type Defaults = map<string, string>

  const PurposeConsentsKey: string := "IABTCF_PurposeConsents"
  const VendorConsentsKey: string := "IABTCF_VendorConsents"
  const VendorLegitimateInterestsKey: string := "IABTCF_VendorLegitimateInterests"
  const PurposeLegitimateInterestsKey: string := "IABTCF_PurposeLegitimateInterests"

  /** Google's id in the TCF global vendor list. */
  const GoogleVendorId: int := 755

  /** Purposes that need consent outright, and purposes that consent or a
      legitimate interest may cover. */
  const ConsentPurposes: seq<int> := [1]
  const ConsentOrLegitimateInterestPurposes: seq<int> := [2, 7, 9, 10]

  /** The cached consent payload (ConsentConfig.swift is not part of this model;
      only its `status` flag is referenced by the code around it). */
  datatype ConsentConfig = ConsentConfig(status: bool)

  /** Result of presenting a consent form: an error, or completion with the TCF
      strings as the consent SDK left them in the defaults store. */
  datatype FormResult = FormFailed | FormCompleted(tcf: Defaults)

  // ---------------------------------------------------------------------------
  // The TCF bit-string test

  /** The ids a TCF bit string grants: id i (1-based) is granted when character
      i - 1 is '1'. This is the reference reading of a bit string. */
  ghost function Granted(s: string): set<int>
  {
    set k | 0 <= k < |s| && s[k] == '1' :: k + 1
  }

  /** The value stored under `key`, or "" when the key is missing. */
  function StringFor(defaults: Defaults, key: string): (s: string)
    ensures key !in defaults ==> s == ""
    ensures key in defaults ==> s == defaults[key]
  {
    if key in defaults then defaults[key] else ""
  }

  /** hasAttribute: the 1-based position `index` of `input` is set. */
  function HasAttribute(input: string, index: int): (r: bool)
    requires 1 <= index
    ensures r <==> index in Granted(input)
    ensures r ==> index <= |input|
  {
    |input| >= index && input[index - 1] == '1'
  }

  /** `allSatisfy` of hasAttribute over a list of purposes. */
  function AllGranted(purposes: seq<int>, bits: string): (r: bool)
    requires forall k :: 0 <= k < |purposes| ==> 1 <= purposes[k]
    ensures r <==> forall p :: p in purposes ==> p in Granted(bits)
  {
    if purposes == [] then true
    else HasAttribute(bits, purposes[0]) && AllGranted(purposes[1..], bits)
  }

  /** hasConsentFor: every listed purpose is consented to, and so is the vendor. */
  function HasConsentFor(purposes: seq<int>, purposeConsent: string, hasVendorConsent: bool): (r: bool)
    requires forall k :: 0 <= k < |purposes| ==> 1 <= purposes[k]
    ensures r <==> hasVendorConsent && forall p :: p in purposes ==> p in Granted(purposeConsent)
  {
    AllGranted(purposes, purposeConsent) && hasVendorConsent
  }

  /** A purpose is covered by a legitimate interest (for it and for the vendor)
      or by consent (for it and for the vendor). */
  ghost predicate PurposeCovered(p: int, purposeConsent: set<int>, purposeLI: set<int>,
                                 hasVendorConsent: bool, hasVendorLI: bool)
  {
    (p in purposeLI && hasVendorLI) || (p in purposeConsent && hasVendorConsent)
  }

  /** hasConsentOrLegitimateInterestFor: `allSatisfy` of that test over the purposes. */
  function HasConsentOrLegitimateInterestFor(purposes: seq<int>, purposeConsent: string, purposeLI: string,
                                             hasVendorConsent: bool, hasVendorLI: bool): (r: bool)
    requires forall k :: 0 <= k < |purposes| ==> 1 <= purposes[k]
    ensures r <==> forall p :: p in purposes ==>
      PurposeCovered(p, Granted(purposeConsent), Granted(purposeLI), hasVendorConsent, hasVendorLI)
  {
    if purposes == [] then true
    else
      assert forall p :: p in purposes <==> p == purposes[0] || p in purposes[1..];
      assert PurposeCovered(purposes[0], Granted(purposeConsent), Granted(purposeLI), hasVendorConsent, hasVendorLI)
        <==> (HasAttribute(purposeLI, purposes[0]) && hasVendorLI) ||
             (HasAttribute(purposeConsent, purposes[0]) && hasVendorConsent);
      ((HasAttribute(purposeLI, purposes[0]) && hasVendorLI) ||
       (HasAttribute(purposeConsent, purposes[0]) && hasVendorConsent)) &&
      HasConsentOrLegitimateInterestFor(purposes[1..], purposeConsent, purposeLI, hasVendorConsent, hasVendorLI)
  }

  /** The policy in terms of granted id sets: purpose 1 and Google consented, and
      each of purposes 2, 7, 9 and 10 covered by consent or legitimate interest. */
  ghost predicate TcfAllowsGoogleAds(purposeConsent: set<int>, vendorConsent: set<int>,
                                     purposeLI: set<int>, vendorLI: set<int>)
  {
    var vc := GoogleVendorId in vendorConsent;
    var vli := GoogleVendorId in vendorLI;
    1 in purposeConsent && vc &&
    PurposeCovered(2, purposeConsent, purposeLI, vc, vli) &&
    PurposeCovered(7, purposeConsent, purposeLI, vc, vli) &&
    PurposeCovered(9, purposeConsent, purposeLI, vc, vli) &&
    PurposeCovered(10, purposeConsent, purposeLI, vc, vli)
  }

  /** The policy applied to the strings a defaults store holds. */
  ghost predicate StoreAllowsGoogleAds(defaults: Defaults)
  {
    TcfAllowsGoogleAds(Granted(StringFor(defaults, PurposeConsentsKey)),
                       Granted(StringFor(defaults, VendorConsentsKey)),
                       Granted(StringFor(defaults, PurposeLegitimateInterestsKey)),
                       Granted(StringFor(defaults, VendorLegitimateInterestsKey)))
  }

  /** canShowAds, read from the defaults store. */
  function CanShowAds(defaults: Defaults): (r: bool)
    ensures r <==> StoreAllowsGoogleAds(defaults)
  {
    var purposeConsent := StringFor(defaults, PurposeConsentsKey);
    var vendorConsent := StringFor(defaults, VendorConsentsKey);
    var vendorLI := StringFor(defaults, VendorLegitimateInterestsKey);
    var purposeLI := StringFor(defaults, PurposeLegitimateInterestsKey);
    var hasGoogleVendorConsent := HasAttribute(vendorConsent, GoogleVendorId);
    var hasGoogleVendorLI := HasAttribute(vendorLI, GoogleVendorId);
    HasConsentFor(ConsentPurposes, purposeConsent, hasGoogleVendorConsent) &&
    HasConsentOrLegitimateInterestFor(ConsentOrLegitimateInterestPurposes, purposeConsent, purposeLI,
                                      hasGoogleVendorConsent, hasGoogleVendorLI)
  }

  /** A missing key grants no id at all. */
  lemma MissingKeyGrantsNothing(defaults: Defaults, key: string, index: int)
    requires key !in defaults && 1 <= index
    ensures !HasAttribute(StringFor(defaults, key), index)
  {
  }

  /** With no TCF strings stored, ads are not allowed. */
  lemma EmptyStoreRejects(defaults: Defaults)
    requires PurposeConsentsKey !in defaults && VendorConsentsKey !in defaults
    ensures !CanShowAds(defaults)
  {
    MissingKeyGrantsNothing(defaults, PurposeConsentsKey, 1);
  }

  ghost predicate AllOnes(s: string, minLength: nat)
  {
    |s| >= minLength && forall k :: 0 <= k < |s| ==> s[k] == '1'
  }

  /** All-ones strings long enough to reach purpose 10 and vendor 755 allow ads. */
  lemma AllOnesAllows(defaults: Defaults)
    requires PurposeConsentsKey in defaults && AllOnes(defaults[PurposeConsentsKey], 10)
    requires VendorConsentsKey in defaults && AllOnes(defaults[VendorConsentsKey], 755)
    ensures CanShowAds(defaults)
  {
    var pc := defaults[PurposeConsentsKey];
    var vc := defaults[VendorConsentsKey];
    assert HasAttribute(pc, 1) && HasAttribute(pc, 2) && HasAttribute(pc, 7);
    assert HasAttribute(pc, 9) && HasAttribute(pc, 10);
    assert HasAttribute(vc, GoogleVendorId);
  }

  /** Purpose 1 consent is needed whatever the legitimate-interest strings say. */
  lemma PurposeOneRequired(defaults: Defaults)
    requires !HasAttribute(StringFor(defaults, PurposeConsentsKey), 1)
    ensures !CanShowAds(defaults)
  {
  }

  /** Google's vendor consent is needed whatever the legitimate-interest strings say. */
  lemma GoogleVendorConsentRequired(defaults: Defaults)
    requires !HasAttribute(StringFor(defaults, VendorConsentsKey), GoogleVendorId)
    ensures !CanShowAds(defaults)
  {
  }

  /** Only positions 1, 2, 7, 9, 10 of the purpose strings and 755 of the vendor
      strings take part in the decision. */
  ghost predicate SameGoogleBits(a: Defaults, b: Defaults)
  {
    (forall p :: p in [1, 2, 7, 9, 10] ==>
       (p in Granted(StringFor(a, PurposeConsentsKey)) <==> p in Granted(StringFor(b, PurposeConsentsKey))) &&
       (p in Granted(StringFor(a, PurposeLegitimateInterestsKey)) <==> p in Granted(StringFor(b, PurposeLegitimateInterestsKey)))) &&
    (GoogleVendorId in Granted(StringFor(a, VendorConsentsKey)) <==> GoogleVendorId in Granted(StringFor(b, VendorConsentsKey))) &&
    (GoogleVendorId in Granted(StringFor(a, VendorLegitimateInterestsKey)) <==> GoogleVendorId in Granted(StringFor(b, VendorLegitimateInterestsKey)))
  }

  lemma OnlyGoogleBitsMatter(a: Defaults, b: Defaults)
    requires SameGoogleBits(a, b)
    ensures CanShowAds(a) == CanShowAds(b)
  {
    assert 1 in [1, 2, 7, 9, 10] && 2 in [1, 2, 7, 9, 10] && 7 in [1, 2, 7, 9, 10];
    assert 9 in [1, 2, 7, 9, 10] && 10 in [1, 2, 7, 9, 10];
  }

  // ---------------------------------------------------------------------------
  // Privacy flag pushed to the mediation networks when the state resolves

  /** The flag as written at ConsentManager.swift:494: it compares the state the
      manager is LEAVING, which the first-wins guard has just required to be
      Unknown, so its second disjunct can never hold. */
  function PrivacyConsentAsWritten(newState: ConsentState, current: ConsentState): (hasConsent: bool)
    ensures current != Error ==> (hasConsent <==> newState == Allow)
  {
    newState == Allow || current == Error
  }

  /** Under the guard of `change`, the flag as written is true for Allow only:
      an Error resolution tells the networks that the user did not consent. */
  lemma PrivacyConsentAsWrittenIgnoresError(newState: ConsentState)
    ensures PrivacyConsentAsWritten(newState, Unknown) <==> newState == Allow
    ensures !PrivacyConsentAsWritten(Error, Unknown)
  {
  }

  /** The corrected flag: the states that fail open (Allow and Error) report consent. */
  function PrivacyConsent(newState: ConsentState): (hasConsent: bool)
    ensures hasConsent <==> newState in {Allow, Error}
    ensures newState == Reject ==> !hasConsent
  {
    newState == Allow || newState == Error
  }

  // ---------------------------------------------------------------------------
  // The manager

  /** Where one Task started by `initialize` stands. Tasks are not isolated to
      one actor, so two of them interleave at their suspension points. */
  datatype InitTask =
    | Created                             // created, its body not yet run
    | AwaitingRequest                     // suspended in the info update or the form
    | AwaitingAuthorization(threw: bool)  // suspended on the tracking authorisation
    | Finished                            // `change` has been called

  class ConsentManager {
    /** Published consent state; first-wins through Change. */
    var consentState: ConsentState
    /** Values sent on consentSubject, in order. */
    var emitted: seq<ConsentState>
    /** Latch of requestConsentIfRequired. */
    var didRequestConsent: bool
    /** Number of times the info-update / form step actually ran. */
    var consentRequests: nat
    var maxSdkKey: Option<string>
    /** CONSENT_CACHE, as read back through the consentConfig property. */
    var consentConfig: Option<ConsentConfig>
    /** The TCF strings in the defaults store. */
    var tcf: Defaults
    /** The consent flag last pushed to the mediation networks' privacy settings. */
    var networkConsent: Option<bool>
    /** Number of ad SDK start requests (MobileAds / AppLovin start). */
    var sdkStarts: nat
    /** The Tasks started by initialize, by index. */
    var tasks: seq<InitTask>

    /** At most one value is ever sent, and it is the resolved state; the
        request step ran once exactly when the latch is taken, and only the
        task that took it can be suspended in it. */
    ghost predicate Valid()
      reads this
    {
      (consentState == Unknown ==> emitted == []) &&
      |emitted| <= 1 && (emitted != [] ==> emitted[0] != Unknown) &&
      consentRequests == (if didRequestConsent then 1 else 0) &&
      (forall k :: 0 <= k < |tasks| && tasks[k] == AwaitingRequest ==> didRequestConsent) &&
      (forall j, k :: 0 <= j < k < |tasks| && tasks[j] == AwaitingRequest ==> tasks[k] != AwaitingRequest)
    }

    /** A fresh manager over the persisted defaults and consent cache. */
    constructor (tcf: Defaults, cache: Option<ConsentConfig>)
      ensures Valid()
      ensures consentState == Unknown && emitted == [] && !didRequestConsent && consentRequests == 0
      ensures this.tcf == tcf && consentConfig == cache && maxSdkKey == None
      ensures networkConsent == None && sdkStarts == 0 && tasks == []
    {
      consentState := Unknown;
      emitted := [];
      didRequestConsent := false;
      consentRequests := 0;
      maxSdkKey := None;
      consentConfig := cache;
      this.tcf := tcf;
      networkConsent := None;
      sdkStarts := 0;
      tasks := [];
    }

    /** change(state:): first-wins. The flag pushed to the networks is the
        corrected one (PrivacyConsent). The SDK-initialised flag of the source
        is never set, so the state is always sent at once. */
    method Change(state: ConsentState)
      requires Valid()
      modifies this`consentState, this`emitted, this`networkConsent
      ensures Valid()
      ensures if old(consentState) == Unknown && state != Unknown then
                consentState == state && emitted == old(emitted) + [state] &&
                networkConsent == Some(PrivacyConsent(state))
              else
                consentState == old(consentState) && emitted == old(emitted) &&
                networkConsent == old(networkConsent)
    {
      if consentState != Unknown || state == Unknown {
        return;
      }
      networkConsent := Some(PrivacyConsent(state));
      consentState := state;
      emitted := emitted + [state];
    }

    /** initialize: records the AppLovin key and starts a Task; the Task runs
        later, through the events below. */
    method Initialize(maxSdkKey: Option<string>) returns (task: nat)
      requires Valid()
      modifies this`maxSdkKey, this`tasks
      ensures Valid() && this.maxSdkKey == maxSdkKey
      ensures task == |old(tasks)| && tasks == old(tasks) + [Created]
    {
      this.maxSdkKey := maxSdkKey;
      task := |tasks|;
      tasks := tasks + [Created];
    }

    /** The task's body begins with requestConsentIfRequired: the first task
        to get here takes the latch and suspends in the info update; any later
        one returns at once without throwing. */
    method RequestConsentIfRequired(task: nat)
      requires Valid() && task < |tasks| && tasks[task] == Created
      modifies this`didRequestConsent, this`consentRequests, this`tasks
      ensures Valid() && didRequestConsent
      ensures old(didRequestConsent) ==>
                consentRequests == old(consentRequests) && tasks == old(tasks)[task := AwaitingAuthorization(false)]
      ensures !old(didRequestConsent) ==>
                consentRequests == old(consentRequests) + 1 && tasks == old(tasks)[task := AwaitingRequest]
    {
      if didRequestConsent {
        tasks := tasks[task := AwaitingAuthorization(false)];
        return;
      }
      didRequestConsent := true;
      consentRequests := consentRequests + 1;
      tasks := tasks[task := AwaitingRequest];
    }

    /** The info update and the form have answered: the request threw exactly
        when the update failed, no top view controller existed, or the form
        failed; a completed form leaves its TCF strings in the store. The task
        then suspends on the tracking authorisation. */
    method ConsentRequestReturned(task: nat, infoUpdateOk: bool, hasTopController: bool, form: FormResult)
      requires Valid() && task < |tasks| && tasks[task] == AwaitingRequest
      modifies this`tcf, this`tasks
      ensures Valid()
      ensures var threw := !(infoUpdateOk && hasTopController && form.FormCompleted?);
              tasks == old(tasks)[task := AwaitingAuthorization(threw)] &&
              tcf == (if threw then old(tcf) else form.tcf)
    {
      var threw := true;
      if infoUpdateOk && hasTopController {
        match form
        case FormFailed =>
        case FormCompleted(newTcf) =>
          tcf := newTcf;
          threw := false;
      }
      tasks := tasks[task := AwaitingAuthorization(threw)];
    }

    /** The tracking authorisation has returned: the task resolves Error if
        its request threw and Allow otherwise (canShowAds is not consulted),
        under first-wins. */
    method AuthorizationReturned(task: nat)
      requires Valid() && task < |tasks| && tasks[task].AwaitingAuthorization?
      modifies this`tasks, this`consentState, this`emitted, this`networkConsent
      ensures Valid()
      ensures tasks == old(tasks)[task := Finished]
      ensures var outcome := if old(tasks)[task].threw then Error else Allow;
              if old(consentState) == Unknown then
                consentState == outcome && emitted == [outcome] && networkConsent == Some(PrivacyConsent(outcome))
              else
                consentState == old(consentState) && emitted == old(emitted) &&
                networkConsent == old(networkConsent)
    {
      var outcome := if tasks[task].threw then Error else Allow;
      tasks := tasks[task := Finished];
      Change(outcome);
    }

    /** requestConsentUpdate: re-presents the privacy options form. Without a top
        view controller or on a form error it completes Error and changes nothing;
        if consent is already Allow it completes Allow; otherwise it re-derives the
        state from canShowAds, bypassing the first-wins guard and sending nothing
        on consentSubject. */
    method RequestConsentUpdate(hasTopController: bool, form: FormResult) returns (completed: ConsentState)
      requires Valid()
      modifies this`tcf, this`consentState, this`networkConsent, this`sdkStarts
      ensures Valid()
      ensures !hasTopController || form.FormFailed? ==>
                completed == Error && consentState == old(consentState) && tcf == old(tcf) &&
                networkConsent == old(networkConsent) && sdkStarts == old(sdkStarts)
      ensures hasTopController && form.FormCompleted? ==> tcf == form.tcf
      ensures hasTopController && form.FormCompleted? && old(consentState) == Allow ==>
                completed == Allow && consentState == Allow &&
                networkConsent == old(networkConsent) && sdkStarts == old(sdkStarts)
      ensures hasTopController && form.FormCompleted? && old(consentState) != Allow ==>
                var can := CanShowAds(form.tcf);
                completed == (if can then Allow else Reject) && consentState == completed &&
                networkConsent == Some(can) &&
                sdkStarts == old(sdkStarts) + (if can then 1 else 0)
    {
      if !hasTopController {
        return Error;
      }
      match form
      case FormFailed =>
        completed := Error;
      case FormCompleted(newTcf) =>
        tcf := newTcf;
        if consentState == Allow {
          return Allow;
        }
        var canShowAds := CanShowAds(tcf);
        var state := if canShowAds then Allow else Reject;
        networkConsent := Some(canShowAds);
        consentState := state;
        if state == Allow {
          sdkStarts := sdkStarts + 1;
        }
        completed := state;
    }

    /** update(consentData:): stores the decoded payload, or nothing (None) when
        decoding failed; either way reading the cache back yields `decoded`. */
    method Update(decoded: Option<ConsentConfig>)
      requires Valid()
      modifies this`consentConfig
      ensures Valid() && consentConfig == decoded
    {
      consentConfig := decoded;
    }
  }

  // ---------------------------------------------------------------------------
  // Scenarios

  /** One initialize whose info update fails resolves Error; a second
      initialize after it has finished neither re-requests nor changes the
      state, and exactly one value is ever sent. */
  method InitializeTwiceKeepsFirstResolution() returns (first: ConsentState, second: ConsentState,
                                                        sent: seq<ConsentState>, requests: nat)
    ensures first == Error && second == Error
    ensures sent == [Error] && requests == 1
  {
    var m := new ConsentManager(map[], None);
    var t0 := m.Initialize(None);
    m.RequestConsentIfRequired(t0);
    m.ConsentRequestReturned(t0, false, true, FormCompleted(map[]));
    m.AuthorizationReturned(t0);
    first := m.consentState;
    var t1 := m.Initialize(Some("key"));
    m.RequestConsentIfRequired(t1);
    m.AuthorizationReturned(t1);
    second, sent, requests := m.consentState, m.emitted, m.consentRequests;
  }

  /** Two initialize calls back to back, as the coordinator makes them on its
      first connected event: the second task passes the taken latch and
      resolves Allow while the first is still in the info update, so a failing
      consent request never resolves Error on this path. */
  method BackToBackInitializeResolvesAllow() returns (state: ConsentState, sent: seq<ConsentState>, requests: nat)
    ensures state == Allow && sent == [Allow] && requests == 1
  {
    var m := new ConsentManager(map[], None);
    var t0 := m.Initialize(Some("key"));
    var t1 := m.Initialize(Some("key"));
    m.RequestConsentIfRequired(t0);
    m.RequestConsentIfRequired(t1);
    m.AuthorizationReturned(t1);
    m.ConsentRequestReturned(t0, false, true, FormFailed);
    m.AuthorizationReturned(t0);
    state, sent, requests := m.consentState, m.emitted, m.consentRequests;
  }

  /** After an Error resolution, a privacy-options update with empty TCF strings
      moves the state to Reject without sending anything on consentSubject. */
  method UpdateAfterErrorRederives() returns (completed: ConsentState, state: ConsentState,
                                              sent: seq<ConsentState>)
    ensures completed == Reject && state == Reject && sent == [Error]
  {
    var m := new ConsentManager(map[], None);
    var t := m.Initialize(None);
    m.RequestConsentIfRequired(t);
    m.ConsentRequestReturned(t, true, true, FormFailed);
    m.AuthorizationReturned(t);
    EmptyStoreRejects(map[]);
    completed := m.RequestConsentUpdate(true, FormCompleted(map[]));
    state := m.consentState;
    sent := m.emitted;
  }

  /** Once Allow, a privacy-options update completes Allow whatever the new TCF
      strings say. */
  method UpdateAfterAllowKeepsAllow(after: Defaults) returns (completed: ConsentState, state: ConsentState)
    ensures completed == Allow && state == Allow
  {
    var m := new ConsentManager(map[], None);
    var t := m.Initialize(None);
    m.RequestConsentIfRequired(t);
    m.ConsentRequestReturned(t, true, true, FormCompleted(map[]));
    m.AuthorizationReturned(t);
    completed := m.RequestConsentUpdate(true, FormCompleted(after));
    state := m.consentState;
  }
}
