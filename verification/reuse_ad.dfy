/** What the reusable full-screen units (ReuseAdProtocol) report outwards:
    their SDK requests and their handler calls, in order. */
module ReuseAd {

  /** What the unit does outwards, in order. */
  datatype Notice =
    | LoadRequested(unitId: string)   // the SDK load request
    | LoadSucceeded                   // didLoadSuccess?()
    | LoadFailed                      // didLoadFail?()
    | PresentRequested                // the ad is asked to present
    | ShowRefused                     // the didFail handler passed to show(...)
    | ShowFailed                      // didShowFail?()
    | WillPresent                     // willPresent?()
    | Hidden                          // didHide?()

  /** Load requests among the notices not yet followed by a reply. */
  function Pending(notices: seq<Notice>): int
  {
    if notices == [] then 0
    else
      var last := notices[|notices| - 1];
      Pending(notices[..|notices| - 1]) +
      (if last.LoadRequested? then 1 else if last.LoadSucceeded? || last.LoadFailed? then -1 else 0)
  }

  lemma {:induction false} PendingAppend(notices: seq<Notice>, n: Notice)
    ensures Pending(notices + [n]) ==
            Pending(notices) + (if n.LoadRequested? then 1 else if n.LoadSucceeded? || n.LoadFailed? then -1 else 0)
  {
    assert (notices + [n])[..|notices|] == notices;
  }
}
