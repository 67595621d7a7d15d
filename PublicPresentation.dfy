/**
 * The public presentation entry points: which callbacks run for each
 * paywall state (the fail-open / fail-closed policy of the `feature` block),
 * the Objective-C conversions of skip reasons and dismissal results, the
 * reserved-event guard of `publisher`, and the guards of `dismiss`.
 */
module Presentation {
  import opened Wrappers
  import Products

  datatype CloseReason = ForNextPaywall | OtherCloseReason(name: string)

  datatype FeatureGatingBehavior = Gated | NonGated

  /** The parts of `PaywallInfo` the presentation logic reads. */
  datatype PaywallInfo = PaywallInfo(identifier: string, closeReason: CloseReason, featureGatingBehavior: FeatureGatingBehavior)

  datatype PaywallResult = Purchased(productId: string) | Closed | Restored

  datatype Experiment = Experiment(id: string, groupId: string, variantId: string)

  datatype PaywallSkippedReason = Holdout(experiment: Experiment) | NoRuleMatch | EventNotFound | UserIsSubscribed

  /** An `NSError`; the localized description in `userInfo` is not modelled. */
  datatype NSError = NSError(domain: string, code: int, userInfo: map<string, string>)

  datatype PaywallState =
    | Presented(info: PaywallInfo)
    | Dismissed(info: PaywallInfo, result: PaywallResult)
    | Skipped(reason: PaywallSkippedReason)
    | PresentationError(error: NSError)

  // ---------------------------------------------------------------------
  // register: the handler callbacks and the `feature` block
  // ---------------------------------------------------------------------

  /** Which blocks of a `PaywallPresentationHandler` are set. */
  datatype Handler = Handler(hasOnPresent: bool, hasOnDismiss: bool, hasOnSkip: bool, hasOnError: bool)

  /** A callback run on the main queue, in order. */
  datatype Callback =
    | OnPresentHandler(info: PaywallInfo)
    | OnDismissHandler(info: PaywallInfo)
    | OnSkipHandler(reason: PaywallSkippedReason)
    | OnErrorHandler(error: NSError)
    | Feature

  /** A handler block runs only when a handler is given and that block is set. */
  function HandlerCall(isSet: bool, c: Callback): seq<Callback> {
    if isSet then [c] else []
  }

  /**
   * The callbacks `internallyRegister` runs for one paywall state, in order.
   * `featureSupplied` says whether a `feature` block was passed.
   */
  function RegisterCallbacks(state: PaywallState, handler: Option<Handler>, featureSupplied: bool): (r: seq<Callback>)
    // a purchase or a restore unlocks the feature
    ensures state.Dismissed? && !state.result.Closed? ==> (Feature in r <==> featureSupplied)
    // closing unlocks it only for a non-gated paywall not closed to make way for the next one
    ensures state.Dismissed? && state.result.Closed? ==>
              (Feature in r <==> featureSupplied && state.info.closeReason != ForNextPaywall
                                 && state.info.featureGatingBehavior == NonGated)
    // a skipped paywall always unlocks it (fail open)
    ensures state.Skipped? ==> (Feature in r <==> featureSupplied)
    // an error never does (fail closed); only the error handler fires
    ensures state.PresentationError? ==>
              r == if handler.Some? && handler.value.hasOnError then [OnErrorHandler(state.error)] else []
    ensures state.Presented? ==> Feature !in r
    // the handler's own callback for the state fires first, when that block is set
    ensures state.Presented? ==> r == HandlerCall(handler.Some? && handler.value.hasOnPresent, OnPresentHandler(state.info))
    ensures state.Dismissed? ==>
              r == HandlerCall(handler.Some? && handler.value.hasOnDismiss, OnDismissHandler(state.info))
                   + (if Feature in r then [Feature] else [])
    ensures state.Skipped? ==>
              r == HandlerCall(handler.Some? && handler.value.hasOnSkip, OnSkipHandler(state.reason))
                   + (if Feature in r then [Feature] else [])
    // the feature runs at most once, after the handler's own callback
    ensures |r| <= 2
    ensures Feature in r ==> r[|r| - 1] == Feature && Feature !in r[..|r| - 1]
  {
    match state
    case Presented(info) =>
      HandlerCall(handler.Some? && handler.value.hasOnPresent, OnPresentHandler(info))
    case Dismissed(info, result) =>
      var dismissHandler := HandlerCall(handler.Some? && handler.value.hasOnDismiss, OnDismissHandler(info));
      var unlock := match result
        case Purchased(_) => true
        case Restored => true
        case Closed => info.closeReason != ForNextPaywall && info.featureGatingBehavior == NonGated;
      dismissHandler + (if unlock && featureSupplied then [Feature] else [])
    case Skipped(reason) =>
      HandlerCall(handler.Some? && handler.value.hasOnSkip, OnSkipHandler(reason)) + (if featureSupplied then [Feature] else [])
    case PresentationError(error) =>
      HandlerCall(handler.Some? && handler.value.hasOnError, OnErrorHandler(error))
  }

  /**
   * The fail-open / fail-closed policy in one statement: with a `feature`
   * block, it runs exactly when the user bought or restored, when the
   * paywall was skipped, or when a non-gated paywall was closed for a reason
   * other than making way for the next paywall.
   */
  lemma FeaturePolicy(state: PaywallState, handler: Option<Handler>)
    ensures Feature in RegisterCallbacks(state, handler, true) <==>
      || (state.Dismissed? && (state.result.Purchased? || state.result.Restored?))
      || state.Skipped?
      || (state.Dismissed? && state.result.Closed? && state.info.closeReason != ForNextPaywall
          && state.info.featureGatingBehavior == NonGated)
  {
  }

  /** Without a `feature` block there is nothing to unlock, whatever the state. */
  lemma NoFeatureNoUnlock(state: PaywallState, handler: Option<Handler>)
    ensures Feature !in RegisterCallbacks(state, handler, false)
  {
  }

  /** A gated paywall that the user only closed keeps the feature locked. */
  lemma GatedCloseStaysLocked(info: PaywallInfo, handler: Option<Handler>)
    requires info.featureGatingBehavior == Gated
    ensures Feature !in RegisterCallbacks(Dismissed(info, Closed), handler, true)
  {
  }

  // ---------------------------------------------------------------------
  // publisher, track and register
  // ---------------------------------------------------------------------

  /** The overrides the Objective-C `track` builds. */
  datatype PaywallOverrides = PaywallOverrides(
    products: Option<Products.PaywallProducts>,
    ignoreSubscriptionStatus: bool,
    presentationStyleOverride: string)

  /** The `UserInitiatedEvent.Track` that `publisher` tracks. */
  datatype TrackableEvent = TrackableEvent(
    rawName: string,
    canImplicitlyTriggerPaywall: bool,
    customParameters: map<string, Value>,
    isFeatureGatable: bool)

  /**
   * What a call to `publisher` sets off: either a single state emitted at
   * once, or tracking the event and then presenting through an explicit
   * trigger with the given overrides.
   */
  datatype PublisherPlan =
    | Just(state: PaywallState)
    | TrackThenPresent(event: TrackableEvent, overrides: Option<PaywallOverrides>)

  /**
   * `publisher(forEvent:params:paywallOverrides:isFeatureGatable:)`.
   * `checkNotSuperwallEvent` gives the error thrown for a reserved event name
   * (the check itself is not part of this model).
   */
  function Publisher(
    event: string,
    params: Option<map<string, Value>>,
    overrides: Option<PaywallOverrides>,
    isFeatureGatable: bool,
    checkNotSuperwallEvent: string -> Option<NSError>
  ): (r: PublisherPlan)
    // a reserved name yields exactly one presentation error and nothing is tracked
    ensures checkNotSuperwallEvent(event).Some? <==> r.Just?
    ensures r.Just? ==> r.state == PresentationError(checkNotSuperwallEvent(event).value)
    // otherwise the event is tracked as given, never as an implicit trigger
    ensures r.TrackThenPresent? ==>
              && r.event.rawName == event
              && !r.event.canImplicitlyTriggerPaywall
              && r.event.isFeatureGatable == isFeatureGatable
              && r.event.customParameters == (if params.Some? then params.value else map[])
              && r.overrides == overrides
  {
    match checkNotSuperwallEvent(event)
    case Some(error) => Just(PresentationError(error))
    case None =>
      TrackThenPresent(TrackableEvent(event, false, params.GetOr(map[]), isFeatureGatable), overrides)
  }

  /** `register(event:params:handler:feature:)`: feature-gatable exactly when a `feature` block is supplied; no overrides. */
  function Register(event: string, params: Option<map<string, Value>>, featureSupplied: bool,
                    checkNotSuperwallEvent: string -> Option<NSError>): (r: PublisherPlan)
    ensures r.TrackThenPresent? ==> r.event.isFeatureGatable == featureSupplied && r.overrides.None?
    ensures r.Just? <==> checkNotSuperwallEvent(event).Some?
  {
    Publisher(event, params, None, featureSupplied, checkNotSuperwallEvent)
  }

  /** The private Swift `track(event:params:paywallOverrides:paywallHandler:)`: never feature-gatable. */
  function Track(event: string, params: Option<map<string, Value>>, overrides: Option<PaywallOverrides>,
                 checkNotSuperwallEvent: string -> Option<NSError>): (r: PublisherPlan)
    ensures r.TrackThenPresent? ==> !r.event.isFeatureGatable && r.overrides == overrides
    ensures r.Just? <==> checkNotSuperwallEvent(event).Some?
  {
    Publisher(event, params, overrides, false, checkNotSuperwallEvent)
  }

  // ---------------------------------------------------------------------
  // Objective-C conversions
  // ---------------------------------------------------------------------

  datatype PaywallSkippedReasonObjc = HoldoutObjc | NoRuleMatchObjc | EventNotFoundObjc | UserIsSubscribedObjc | ErrorObjc

  datatype PaywallResultObjc = PurchasedObjc | ClosedObjc | RestoredObjc

  const SuperwallErrorDomain := "com.superwall"

  /** The Objective-C reason and error for one skip reason (one case of `onSkipConverter`). */
  function SkipError(reason: PaywallSkippedReason): (r: (PaywallSkippedReasonObjc, NSError))
    ensures r.1.domain == SuperwallErrorDomain
    ensures r.0 != ErrorObjc
    // each Swift reason gets its own Objective-C reason and error code
    ensures reason.Holdout? ==> r.0 == HoldoutObjc && r.1.code == 4001
    ensures reason.NoRuleMatch? ==> r.0 == NoRuleMatchObjc && r.1.code == 4000
    ensures reason.EventNotFound? ==> r.0 == EventNotFoundObjc && r.1.code == 404
    ensures reason.UserIsSubscribed? ==> r.0 == UserIsSubscribedObjc && r.1.code == 4002
    // a holdout carries the experiment's ids
    ensures reason.Holdout? ==>
              && r.1.userInfo.Keys == {"experimentId", "variantId", "groupId"}
              && r.1.userInfo["experimentId"] == reason.experiment.id
              && r.1.userInfo["variantId"] == reason.experiment.variantId
              && r.1.userInfo["groupId"] == reason.experiment.groupId
    ensures !reason.Holdout? ==> r.1.userInfo == map[]
  {
    match reason
    case Holdout(experiment) =>
      (HoldoutObjc, NSError(SuperwallErrorDomain, 4001,
        map["experimentId" := experiment.id, "variantId" := experiment.variantId, "groupId" := experiment.groupId]))
    case NoRuleMatch => (NoRuleMatchObjc, NSError(SuperwallErrorDomain, 4000, map[]))
    case EventNotFound => (EventNotFoundObjc, NSError(SuperwallErrorDomain, 404, map[]))
    case UserIsSubscribed => (UserIsSubscribedObjc, NSError(SuperwallErrorDomain, 4002, map[]))
  }

  /** Reading an Objective-C skip back from its error code. */
  function ReasonForCode(code: int): Option<PaywallSkippedReasonObjc> {
    if code == 4001 then Some(HoldoutObjc)
    else if code == 4000 then Some(NoRuleMatchObjc)
    else if code == 404 then Some(EventNotFoundObjc)
    else if code == 4002 then Some(UserIsSubscribedObjc)
    else None
  }

  /** The error code determines the Objective-C reason: the codes are 4001, 4000, 404 and 4002 and are pairwise distinct. */
  lemma SkipCodesIdentifyReason(reason: PaywallSkippedReason)
    ensures ReasonForCode(SkipError(reason).1.code) == Some(SkipError(reason).0)
    ensures SkipError(reason).1.code in {4001, 4000, 404, 4002}
  {
  }

  /**
   * `onSkipConverter(reason:error:completion:)`: the completions it makes,
   * in order (none without a completion block).
   */
  function OnSkipConverter(reason: Option<PaywallSkippedReason>, error: Option<NSError>, hasCompletion: bool)
    : (r: seq<(PaywallSkippedReasonObjc, NSError)>)
    ensures !hasCompletion ==> r == []
    ensures hasCompletion ==> |r| == (if reason.Some? then 1 else 0) + (if error.Some? then 1 else 0)
    // a supplied error is passed through unchanged as `.error`
    ensures hasCompletion && reason.None? && error.Some? ==> r == [(ErrorObjc, error.value)]
    // a reason is converted by `SkipError` and reported first; an error comes after it
    ensures hasCompletion && reason.Some? ==> r[0] == SkipError(reason.value)
    ensures hasCompletion && error.Some? ==> r[|r| - 1] == (ErrorObjc, error.value)
    ensures forall i :: 0 <= i < |r| && r[i].0 != ErrorObjc ==> r[i].1.domain == SuperwallErrorDomain
  {
    if !hasCompletion then []
    else
      (if reason.Some? then [SkipError(reason.value)] else [])
      + (if error.Some? then [(ErrorObjc, error.value)] else [])
  }

  /** `onDismissConverter`: the Objective-C result and the purchased product id, if any. */
  function OnDismissConverter(result: PaywallResult): (r: (PaywallResultObjc, Option<string>))
    ensures r.1.Some? <==> result.Purchased?
    ensures result.Purchased? ==> r == (PurchasedObjc, Some(result.productId))
  {
    match result
    case Closed => (ClosedObjc, None)
    case Purchased(productId) => (PurchasedObjc, Some(productId))
    case Restored => (RestoredObjc, None)
  }

  /** Reading a dismissal back from its Objective-C pair. */
  function ResultFromObjc(result: PaywallResultObjc, productId: Option<string>): Option<PaywallResult> {
    match result
    case ClosedObjc => if productId.None? then Some(Closed) else None
    case RestoredObjc => if productId.None? then Some(Restored) else None
    case PurchasedObjc => if productId.Some? then Some(Purchased(productId.value)) else None
  }

  /** The Objective-C pair loses nothing: it reads back as the original result. */
  lemma DismissConverterRoundTrip(result: PaywallResult)
    ensures ResultFromObjc(OnDismissConverter(result).0, OnDismissConverter(result).1) == Some(result)
  {
  }

  /** A callback of the Objective-C `track`. */
  datatype ObjcCallback =
    | OnPresentObjc(info: PaywallInfo)
    | OnDismissObjc(result: PaywallResultObjc, productId: Option<string>, info: PaywallInfo)
    | OnSkipObjc(reason: PaywallSkippedReasonObjc, error: NSError)

  function SkipCallbacks(pairs: seq<(PaywallSkippedReasonObjc, NSError)>): (r: seq<ObjcCallback>)
    ensures |r| == |pairs|
    ensures forall i :: 0 <= i < |r| ==> r[i] == OnSkipObjc(pairs[i].0, pairs[i].1)
  {
    if pairs == [] then [] else [OnSkipObjc(pairs[0].0, pairs[0].1)] + SkipCallbacks(pairs[1..])
  }

  /** The state dispatch of `objcTrack`: which Objective-C callback a state produces. */
  function ObjcTrackCallbacks(state: PaywallState, hasOnPresent: bool, hasOnDismiss: bool, hasOnSkip: bool)
    : (r: seq<ObjcCallback>)
    ensures |r| <= 1
    ensures state.Presented? ==> r == if hasOnPresent then [OnPresentObjc(state.info)] else []
    ensures state.Dismissed? && hasOnDismiss ==>
              r == [OnDismissObjc(OnDismissConverter(state.result).0, OnDismissConverter(state.result).1, state.info)]
    // skips and errors both reach `onSkip`; an error as `.error`
    ensures state.Skipped? && hasOnSkip ==> r == [OnSkipObjc(SkipError(state.reason).0, SkipError(state.reason).1)]
    ensures state.PresentationError? && hasOnSkip ==> r == [OnSkipObjc(ErrorObjc, state.error)]
    ensures (state.Dismissed? && !hasOnDismiss) || ((state.Skipped? || state.PresentationError?) && !hasOnSkip) ==> r == []
  {
    match state
    case Presented(info) => if hasOnPresent then [OnPresentObjc(info)] else []
    case Dismissed(info, result) =>
      if hasOnDismiss then
        var converted := OnDismissConverter(result);
        [OnDismissObjc(converted.0, converted.1, info)]
      else []
    case Skipped(reason) => SkipCallbacks(OnSkipConverter(Some(reason), None, hasOnSkip))
    case PresentationError(error) => SkipCallbacks(OnSkipConverter(None, Some(error), hasOnSkip))
  }

  /**
   * `objcTrack`: builds the overrides from its arguments and tracks through
   * the non-gatable Swift `track`.
   */
  function ObjcTrack(event: string, params: Option<map<string, Value>>, products: Option<Products.PaywallProducts>,
                     ignoreSubscriptionStatus: bool, presentationStyleOverride: string,
                     checkNotSuperwallEvent: string -> Option<NSError>): (r: PublisherPlan)
    ensures r.TrackThenPresent? ==>
              && !r.event.isFeatureGatable
              && r.overrides == Some(PaywallOverrides(products, ignoreSubscriptionStatus, presentationStyleOverride))
    ensures r.Just? <==> checkNotSuperwallEvent(event).Some?
  {
    var overrides := PaywallOverrides(products, ignoreSubscriptionStatus, presentationStyleOverride);
    Track(event, params, Some(overrides), checkNotSuperwallEvent)
  }

  // ---------------------------------------------------------------------
  // dismiss
  // ---------------------------------------------------------------------

  /** The presented paywall's view controller, by identity. */
  datatype PaywallViewController = PaywallViewController(id: nat)

  /**
   * A call to the internal `dismiss(_:result:shouldCompleteStatePublisher:closeReason:)`.
   * `None` stands for an argument left at that helper's default, which is not
   * part of this model.
   */
  datatype DismissCall = DismissCall(
    controller: PaywallViewController,
    result: PaywallResult,
    shouldCompleteStatePublisher: Option<bool>,
    closeReason: Option<CloseReason>)

  /** `dismiss()`: with no paywall presented it does nothing; otherwise it closes the paywall with the default reason. */
  function Dismiss(presented: Option<PaywallViewController>): (r: Option<DismissCall>)
    ensures presented.None? <==> r.None?
    ensures r.Some? ==> r.value.controller == presented.value && r.value.result == Closed
    // the flag and the reason are left at the helper's defaults: never `forNextPaywall`
    ensures r.Some? ==> r.value.shouldCompleteStatePublisher.None? && r.value.closeReason.None?
    ensures r.Some? ==> r.value.closeReason != Some(ForNextPaywall)
  {
    match presented
    case None => None
    case Some(vc) => Some(DismissCall(vc, Closed, None, None))
  }

  /**
   * `dismissForNextPaywall()`: with no paywall presented it does nothing;
   * otherwise it closes with reason `forNextPaywall` and keeps the state
   * publisher open for the next paywall.
   */
  function DismissForNextPaywall(presented: Option<PaywallViewController>): (r: Option<DismissCall>)
    ensures presented.None? <==> r.None?
    ensures r.Some? ==>
              && r.value.controller == presented.value && r.value.result == Closed
              && r.value.shouldCompleteStatePublisher == Some(false)
              && r.value.closeReason == Some(ForNextPaywall)
  {
    match presented
    case None => None
    case Some(vc) => Some(DismissCall(vc, Closed, Some(false), Some(ForNextPaywall)))
  }

  /** `dismiss(completion:)`: the dismissal, and whether the completion then runs (always, when given). */
  function DismissWithCompletion(presented: Option<PaywallViewController>, hasCompletion: bool)
    : (r: (Option<DismissCall>, bool))
    ensures r.1 == hasCompletion
    ensures r.0 == Dismiss(presented)
  {
    (Dismiss(presented), hasCompletion)
  }

  /**
   * A paywall dismissed to make way for the next one never unlocks a
   * `register` feature, whether or not it is gated.
   */
  lemma DismissForNextPaywallKeepsFeatureLocked(vc: PaywallViewController, info: PaywallInfo, handler: Option<Handler>)
    requires info.closeReason == DismissForNextPaywall(Some(vc)).value.closeReason.value
    ensures Feature !in RegisterCallbacks(Dismissed(info, DismissForNextPaywall(Some(vc)).value.result), handler, true)
  {
  }
}
