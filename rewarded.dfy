/** The rewarded-ad facade of src/ads/RewardedAd.ts as objects: the runtime that owns the
    module-level request counter and reaches the native bridge, and the `RewardedAd` class.
    Each method is proved to do what the matching step function of RewardedSpec describes. */
module Rewarded {
  import opened Js
  import opened Bridge
  import opened RewardedSpec

  /** The state RewardedAd.ts reaches outside an instance: the module-level counter
      `_rewardedRequest`, the imported helpers, and the `MobileAds()` context whose `native`
      member is the bridge. */
  class Runtime {
    /** `_rewardedRequest`: the request id the next successful creation gets. */
    var rewardedRequest: nat
    const helpers: Collaborators
    const native: NativeBridge

    constructor (helpers: Collaborators, native: NativeBridge)
      ensures rewardedRequest == 0 && this.helpers == helpers && this.native == native
    {
      rewardedRequest := 0;
      this.helpers := helpers;
      this.native := native;
    }

    /** `RewardedAd.createForAdRequest(adUnitId, requestOptions)`; an omitted
        `requestOptions` is `Undefined`. */
    method CreateForAdRequest(adUnitId: Value, requestOptions: Value) returns (r: Outcome<RewardedAd>)
      modifies this
      ensures var c := CreateStep(helpers, old(rewardedRequest), adUnitId, requestOptions);
              && rewardedRequest == c.counter
              && r.Threw? == c.result.Threw?
              && (r.Threw? ==> r.message == c.result.message)
              && (r.Returned? ==> fresh(r.value) && r.value.runtime == this && r.value.State() == c.result.value)
    {
      if !helpers.isString(adUnitId) {
        return Threw(AdUnitIdNotString);
      }
      var options := EmptyObject;
      match helpers.validateRequestOptions(requestOptions) {
        case Normal(v) => options := v;
        case ThrownError(m) => return Threw(Wrapped(CreatePrefix, m));
        case ThrownOther(_) =>
      }
      var requestId := rewardedRequest;
      rewardedRequest := rewardedRequest + 1;
      var ad := new RewardedAd(this, requestId, adUnitId, options);
      return Returned(ad);
    }
  }

  class RewardedAd {
    /** `_googleMobileAds`. */
    const runtime: Runtime
    const requestId: nat
    const adUnitId: Value
    const requestOptions: Value
    /** `_loaded`. */
    var loaded: bool
    /** `_isLoadCalled`. */
    var loadCalled: bool
    /** The handler registered through `onAdEvent`, if any. */
    var handler: Option<Value>

    /** The instance as a value of RewardedSpec. */
    function State(): AdState
      reads this
    {
      AdState(requestId, adUnitId, requestOptions, loaded, loadCalled, handler)
    }

    /** The base-class constructor `new RewardedAd('rewarded', MobileAds(), requestId, adUnitId, options)`.
        That constructor is not part of this model: starting unloaded, with no load called and
        no handler, is an assumption. */
    constructor (runtime: Runtime, requestId: nat, adUnitId: Value, requestOptions: Value)
      ensures this.runtime == runtime
      ensures State() == Initial(requestId, adUnitId, requestOptions)
    {
      this.runtime := runtime;
      this.requestId := requestId;
      this.adUnitId := adUnitId;
      this.requestOptions := requestOptions;
      loaded := false;
      loadCalled := false;
      handler := None;
    }

    /** `load()`. */
    method Load()
      modifies this, runtime.native
      ensures var t := LoadStep(old(State()));
              State() == t.next && runtime.native.calls == old(runtime.native.calls) + t.calls
    {
      if loaded || loadCalled {
        return;
      }
      loadCalled := true;
      runtime.native.RewardedLoad(requestId, adUnitId, requestOptions);
    }

    /** `onAdEvent(handler)`. */
    method OnAdEvent(handler: Value) returns (r: Outcome<Value>)
      modifies this
      ensures var t := OnAdEventStep(old(State()), runtime.helpers.isFunction, handler);
              State() == t.next && r == t.ret
    {
      if !runtime.helpers.isFunction(handler) {
        return Threw(HandlerNotFunction);
      }
      this.handler := Some(handler);
      return Returned(Undefined);
    }

    /** `show(showOptions)`; an omitted `showOptions` is `Undefined`. */
    method Show(showOptions: Value) returns (r: Outcome<Value>)
      modifies runtime.native
      ensures var t := ShowStep(State(), runtime.helpers.validateShowOptions, runtime.native.showReply, showOptions);
              r == t.ret && runtime.native.calls == old(runtime.native.calls) + t.calls
    {
      if !loaded {
        return Threw(NotLoaded);
      }
      var options := Undefined;
      match runtime.helpers.validateShowOptions(showOptions) {
        case Normal(v) => options := v;
        case ThrownError(m) => return Threw(Wrapped(ShowPrefix, m));
        case ThrownOther(_) =>
      }
      var reply := runtime.native.RewardedShow(requestId, adUnitId, options);
      return Returned(reply);
    }

    /** The base class observing a LOADED event for this instance (an assumption: that code
        is not part of this model). */
    method RelayLoaded()
      modifies this
      ensures State() == RelayLoadedStep(old(State())).next
    {
      loaded := true;
    }
  }

  /** Two rewarded ads created back to back on a new runtime get request ids 0 and 1. */
  method BackToBackCreation(helpers: Collaborators, showReply: (nat, Value, Value) -> Value, unit: Value)
    returns (first: nat, second: nat)
    requires helpers.isString(unit) && !helpers.validateRequestOptions(Undefined).ThrownError?
    ensures first == 0 && second == 1
  {
    var native := new NativeBridge(showReply);
    var rt := new Runtime(helpers, native);
    var a := rt.CreateForAdRequest(unit, Undefined);
    var b := rt.CreateForAdRequest(unit, Undefined);
    first, second := a.value.requestId, b.value.requestId;
  }

  /** Create, register a handler, load twice, observe LOADED, show: the bridge receives one
      `rewardedLoad(0, unit, {})` and then one `rewardedShow(0, unit, {})`. */
  method LoadThenShow(helpers: Collaborators, showReply: (nat, Value, Value) -> Value, unit: Value, handler: Value)
    returns (calls: seq<Call>, shown: Outcome<Value>)
    requires helpers.isString(unit) && helpers.isFunction(handler)
    requires helpers.validateRequestOptions(Undefined) == Normal(EmptyObject)
    requires helpers.validateShowOptions(Undefined) == Normal(EmptyObject)
    ensures calls == [RewardedLoad(0, unit, EmptyObject), RewardedShow(0, unit, EmptyObject)]
    ensures shown == Returned(showReply(0, unit, EmptyObject))
  {
    var native := new NativeBridge(showReply);
    var rt := new Runtime(helpers, native);
    var created := rt.CreateForAdRequest(unit, Undefined);
    var ad := created.value;
    var _ := ad.OnAdEvent(handler);
    var early := ad.Show(Undefined);
    assert early == Threw(NotLoaded) && native.calls == [];
    ad.Load();
    ad.Load();
    ad.RelayLoaded();
    shown := ad.Show(Undefined);
    calls := native.calls;
  }
}
