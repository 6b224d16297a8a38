# Rewarded-ad facade, modelled in Dafny

This project models `RewardedAd`, the rewarded-ad facade of react-native-mobile-ads
(`src/ads/RewardedAd.ts`). The facade is a small synchronous state machine placed in front of
the native Google Mobile Ads bridge. It has four parts:

- a module-level request-id counter (`_rewardedRequest`), read and incremented by the factory
  `createForAdRequest`;
- factory validation: the ad unit id must satisfy `isString`, and request options go through
  `validateAdRequestOptions`, whose `Error`s are rethrown with a `RewardedAd.createForAdRequest(_, *)`
  prefix;
- a one-shot `load()`, guarded by `_loaded` and `_isLoadCalled`, that forwards one
  `rewardedLoad(requestId, adUnitId, requestOptions)` to the bridge;
- `show()`, which throws unless the ad is loaded, validates its options with
  `validateAdShowOptions` and forwards `rewardedShow(requestId, adUnitId, options)`, returning
  what the bridge returns.

Files:

- `js.dfy` (module `Js`): JavaScript values; `Completion`, how a call into JavaScript ended
  (a returned value, a thrown `Error` with its message, or another thrown value); `Outcome`,
  what a facade caller sees.
- `bridge.dfy` (module `Bridge`): the calls the bridge receives, and `NativeBridge`, a class
  that records them. It answers `rewardedShow` with a value given when it is built.
- `rewarded_spec.dfy` (module `RewardedSpec`): the facade state of one instance as a value,
  plus one step function per operation. Lemmas cover back-to-back creations, runs of the
  factory, `load()` called twice, and arbitrary runs of operations on one instance.
- `rewarded.dfy` (module `Rewarded`): `Runtime` owns the counter, the helpers and the bridge.
  `RewardedAd` holds the instance fields. Each method is proved to follow its step function.
  Two client methods replay usage scenarios against these contracts.

The helpers that `RewardedAd.ts` imports have no code in this model: `isString`, `isFunction`,
`validateAdRequestOptions` and `validateAdShowOptions`. They are fields of `Collaborators`,
left as arbitrary total functions, so every property here holds whatever they accept. The
`catch` blocks only rethrow `Error`s; any other thrown value falls through. The model keeps
that path: the factory then keeps the options `{}`, and `show()` passes `undefined` to the
bridge.

The factory checks only `isString` (src/ads/RewardedAd.ts:105), so an empty string passes
whenever `isString` accepts it.

## Model

| member | source | states |
|---|---|---|
| `RewardedSpec.CreateStep` | src/ads/RewardedAd.ts:104-120 | The factory throws exactly when `isString` rejects the ad unit id or the request validator throws an `Error`. A non-string id gives the fixed 'adUnitId' message. A validator `Error` gives its message wrapped with the createForAdRequest prefix. A failure leaves the counter unchanged. A success gets the current counter as request id, raises the counter by exactly one, and starts unloaded, with no load issued and no handler. Its options are the validator's result, or `{}` when the validator threw a non-`Error` |
| `RewardedSpec.WrappedInjective` | src/ads/RewardedAd.ts:114-156 | For every prefix, different validator messages give different rethrown messages (the templates at lines 114 and 156), so the validator's message can be recovered |
| `RewardedSpec.ShowMessagesDiffer` | src/ads/RewardedAd.ts:145-157 | A wrapped show-option error never equals the not-loaded message |
| `RewardedSpec.BackToBackIds` | src/ads/RewardedAd.ts:118 | Two successful creations in a row get the consecutive ids counter and counter+1, and the counter advances by two |
| `RewardedSpec.CreateAllIds` | src/ads/RewardedAd.ts:28-118 | For any sequence of factory calls, successful creations get strictly increasing ids, each in [initial counter, final counter), so no id is reused. The counter grows by exactly the number of successes |
| `RewardedSpec.LoadStep` | src/ads/RewardedAd.ts:122-134 | `load()` issues no call exactly when `loaded` or `loadCalled` is already true, and then changes nothing. Otherwise it issues exactly one `rewardedLoad(requestId, adUnitId, requestOptions)` and sets `loadCalled`. It never changes any other field and returns `undefined` |
| `RewardedSpec.LoadTwice` | src/ads/RewardedAd.ts:123-133 | Two `load()` calls in a row issue exactly one `rewardedLoad` on an ad that is neither loaded nor loading, and none otherwise. The second call changes nothing |
| `RewardedSpec.ShowStep` | src/ads/RewardedAd.ts:144-160 | `show()` never changes the instance. It succeeds exactly when the ad is loaded and the show validator does not throw an `Error`. When not loaded, it throws the not-loaded message and calls nothing. On a validator `Error`, it throws the wrapped message and calls nothing. On success, it issues exactly one `rewardedShow(requestId, adUnitId, options)` and returns the bridge's reply. The options are the validator's result, or `undefined` after a non-`Error` throw |
| `RewardedSpec.OnAdEventStep` | src/ads/RewardedAd.ts:136-142 | `onAdEvent` throws the fixed 'handler' message exactly when `isFunction` rejects the handler, and then changes nothing. Otherwise the handler becomes the registered one. It never calls the bridge and never changes `loaded` or `loadCalled` |
| `RewardedSpec.StepInvariant` | src/ads/RewardedAd.ts:122-160 | Any single operation keeps the identity fields and never resets `loaded` or `loadCalled`. It issues a `rewardedLoad` exactly when it sets `loadCalled`. Every call it issues carries the instance's id and unit. It issues a `rewardedShow` only on a loaded ad |
| `RewardedSpec.RunInvariant` | src/ads/RewardedAd.ts:122-160 | The same holds for any sequence of operations, including throwing ones. In particular, the number of `rewardedLoad` calls is 1 exactly when `loadCalled` went from false to true, and 0 otherwise |
| `RewardedSpec.FreshInstanceLoadsAtMostOnce` | src/ads/RewardedAd.ts:122-149 | Whatever the application does, a freshly created instance issues at most one `rewardedLoad`, and a `rewardedShow` only once it is loaded |
| `Rewarded.Runtime.constructor` | src/ads/RewardedAd.ts:28 | The counter starts at 0 |
| `Rewarded.Runtime.CreateForAdRequest` | src/ads/RewardedAd.ts:104-120 | The new counter and the outcome are those of `CreateStep`. A returned ad is a fresh object bound to this runtime, and its state is the one `CreateStep` describes |
| `Rewarded.RewardedAd.constructor` | src/ads/RewardedAd.ts:119 | The new instance holds the given id, unit and options. Assumption, not cited behaviour (the base-class constructor is not part of this model): it starts not loaded, with no load called and no handler registered |
| `Rewarded.RewardedAd.Load` | src/ads/RewardedAd.ts:122-134 | The new instance state and the calls appended to the bridge log are those of `LoadStep` |
| `Rewarded.RewardedAd.OnAdEvent` | src/ads/RewardedAd.ts:136-142 | The new instance state and the outcome are those of `OnAdEventStep`. Nothing outside the instance changes |
| `Rewarded.RewardedAd.Show` | src/ads/RewardedAd.ts:144-160 | The instance is unchanged. The outcome and the calls appended to the bridge log are those of `ShowStep` |
| `Rewarded.RewardedAd.RelayLoaded` | src/ads/RewardedAd.ts:62-65 | Assumption, not cited behaviour: the base class observing LOADED sets `loaded` and changes nothing else |
| `Rewarded.BackToBackCreation` | src/ads/RewardedAd.ts:28-119 | On a new runtime, two successful creations get ids 0 and 1 |
| `Rewarded.LoadThenShow` | src/ads/RewardedAd.ts:122-160 | Scenario: create, register a handler, try `show()` too early (it throws and calls nothing), `load()` twice, receive LOADED, then `show()`. The bridge log is then exactly `rewardedLoad(0, unit, {})` followed by `rewardedShow(0, unit, {})`, and `show()` returns the bridge's reply |

## Left out

- The base class `MobileAd` is not part of this model, nor are the event relay and handler invocation it performs. That covers matching an event's request id, forwarding `(type, error, data)` to the handler, and delivering events asynchronously from the native side. The only piece kept is `RelayLoaded`, an assumed step that sets `loaded`, taken from the usage shown at src/ads/RewardedAd.ts:62-65.
- `RewardedSpec.OnAdEventStep`: takes `_setAdEventHandler` (not part of this model) to replace the handler and return `undefined`. What that method actually returns is not modelled.
- `isString`, `isFunction`, `validateAdRequestOptions` and `validateAdShowOptions` are not part of this model. They are arbitrary functions, so no option schema is described.
- `MobileAds()` and `new RewardedAd(...)` at src/ads/RewardedAd.ts:119 are assumed never to throw. Because `_rewardedRequest++` at line 118 runs first, a throw there would use up a request id; the model does not capture that case.
- `MobileAds()` and the bridge object are not part of this model beyond recording calls. The bridge's synchronous reply to `rewardedShow` is an arbitrary function of its arguments. A bridge call that throws is not modelled.
- The Android module `ReactNativeAdMobRewardedModule.java` is left out: it is native UI-thread plumbing around SDK callbacks.
- The enumerations in `src/AdEventType.ts` and `src/BannerAdSize.ts` are left out: they are constant vocabularies with no behaviour.
- JavaScript numbers are modelled as unbounded integers. The counter never loses precision, unlike a double-precision number past 2^53.
