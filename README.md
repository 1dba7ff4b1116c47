# Screen orientation facade (Expo `ScreenOrientation`), modelled in Dafny

Expo's `ScreenOrientation` module lets application code query and lock the
screen orientation and subscribe to orientation changes. The module is a thin
layer over the native `ExpoScreenOrientation` module (Android and iOS). This
project models the two parts of it that have behaviour of their own:

- **Validation and dispatch** (`ScreenOrientation.dfy`, module
  `ScreenOrientation`). Every public call is a pure function of three inputs:
  the runtime platform (`Android | IOS | Other`), the set of native methods
  that are present, and the argument. The function returns an `Outcome`:
  - `Unavailable(method)`, the `UnavailabilityError`;
  - `InvalidArgument(reason)`, a `TypeError` raised before any native call,
    with the value its message names (most come from the facade's own checks;
    two come from the language runtime);
  - `NoOp`;
  - `CallNative(method, arg)`, the one native call that would be made.

  JavaScript values are the datatype `JsValue`. `Truthy` and `IsNaN` follow
  the language's ToBoolean and ToNumber rules for these values, so the
  `lockPlatformAsync` guards mean what they mean at run time.
- **Subscription registry** (`Subscriptions.dfy`, module `Subscriptions`).
  This is the module-level `_orientationChangeSubscribers` list. It is a class
  with a `seq` field that the three listener operations change in place:
  - `push` on add;
  - a count-down loop of `remove()` and `pop()`;
  - reassignment through `filter`.

  A ghost log records every `remove()` call the registry makes, in order.
  The object invariant says that no handle is listed twice and that the
  registry has not called `remove()` on any listed handle.

Three behaviours of the code are easy to miss:

- `getPlatformOrientationLockAsync` makes no availability check, unlike every
  other call. It calls the native method first and only then looks at the
  platform. An absent native method therefore gives the JavaScript "not a
  function" `TypeError` (`NotAFunction`), not an `UnavailabilityError`.
- `removeOrientationChangeListener` on a handle that is not registered is not
  an error. It still calls `remove()` on the handle and leaves the list as it
  was (`WithoutAbsent`).
- `lockPlatformAsync` on Android tests `isNaN`, not the type. So any truthy
  value that converts to a number is forwarded: a numeric string, `true`, or
  an empty array (`AndroidArrayConstant`).

## Model

| member | source | states |
|---|---|---|
| `ScreenOrientation.LockAsync` | packages/expo/src/ScreenOrientation/ScreenOrientation.ts:69-84 | A missing native method gives `Unavailable` whatever the lock. Otherwise any value outside the ten `OrientationLock` strings gives `InvalidArgument` naming it. OTHER resolves as a no-op. Every other valid lock is forwarded unchanged. There is a native call exactly when the method is present and the lock is valid and not OTHER. |
| `ScreenOrientation.SupportsOrientationLockAsync` | packages/expo/src/ScreenOrientation/ScreenOrientation.ts:160-173 | The same availability-first check and the same membership rule as `lockAsync`. Every valid lock, OTHER included, is forwarded unchanged. It never resolves without the native call. |
| `ScreenOrientation.Allow` | packages/expo/src/ScreenOrientation/ScreenOrientation.ts:55-60 | Without the native method the outcome is `Unavailable`. OTHER is a no-op. Any native call is `lockAsync` with the lock unchanged. |
| `ScreenOrientation.AllowAsync` | packages/expo/src/ScreenOrientation/ScreenOrientation.ts:62-67 | Without the native method the outcome is `Unavailable`. OTHER is a no-op. Any native call is `lockAsync` with the lock unchanged. |
| `ScreenOrientation.DoesSupportAsync` | packages/expo/src/ScreenOrientation/ScreenOrientation.ts:175-180 | Without the native method the outcome is `Unavailable`. Otherwise it calls `supportsOrientationLockAsync` with the lock unchanged exactly when the lock is one of the ten values. |
| `ScreenOrientation.AllowDelegatesToLock` | packages/expo/src/ScreenOrientation/ScreenOrientation.ts:55-67 | The deprecated `allow` and `allowAsync` take exactly `lockAsync`'s decision. |
| `ScreenOrientation.DoesSupportDelegatesToSupports` | packages/expo/src/ScreenOrientation/ScreenOrientation.ts:175-180 | The deprecated `doesSupportAsync` takes exactly `supportsOrientationLockAsync`'s decision. |
| `ScreenOrientation.LockAndSupportValidateAlike` | packages/expo/src/ScreenOrientation/ScreenOrientation.ts:74-83 | With both native methods present, the two lock calls reject exactly the same values, with the same error. They differ only on OTHER, which `lockAsync` skips and `supportsOrientationLockAsync` forwards. |
| `ScreenOrientation.FirstInvalidIndex` | packages/expo/src/ScreenOrientation/ScreenOrientation.ts:107-114 | None exactly when every element is one of the seven `Orientation` strings. Otherwise it gives an invalid element with every earlier element valid. |
| `ScreenOrientation.LockPlatformOptions` | packages/expo/src/ScreenOrientation/ScreenOrientation.ts:91-121 | There is a native call exactly when the platform's own field is acceptable, and the call carries that field unchanged; otherwise the result is an `InvalidArgument`. A falsy or absent field, and every call on another platform, give the "undefined option properties" error. On Android a truthy value that is NaN gives the Android error. On iOS a truthy non-array gives the iOS error, and an array with an invalid element gives an error naming an invalid element of it. |
| `ScreenOrientation.LockPlatformAsync` | packages/expo/src/ScreenOrientation/ScreenOrientation.ts:86-122 | A missing native method gives `Unavailable` whatever the options. Otherwise `null` or `undefined` options fail while being destructured. Any other options get the decision of `LockPlatformOptions`. There is a native call exactly when the method is present, the options are an object and the platform's own field is acceptable, and the call carries that field unchanged. |
| `ScreenOrientation.LockPlatformNamesFirstInvalid` | packages/expo/src/ScreenOrientation/ScreenOrientation.ts:108-113 | On iOS the error names the first invalid element in array order. |
| `ScreenOrientation.LockPlatformReadsOnlySelectedField` | packages/expo/src/ScreenOrientation/ScreenOrientation.ts:91-100 | Two option objects that agree on the current platform's field get the same decision, so the other platform's field never matters. |
| `ScreenOrientation.AndroidRejectsOrientationArray` | packages/expo/src/ScreenOrientation/ScreenOrientation.ts:93-98 | A non-empty array of orientation names given as the Android constant is NaN after conversion, so it is rejected with the Android error. |
| `ScreenOrientation.AndroidArrayConstant` | packages/expo/src/ScreenOrientation/ScreenOrientation.ts:93-99 | An array given as the Android constant is forwarded exactly when its comma join is a numeric string, and is rejected with the Android error otherwise. In particular the empty array, which converts to 0, is forwarded. |
| `ScreenOrientation.Forward` | packages/expo/src/ScreenOrientation/ScreenOrientation.ts:124-143 | A call without argument does no validation. There is a native call without argument exactly when the method is present, and `Unavailable` for that method otherwise. |
| `ScreenOrientation.UnlockAsync` | packages/expo/src/ScreenOrientation/ScreenOrientation.ts:124-129 | Calls the native `unlockAsync` without argument exactly when it is present, and gives `Unavailable` otherwise. |
| `ScreenOrientation.GetOrientationAsync` | packages/expo/src/ScreenOrientation/ScreenOrientation.ts:131-136 | Calls the native `getOrientationAsync` without argument exactly when it is present, and gives `Unavailable` otherwise. |
| `ScreenOrientation.GetOrientationLockAsync` | packages/expo/src/ScreenOrientation/ScreenOrientation.ts:138-143 | Calls the native `getOrientationLockAsync` without argument exactly when it is present, and gives `Unavailable` otherwise. |
| `ScreenOrientation.GetPlatformOrientationLockAsync` | packages/expo/src/ScreenOrientation/ScreenOrientation.ts:145-158 | An absent native method gives `NotAFunction`. Otherwise the result resolves exactly on Android and iOS, and on any other platform it is `PlatformUnavailable` naming `getPlatformOrientationLockAsync`. It keeps the raw value under the current platform's key: `screenOrientationConstantAndroid` exactly on Android and `screenOrientationArrayIOS` exactly on iOS. It never has both keys. |
| `ScreenOrientation.PlatformLockRoundTrip` | packages/expo/src/ScreenOrientation/ScreenOrientation.ts:145-157 | Take the value read by `getPlatformOrientationLockAsync` and hand it back to `lockPlatformAsync`. It is forwarded exactly when it is an acceptable lock for the platform, and then it is the very same value. |
| `ScreenOrientation.EventName` | packages/expo/src/ScreenOrientation/ScreenOrientation.ts:192 | `expoDidUpdateDimensions` exactly on iOS and `didUpdateDimensions` on every other platform. |
| `ScreenOrientation.HandlerNativeQueries` | packages/expo/src/ScreenOrientation/ScreenOrientation.ts:195-205 | The event handler makes no native calls exactly on iOS. Elsewhere it queries the current lock and the current orientation. |
| `ScreenOrientation.ChangeEvent` | packages/expo/src/ScreenOrientation/ScreenOrientation.ts:194-206 | On iOS the event delivered to the listener carries the update's lock and orientation info. Elsewhere it carries the two queried values. |
| `ScreenOrientation.ChangeEventSources` | packages/expo/src/ScreenOrientation/ScreenOrientation.ts:193-207 | On iOS the delivered event copies the update's two fields. Elsewhere it is built from the two queried values alone, whatever the update was. |
| `ScreenOrientation.EventNameMatchesQueries` | packages/expo/src/ScreenOrientation/ScreenOrientation.ts:192-205 | The iOS-specific event name is chosen exactly when the handler makes no native queries. |
| `Subscriptions.EmitterSubscription.constructor` | packages/expo/src/ScreenOrientation/ScreenOrientation.ts:193 | The emitter's `addListener` gives a handle bound to the given event name and listener. The listener recorded is the caller's; the handler the emitter actually receives wraps it (see `ChangeEvent` and `HandlerNativeQueries`). |
| `Subscriptions.OrientationChangeSubscribers.constructor` | packages/expo/src/ScreenOrientation/ScreenOrientation.ts:53 | The registry starts empty, with no `remove()` calls made. |
| `Subscriptions.OrientationChangeSubscribers.AddOrientationChangeListener` | packages/expo/src/ScreenOrientation/ScreenOrientation.ts:185-211 | A non-function listener gives `InvalidArgument` naming it and leaves the registry unchanged. Otherwise it returns a fresh subscription to the platform's event name and appends exactly that handle last. It calls no `remove()` and keeps the invariant. |
| `Subscriptions.OrientationChangeSubscribers.RemoveOrientationChangeListeners` | packages/expo/src/ScreenOrientation/ScreenOrientation.ts:213-223 | The registry is empty afterwards. The `remove()` calls made are the registered handles in reverse registration order. |
| `Subscriptions.OrientationChangeSubscribers.RemoveOrientationChangeListener` | packages/expo/src/ScreenOrientation/ScreenOrientation.ts:225-231 | A falsy argument, or one whose `remove` is missing or falsy, gives `InvalidSubscription` and changes nothing. A truthy `remove` that is not a function passes the guard and then fails with "not a function" before the filter, changing nothing. Otherwise it calls `remove()` once on the handle and filters every occurrence of it out of the registry. It keeps the invariant. |
| `Subscriptions.RemoveAllCallsEachOnce` | packages/expo/src/ScreenOrientation/ScreenOrientation.ts:213-223 | On a registry without repeats, the reverse-order removal calls `remove()` exactly once on every registered handle and on no other. |
| `Subscriptions.ReversedAt` | packages/expo/src/ScreenOrientation/ScreenOrientation.ts:215-222 | The k-th `remove()` call of the count-down loop is on the handle registered k-th from the end. |
| `Subscriptions.ReversedMultiset` | packages/expo/src/ScreenOrientation/ScreenOrientation.ts:215-222 | The count-down loop's calls are a permutation of the registered handles. |
| `Subscriptions.WithoutMembers` | packages/expo/src/ScreenOrientation/ScreenOrientation.ts:230 | After the filter, a handle is listed exactly when it was listed before and is not the removed one. |
| `Subscriptions.WithoutMultiset` | packages/expo/src/ScreenOrientation/ScreenOrientation.ts:230 | The filter drops every occurrence of the removed handle and keeps every other handle as often as before. |
| `Subscriptions.WithoutConcat` | packages/expo/src/ScreenOrientation/ScreenOrientation.ts:230 | The filter works piece by piece, so the kept handles keep their relative order. |
| `Subscriptions.WithoutAbsent` | packages/expo/src/ScreenOrientation/ScreenOrientation.ts:225-231 | Removing a handle that is not registered leaves the registry unchanged and is not an error. |
| `Subscriptions.WithoutDistinct` | packages/expo/src/ScreenOrientation/ScreenOrientation.ts:230 | Filtering keeps a list without repeats free of repeats. |
| `Subscriptions.RemoveOneShrinksByOne` | packages/expo/src/ScreenOrientation/ScreenOrientation.ts:230 | On a registry without repeats, removing a registered handle shortens it by exactly one. |

## Left out

- What the native `ExpoScreenOrientation` methods do, the values they return
  (the boolean of `supportsOrientationLockAsync`, the `OrientationInfo` and
  lock of the getters), and the errors they raise, which reach the caller
  unchanged. An outcome records only which native call is made and with what.
- `GetPlatformOrientationLockAsync`: the raw native value is an input. Its
  native call is made before the platform check, so on another platform the
  call has already happened when the error is raised; the result does not
  record that.
- The `NativeEventEmitter`: how events are delivered and when listeners run.
  A subscription's `remove()` is only logged, and it is assumed never to
  throw. If it threw, the bulk removal would stop with that handle and every
  earlier one still listed, since each `pop()` follows a successful
  `remove()`; and the single removal would skip the filter.
- The `Promise.all` in the non-iOS event handler. It issues the two queries
  together and waits for both. The model keeps only the two results.
- The `console.warn` deprecation messages. Also, `allow` does not await
  `lockAsync`, so its errors never reach its caller.
- `JsValue`: numbers are integers plus NaN. Fractions and infinities are left
  out because floating point is out of scope.
- `IsNaN`: a string counts as numeric only when it is empty or an optionally
  signed run of decimal digits. Whitespace, decimals, exponents, hexadecimal
  and `Infinity` count as NaN. `Object` stands for objects whose conversion
  is NaN.
- Array elements are strings. Arrays holding other values are out of scope.
- `SizeClassIOS` and the content of `OrientationInfo`, which are passed
  through untouched.
- Direct `remove()` calls on a returned handle by the code holding it are
  not modelled. Such a handle stays listed, and the bulk removal calls
  `remove()` on it again. The invariant's clause that no listed handle has
  been removed speaks only of the registry's own calls.
- `Subscriptions.OrientationChangeSubscribers.RemoveOrientationChangeListeners`:
  it assumes that no `remove()` call changes the registry while the loop
  runs. Re-entrant changes through the emitter are out of scope.
