/** The screen-orientation facade: the validation and dispatch decisions that
    sit in front of the native `ExpoScreenOrientation` module.

    Every public call is a pure function of the runtime platform, the set of
    native methods the native module exposes, and the call's argument. Its
    result is an Outcome: the error raised before any native call, a no-op,
    or the single native call that would be made and its parameter. What the
    native module does with that call is outside the model.
 */
module ScreenOrientation {

  datatype Option<T> = None | Some(value: T)

  datatype Platform = Android | IOS | Other

  /** The names of the native methods that are present. */
  type Capabilities = set<string>

  const LockAsyncMethod := "lockAsync"
  const LockPlatformAsyncMethod := "lockPlatformAsync"
  const UnlockAsyncMethod := "unlockAsync"
  const GetOrientationAsyncMethod := "getOrientationAsync"
  const GetOrientationLockAsyncMethod := "getOrientationLockAsync"
  const GetPlatformOrientationLockAsyncMethod := "getPlatformOrientationLockAsync"
  const SupportsOrientationLockAsyncMethod := "supportsOrientationLockAsync"

  /** The values of the string enum `Orientation`, in declaration order. */
  const Orientations: seq<string> :=
    ["UNKNOWN", "PORTRAIT", "PORTRAIT_UP", "PORTRAIT_DOWN",
     "LANDSCAPE", "LANDSCAPE_LEFT", "LANDSCAPE_RIGHT"]

  /** The values of the string enum `OrientationLock`, in declaration order
      (ALL_BUT_UPSIDE_DOWN is deprecated but still accepted). */
  const OrientationLocks: seq<string> :=
    ["DEFAULT", "ALL", "PORTRAIT", "PORTRAIT_UP", "PORTRAIT_DOWN",
     "LANDSCAPE", "LANDSCAPE_LEFT", "LANDSCAPE_RIGHT", "OTHER",
     "ALL_BUT_UPSIDE_DOWN"]

  const OtherLock := "OTHER"

  /** A JavaScript value, as far as the facade can tell values apart.
      Numbers are the finite integral ones, plus NaN. Arrays hold strings. */
  datatype JsValue =
    | Undefined
    | Null
    | Bool(b: bool)
    | Number(n: int)
    | NaN
    | Str(s: string)
    | Array(items: seq<string>)
    | Object
    | Function

  /** JavaScript truthiness (ToBoolean). Arrays and objects are always truthy. */
  predicate Truthy(v: JsValue) {
    match v
    case Undefined => false
    case Null => false
    case Bool(b) => b
    case Number(n) => n != 0
    case NaN => false
    case Str(s) => s != ""
    case Array(_) => true
    case Object => true
    case Function => true
  }

  predicate IsDigit(c: char) { '0' <= c <= '9' }

  /** The strings whose numeric conversion is not NaN: the empty string
      (which converts to 0) and an optionally signed run of decimal digits. */
  predicate NumericString(s: string) {
    || s == ""
    || DigitRun(s)
    || ((s[0] == '+' || s[0] == '-') && DigitRun(s[1..]))
  }

  predicate DigitRun(s: string) {
    |s| > 0 && forall i :: 0 <= i < |s| ==> IsDigit(s[i])
  }

  /** `Array.prototype.join` with the default separator, which is how an
      array of strings turns into a primitive. */
  function Join(items: seq<string>): string {
    if |items| == 0 then ""
    else if |items| == 1 then items[0]
    else items[0] + "," + Join(items[1..])
  }

  /** The global `isNaN`: true when the numeric conversion of `v` is NaN. */
  predicate IsNaN(v: JsValue) {
    match v
    case Undefined => true
    case Null => false
    case Bool(_) => false
    case Number(_) => false
    case NaN => true
    case Str(s) => !NumericString(s)
    case Array(items) => !NumericString(Join(items))
    case Object => true
    case Function => true
  }

  predicate IsOrientation(s: string) { s in Orientations }

  /** `Object.values(OrientationLock).includes(v)`: strict equality with one of
      the ten enum strings, so no non-string value is a lock. */
  predicate IsOrientationLock(v: JsValue) { v.Str? && v.s in OrientationLocks }

  /** The TypeErrors a call can end in before reaching the native module, each
      with the value its message interpolates. */
  datatype TypeErrorReason =
    | InvalidOrientationLock(lock: JsValue)
    | AndroidConstantNotNumeric(constant: JsValue)
    | IOSArrayNotArray(array: JsValue)
    | InvalidOrientation(orientation: string)
    | UndefinedOptionProperties
    | ListenerNotFunction(listener: JsValue)
    | InvalidSubscription
    // raised by the language runtime rather than by the facade's own checks
    | CannotDestructureOptions
    | RemoveNotAFunction

  datatype NativeArg = NoArg | Arg(value: JsValue)

  /** What a call does before (or instead of) reaching the native module. */
  datatype Outcome =
    | Unavailable(methodName: string)        // UnavailabilityError('ScreenOrientation', methodName)
    | InvalidArgument(reason: TypeErrorReason)
    | NoOp                                   // resolves without calling native
    | CallNative(methodName: string, arg: NativeArg)

  // ---------------------------------------------------------------------------
  // lockAsync, supportsOrientationLockAsync and their deprecated aliases

  function LockAsync(caps: Capabilities, lock: JsValue): (r: Outcome)
    // availability is checked before the argument
    ensures LockAsyncMethod !in caps ==> r == Unavailable(LockAsyncMethod)
    ensures LockAsyncMethod in caps && !IsOrientationLock(lock) ==>
              r == InvalidArgument(InvalidOrientationLock(lock))
    ensures r == NoOp <==> LockAsyncMethod in caps && lock == Str(OtherLock)
    ensures r.CallNative? <==>
              LockAsyncMethod in caps && IsOrientationLock(lock) && lock != Str(OtherLock)
    ensures r.CallNative? ==> r == CallNative(LockAsyncMethod, Arg(lock))
  {
    if LockAsyncMethod !in caps then Unavailable(LockAsyncMethod)
    else if !IsOrientationLock(lock) then InvalidArgument(InvalidOrientationLock(lock))
    else if lock == Str(OtherLock) then NoOp
    else CallNative(LockAsyncMethod, Arg(lock))
  }

  function SupportsOrientationLockAsync(caps: Capabilities, lock: JsValue): (r: Outcome)
    ensures SupportsOrientationLockAsyncMethod !in caps ==>
              r == Unavailable(SupportsOrientationLockAsyncMethod)
    ensures SupportsOrientationLockAsyncMethod in caps && !IsOrientationLock(lock) ==>
              r == InvalidArgument(InvalidOrientationLock(lock))
    // OTHER is not special here: every valid lock, OTHER included, is forwarded
    ensures r.CallNative? <==> SupportsOrientationLockAsyncMethod in caps && IsOrientationLock(lock)
    ensures r.CallNative? ==> r == CallNative(SupportsOrientationLockAsyncMethod, Arg(lock))
    ensures r != NoOp
  {
    if SupportsOrientationLockAsyncMethod !in caps then Unavailable(SupportsOrientationLockAsyncMethod)
    else if !IsOrientationLock(lock) then InvalidArgument(InvalidOrientationLock(lock))
    else CallNative(SupportsOrientationLockAsyncMethod, Arg(lock))
  }

  /** Deprecated `allow`: starts `lockAsync` without awaiting it. */
  function Allow(caps: Capabilities, lock: JsValue): (r: Outcome)
    ensures LockAsyncMethod !in caps ==> r == Unavailable(LockAsyncMethod)
    ensures r.CallNative? ==> r == CallNative(LockAsyncMethod, Arg(lock))
    ensures r == NoOp <==> LockAsyncMethod in caps && lock == Str(OtherLock)
  {
    LockAsync(caps, lock)
  }

  /** Deprecated `allowAsync`: awaits `lockAsync`. */
  function AllowAsync(caps: Capabilities, lock: JsValue): (r: Outcome)
    ensures LockAsyncMethod !in caps ==> r == Unavailable(LockAsyncMethod)
    ensures r.CallNative? ==> r == CallNative(LockAsyncMethod, Arg(lock))
    ensures r == NoOp <==> LockAsyncMethod in caps && lock == Str(OtherLock)
  {
    LockAsync(caps, lock)
  }

  /** Deprecated `doesSupportAsync`: awaits `supportsOrientationLockAsync`. */
  function DoesSupportAsync(caps: Capabilities, lock: JsValue): (r: Outcome)
    ensures SupportsOrientationLockAsyncMethod !in caps ==>
              r == Unavailable(SupportsOrientationLockAsyncMethod)
    ensures r.CallNative? <==> SupportsOrientationLockAsyncMethod in caps && IsOrientationLock(lock)
    ensures r.CallNative? ==> r == CallNative(SupportsOrientationLockAsyncMethod, Arg(lock))
  {
    SupportsOrientationLockAsync(caps, lock)
  }

  /** `allow` and `allowAsync` take exactly the decisions of `lockAsync`. */
  lemma AllowDelegatesToLock(caps: Capabilities, lock: JsValue)
    ensures Allow(caps, lock) == AllowAsync(caps, lock) == LockAsync(caps, lock)
  {
  }

  /** `doesSupportAsync` takes exactly the decisions of `supportsOrientationLockAsync`. */
  lemma DoesSupportDelegatesToSupports(caps: Capabilities, lock: JsValue)
    ensures DoesSupportAsync(caps, lock) == SupportsOrientationLockAsync(caps, lock)
  {
  }

  /** With both native methods present, `lockAsync` and
      `supportsOrientationLockAsync` reject exactly the same arguments, and
      differ only on OTHER, which only the latter forwards. */
  lemma LockAndSupportValidateAlike(caps: Capabilities, lock: JsValue)
    requires LockAsyncMethod in caps && SupportsOrientationLockAsyncMethod in caps
    ensures LockAsync(caps, lock).InvalidArgument? <==>
            SupportsOrientationLockAsync(caps, lock).InvalidArgument?
    ensures LockAsync(caps, lock).InvalidArgument? ==>
            LockAsync(caps, lock) == SupportsOrientationLockAsync(caps, lock)
    ensures LockAsync(caps, lock) == NoOp <==>
            SupportsOrientationLockAsync(caps, lock) == CallNative(SupportsOrientationLockAsyncMethod, Arg(Str(OtherLock)))
    ensures LockAsync(caps, lock).CallNative? ==>
            LockAsync(caps, lock).arg == SupportsOrientationLockAsync(caps, lock).arg
  {
  }

  // ---------------------------------------------------------------------------
  // lockPlatformAsync

  /** The options object `{screenOrientationConstantAndroid?, screenOrientationArrayIOS?}`;
      None is an absent key. */
  datatype PlatformOrientationInfo = PlatformOrientationInfo(
    screenOrientationConstantAndroid: Option<JsValue>,
    screenOrientationArrayIOS: Option<JsValue>)

  /** The argument of `lockPlatformAsync`: `null` or `undefined`, which cannot
      be destructured, or an object (a primitive such as a number destructures
      like an object without either key). */
  datatype OptionsArg = NullishOptions | OptionsObject(info: PlatformOrientationInfo)

  /** Destructuring an absent key yields `undefined`. */
  function Field(o: Option<JsValue>): JsValue {
    if o.Some? then o.value else Undefined
  }

  /** The field of `options` the current platform reads (`undefined` on a
      platform that reads neither). */
  function SelectedField(platform: Platform, options: PlatformOrientationInfo): JsValue {
    match platform
    case Android => Field(options.screenOrientationConstantAndroid)
    case IOS => Field(options.screenOrientationArrayIOS)
    case Other => Undefined
  }

  /** Reference definition of the values `lockPlatformAsync` lets through to
      the native module: on Android a truthy value whose numeric conversion is
      not NaN; on iOS an array of Orientation names; nothing elsewhere. */
  predicate AcceptedPlatformLock(platform: Platform, v: JsValue) {
    match platform
    case Android => Truthy(v) && !IsNaN(v)
    case IOS => v.Array? && forall i :: 0 <= i < |v.items| ==> IsOrientation(v.items[i])
    case Other => false
  }

  /** The index of the first element that is not an Orientation name: the
      element the `for ... of` check stops at. */
  function FirstInvalidIndex(items: seq<string>): (r: Option<nat>)
    ensures r.None? <==> forall i :: 0 <= i < |items| ==> IsOrientation(items[i])
    ensures r.Some? ==> r.value < |items| && !IsOrientation(items[r.value])
    ensures r.Some? ==> forall j :: 0 <= j < r.value ==> IsOrientation(items[j])
  {
    if |items| == 0 then None
    else if !IsOrientation(items[0]) then Some(0)
    else match FirstInvalidIndex(items[1..])
      case None => None
      case Some(k) => Some(k + 1)
  }

  /** The final guard: an unset or falsy parameter is reported as
      "undefined option properties", anything else is forwarded. */
  function LockWithParam(param: Option<JsValue>): Outcome {
    if param.None? || !Truthy(param.value) then InvalidArgument(UndefinedOptionProperties)
    else CallNative(LockPlatformAsyncMethod, Arg(param.value))
  }

  /** The decision once `options` has been destructured: the platform
      branches and the final guard. */
  function LockPlatformOptions(platform: Platform, options: PlatformOrientationInfo): (r: Outcome)
    // forwarded exactly when the selected field is acceptable, and then unchanged
    ensures r.CallNative? <==> AcceptedPlatformLock(platform, SelectedField(platform, options))
    ensures r.CallNative? ==> r == CallNative(LockPlatformAsyncMethod, Arg(SelectedField(platform, options)))
    ensures r.CallNative? || r.InvalidArgument?
    // absent or falsy selected field, and every call on another platform
    ensures !Truthy(SelectedField(platform, options)) ==> r == InvalidArgument(UndefinedOptionProperties)
    ensures platform == Other ==> r == InvalidArgument(UndefinedOptionProperties)
    // Android: truthy but not numeric
    ensures var c := Field(options.screenOrientationConstantAndroid);
            platform == Android && Truthy(c) && IsNaN(c) ==>
              r == InvalidArgument(AndroidConstantNotNumeric(c))
    // iOS: truthy but not an array
    ensures var a := Field(options.screenOrientationArrayIOS);
            platform == IOS && Truthy(a) && !a.Array? ==>
              r == InvalidArgument(IOSArrayNotArray(a))
    // iOS: an array with an element that is not an Orientation
    ensures var a := Field(options.screenOrientationArrayIOS);
            platform == IOS && a.Array? && !AcceptedPlatformLock(IOS, a) ==>
              r.InvalidArgument? && r.reason.InvalidOrientation? &&
              r.reason.orientation in a.items && !IsOrientation(r.reason.orientation)
  {
    var android := Field(options.screenOrientationConstantAndroid);
    var ios := Field(options.screenOrientationArrayIOS);
    if platform == Android && Truthy(android) then
      if IsNaN(android) then InvalidArgument(AndroidConstantNotNumeric(android))
      else LockWithParam(Some(android))
    else if platform == IOS && Truthy(ios) then
      if !ios.Array? then InvalidArgument(IOSArrayNotArray(ios))
      else match FirstInvalidIndex(ios.items)
        case Some(k) => InvalidArgument(InvalidOrientation(ios.items[k]))
        case None => LockWithParam(Some(ios))
    else LockWithParam(None)
  }

  /** The whole call: availability first, then destructuring, then the
      decision on the destructured fields. */
  function LockPlatformAsync(platform: Platform, caps: Capabilities, options: OptionsArg): (r: Outcome)
    ensures LockPlatformAsyncMethod !in caps ==> r == Unavailable(LockPlatformAsyncMethod)
    ensures LockPlatformAsyncMethod in caps && options.NullishOptions? ==>
              r == InvalidArgument(CannotDestructureOptions)
    ensures r.CallNative? <==>
              && LockPlatformAsyncMethod in caps
              && options.OptionsObject?
              && AcceptedPlatformLock(platform, SelectedField(platform, options.info))
    ensures r.CallNative? ==>
              r == CallNative(LockPlatformAsyncMethod, Arg(SelectedField(platform, options.info)))
    ensures r != NoOp
    ensures LockPlatformAsyncMethod in caps && options.OptionsObject? ==>
              r == LockPlatformOptions(platform, options.info)
  {
    if LockPlatformAsyncMethod !in caps then Unavailable(LockPlatformAsyncMethod)
    else if options.NullishOptions? then InvalidArgument(CannotDestructureOptions)
    else LockPlatformOptions(platform, options.info)
  }

  /** On iOS the error names the first invalid element in array order. */
  lemma LockPlatformNamesFirstInvalid(options: PlatformOrientationInfo, k: nat)
    requires Field(options.screenOrientationArrayIOS).Array?
    requires var items := Field(options.screenOrientationArrayIOS).items;
             k < |items| && !IsOrientation(items[k]) &&
             forall j :: 0 <= j < k ==> IsOrientation(items[j])
    ensures LockPlatformOptions(IOS, options) ==
            InvalidArgument(InvalidOrientation(Field(options.screenOrientationArrayIOS).items[k]))
  {
  }

  /** Each platform reads only its own field: the other field never changes
      the decision. */
  lemma LockPlatformReadsOnlySelectedField(platform: Platform,
                                           o1: PlatformOrientationInfo, o2: PlatformOrientationInfo)
    requires SelectedField(platform, o1) == SelectedField(platform, o2)
    ensures LockPlatformOptions(platform, o1) == LockPlatformOptions(platform, o2)
  {
  }

  /** The first character of a join is that of the first item. */
  lemma JoinStartsWithFirstItem(items: seq<string>)
    requires |items| > 0 && |items[0]| > 0
    ensures |Join(items)| > 0 && Join(items)[0] == items[0][0]
  {
  }

  /** Every Orientation name starts with a capital letter. */
  lemma OrientationStartsWithLetter(s: string)
    requires IsOrientation(s)
    ensures |s| > 0 && 'A' <= s[0] <= 'Z'
  {
  }

  /** An array of Orientation names given as the Android constant converts
      to NaN, so it is rejected as not numeric rather than forwarded. */
  lemma AndroidRejectsOrientationArray(items: seq<string>, ios: Option<JsValue>)
    requires |items| > 0 && forall i :: 0 <= i < |items| ==> IsOrientation(items[i])
    ensures LockPlatformOptions(Android, PlatformOrientationInfo(Some(Array(items)), ios)) ==
            InvalidArgument(AndroidConstantNotNumeric(Array(items)))
  {
    OrientationStartsWithLetter(items[0]);
    JoinStartsWithFirstItem(items);
    var joined := Join(items);
    assert !IsDigit(joined[0]) && joined[0] != '+' && joined[0] != '-';
    assert !NumericString(joined);
    assert IsNaN(Array(items));
  }

  /** An array given as the Android constant is truthy, and it converts to
      the number its join spells: it is forwarded exactly when that join is
      numeric. The empty array, whose join is "" and converts to 0, is one of
      them. */
  lemma AndroidArrayConstant(items: seq<string>, ios: Option<JsValue>)
    ensures LockPlatformOptions(Android, PlatformOrientationInfo(Some(Array(items)), ios)) ==
            if NumericString(Join(items)) then CallNative(LockPlatformAsyncMethod, Arg(Array(items)))
            else InvalidArgument(AndroidConstantNotNumeric(Array(items)))
    ensures LockPlatformOptions(Android, PlatformOrientationInfo(Some(Array([])), ios)) ==
            CallNative(LockPlatformAsyncMethod, Arg(Array([])))
  {
  }

  // ---------------------------------------------------------------------------
  // Plain forwarding calls: unlockAsync, getOrientationAsync, getOrientationLockAsync

  /** A call with no argument: unavailable when the native method is absent,
      otherwise forwarded; never rejected for its argument and never a no-op. */
  function Forward(caps: Capabilities, methodName: string): (r: Outcome)
    ensures r.CallNative? <==> methodName in caps
    ensures r.CallNative? ==> r.methodName == methodName && r.arg == NoArg
    ensures !r.CallNative? ==> r == Unavailable(methodName)
  {
    if methodName !in caps then Unavailable(methodName) else CallNative(methodName, NoArg)
  }

  function UnlockAsync(caps: Capabilities): (r: Outcome)
    ensures r.CallNative? <==> UnlockAsyncMethod in caps
    ensures r.CallNative? ==> r == CallNative(UnlockAsyncMethod, NoArg)
    ensures !r.CallNative? ==> r == Unavailable(UnlockAsyncMethod)
  {
    Forward(caps, UnlockAsyncMethod)
  }

  function GetOrientationAsync(caps: Capabilities): (r: Outcome)
    ensures r.CallNative? <==> GetOrientationAsyncMethod in caps
    ensures r.CallNative? ==> r == CallNative(GetOrientationAsyncMethod, NoArg)
    ensures !r.CallNative? ==> r == Unavailable(GetOrientationAsyncMethod)
  {
    Forward(caps, GetOrientationAsyncMethod)
  }

  function GetOrientationLockAsync(caps: Capabilities): (r: Outcome)
    ensures r.CallNative? <==> GetOrientationLockAsyncMethod in caps
    ensures r.CallNative? ==> r == CallNative(GetOrientationLockAsyncMethod, NoArg)
    ensures !r.CallNative? ==> r == Unavailable(GetOrientationLockAsyncMethod)
  {
    Forward(caps, GetOrientationLockAsyncMethod)
  }

  // ---------------------------------------------------------------------------
  // getPlatformOrientationLockAsync

  datatype PlatformLockResult =
    | Resolved(info: PlatformOrientationInfo)
    | NotAFunction(methodName: string)       // the TypeError of calling an absent native method
    | PlatformUnavailable(methodName: string)

  /** `raw` is what the native call resolved to. The native method is called
      without an availability check, and before the platform is looked at. */
  function GetPlatformOrientationLockAsync(platform: Platform, caps: Capabilities,
                                           raw: JsValue): (r: PlatformLockResult)
    ensures GetPlatformOrientationLockAsyncMethod !in caps ==>
              r == NotAFunction(GetPlatformOrientationLockAsyncMethod)
    ensures GetPlatformOrientationLockAsyncMethod in caps ==>
              (r.Resolved? <==> platform != Other)
    ensures r.PlatformUnavailable? ==> r.methodName == GetPlatformOrientationLockAsyncMethod
    // any platform other than Android and iOS raises UnavailabilityError
    ensures GetPlatformOrientationLockAsyncMethod in caps && platform == Other ==>
              r == PlatformUnavailable(GetPlatformOrientationLockAsyncMethod)
    // the raw value is kept under the current platform's key, and only there
    ensures r.Resolved? ==> SelectedField(platform, r.info) == raw
    ensures r.Resolved? ==>
              r.info.screenOrientationConstantAndroid.None? || r.info.screenOrientationArrayIOS.None?
    ensures r.Resolved? ==>
              (r.info.screenOrientationConstantAndroid.Some? <==> platform == Android)
    ensures r.Resolved? ==>
              (r.info.screenOrientationArrayIOS.Some? <==> platform == IOS)
  {
    if GetPlatformOrientationLockAsyncMethod !in caps then
      NotAFunction(GetPlatformOrientationLockAsyncMethod)
    else match platform
      case Android => Resolved(PlatformOrientationInfo(Some(raw), None))
      case IOS => Resolved(PlatformOrientationInfo(None, Some(raw)))
      case Other => PlatformUnavailable(GetPlatformOrientationLockAsyncMethod)
  }

  /** Reading the platform lock and handing it straight back to
      `lockPlatformAsync` forwards the very same value exactly when it is an
      acceptable lock for the platform. */
  lemma PlatformLockRoundTrip(platform: Platform, caps: Capabilities, raw: JsValue)
    requires GetPlatformOrientationLockAsyncMethod in caps && LockPlatformAsyncMethod in caps
    requires platform != Other
    ensures GetPlatformOrientationLockAsync(platform, caps, raw).Resolved?
    ensures var info := GetPlatformOrientationLockAsync(platform, caps, raw).info;
            AcceptedPlatformLock(platform, raw) ==>
              LockPlatformAsync(platform, caps, OptionsObject(info)) == CallNative(LockPlatformAsyncMethod, Arg(raw))
    ensures var info := GetPlatformOrientationLockAsync(platform, caps, raw).info;
            LockPlatformAsync(platform, caps, OptionsObject(info)).CallNative? <==> AcceptedPlatformLock(platform, raw)
  {
  }

  // ---------------------------------------------------------------------------
  // Orientation change events

  const IOSEventName := "expoDidUpdateDimensions"
  const DimensionsEventName := "didUpdateDimensions"

  /** The native event the listener subscribes to. */
  function EventName(platform: Platform): (r: string)
    ensures r == IOSEventName <==> platform == IOS
    ensures r == DimensionsEventName <==> platform != IOS
  {
    if platform == IOS then IOSEventName else DimensionsEventName
  }

  /** The orientation description; passed through untouched. */
  datatype OrientationInfo = OrientationInfo(
    orientation: string,
    verticalSizeClass: Option<string>,
    horizontalSizeClass: Option<string>)

  /** The payload of the iOS event `expoDidUpdateDimensions`. */
  datatype DimensionsUpdate = DimensionsUpdate(orientationLock: string, orientationInfo: OrientationInfo)

  datatype OrientationChangeEvent = OrientationChangeEvent(orientationLock: string, orientationInfo: OrientationInfo)

  /** The native calls the event handler makes before invoking the listener:
      none on iOS, whose own event carries the payload; elsewhere the current
      lock and the current orientation. */
  function HandlerNativeQueries(platform: Platform): (r: seq<string>)
    ensures r == [] <==> platform == IOS
    ensures r != [] ==> r == [GetOrientationLockAsyncMethod, GetOrientationAsyncMethod]
  {
    if platform == IOS then [] else [GetOrientationLockAsyncMethod, GetOrientationAsyncMethod]
  }

  /** The event delivered to the listener. On iOS it is copied from the
      update; elsewhere it is built from the two native query results
      (`lock` and `info`), and the update itself is ignored. */
  function ChangeEvent(platform: Platform, update: DimensionsUpdate,
                       lock: string, info: OrientationInfo): (e: OrientationChangeEvent)
    ensures platform == IOS ==>
              e.orientationLock == update.orientationLock && e.orientationInfo == update.orientationInfo
    ensures platform != IOS ==> e.orientationLock == lock && e.orientationInfo == info
  {
    if platform == IOS then OrientationChangeEvent(update.orientationLock, update.orientationInfo)
    else OrientationChangeEvent(lock, info)
  }

  /** The event's source depends only on the platform: on iOS the update
      alone decides it, elsewhere the queried lock and info alone do. */
  lemma ChangeEventSources(platform: Platform, u1: DimensionsUpdate, u2: DimensionsUpdate,
                           lock: string, info: OrientationInfo)
    ensures platform == IOS ==>
              ChangeEvent(platform, u1, lock, info).orientationLock == u1.orientationLock &&
              ChangeEvent(platform, u1, lock, info).orientationInfo == u1.orientationInfo
    ensures platform != IOS ==>
              ChangeEvent(platform, u1, lock, info) == ChangeEvent(platform, u2, lock, info) &&
              ChangeEvent(platform, u1, lock, info) == OrientationChangeEvent(lock, info)
  {
  }

  /** The subscribed event carries its own payload exactly when the handler
      makes no native queries. */
  lemma EventNameMatchesQueries(platform: Platform)
    ensures EventName(platform) == IOSEventName <==> HandlerNativeQueries(platform) == []
  {
  }
}
