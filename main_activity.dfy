/** The main screen (`MainActivity`): it decides whether the last known location is
    fresh enough to look up nearby places, waits for both the intro animation and the
    Google API connection before the first check, accepts a location update by its age
    or by the number of attempts, and while places are shown polls the head tracker
    every 100 ms to turn the compass. Location, settings and Places services, the
    event bus, intents and toasts are outside the model; their results are inputs. */
module LandmarkerActivity {
  import opened JavaSemantics
  import opened DirectionalText
  import opened DirectionalContainer
  import HT = HeadTracking
  import HX = HeadTransforms
  import SL = SensorLooper

  /** Location updates requested before one is accepted regardless of age. */
  const MAX_UPDATE_TRIES: int := 5
  /** A location older than this many whole hours is refreshed. */
  const MIN_AGE_IN_HOURS: int := 1
  const NANOS_PER_HOUR: int := 3_600_000_000_000
  /** Hours in the largest `int` number of seconds. */
  const MAX_AGE_HOURS: int := 596523

  /** A `Location`: where, and when on the elapsed-realtime clock it was fixed. */
  datatype LocationFix = LocationFix(latitude: real, longitude: real, elapsedRealtimeNanos: int)

  /** Where `checkLastLocation` goes next. */
  datatype LocationStep =
    | CheckSettings    // no cached location: check the location settings
    | RequestUpdates   // cached location too old: ask for new fixes
    | FetchPlaces      // cached location fresh enough: look up places

  /** `getLocationAgeHours`: nanoseconds to milliseconds (long division), to seconds
      (long division, then a saturating cast to `int`), then to hours (two `int`
      divisions), every division truncating toward zero. */
  function LocationAgeHours(nowNs: int, fixNs: int): (hours: int)
    ensures -MAX_AGE_HOURS <= hours <= MAX_AGE_HOURS
    ensures nowNs >= fixNs ==> hours >= 0
    ensures nowNs <= fixNs ==> hours <= 0
  {
    var durationMs := TruncDiv(nowNs - fixNs, 1_000_000);
    var seconds := SaturateToInt(TruncDiv(durationMs, 1000));
    TruncDiv(TruncDiv(seconds, 60), 60)
  }

  /** For a non-negative age within the `int` range of seconds, the chain of divisions
      is the number of whole hours. */
  lemma AgeHoursOfNonNegativeAge(nowNs: int, fixNs: int)
    requires 0 <= nowNs - fixNs < (INT_MAX + 1) * 1_000_000_000
    ensures LocationAgeHours(nowNs, fixNs) == (nowNs - fixNs) / NANOS_PER_HOUR
  {
    var d := nowNs - fixNs;
    var ms := d / 1_000_000;
    assert ms / 1000 == d / 1_000_000_000;
    var s := d / 1_000_000_000;
    assert s <= INT_MAX;
    assert (s / 60) / 60 == s / 3600;
    assert s / 3600 == d / NANOS_PER_HOUR;
  }

  /** A fix from the future (the clock difference negative) gets the negated age of the
      mirrored difference: the divisions truncate toward zero, and even the saturated
      ends give opposite hours. */
  lemma AgeHoursTruncatesTowardZero(nowNs: int, fixNs: int)
    ensures LocationAgeHours(nowNs, fixNs) == -LocationAgeHours(fixNs, nowNs)
  {
    var d, md := nowNs - fixNs, fixNs - nowNs;
    var ms, mms := TruncDiv(d, 1_000_000), TruncDiv(md, 1_000_000);
    TruncDivNegates(d, md, 1_000_000);
    var sec, msec := TruncDiv(ms, 1000), TruncDiv(mms, 1000);
    TruncDivNegates(ms, mms, 1000);
    HoursOddInSeconds(sec, msec);
    assert LocationAgeHours(nowNs, fixNs) == TruncDiv(TruncDiv(SaturateToInt(sec), 60), 60);
    assert LocationAgeHours(fixNs, nowNs) == TruncDiv(TruncDiv(SaturateToInt(msec), 60), 60);
  }

  /** The seconds-to-hours tail of `LocationAgeHours` (saturating cast, two truncating
      divisions by 60) is odd in the seconds, the saturated ends included. */
  lemma HoursOddInSeconds(sec: int, negated: int)
    requires negated == -sec
    ensures TruncDiv(TruncDiv(SaturateToInt(sec), 60), 60) == -TruncDiv(TruncDiv(SaturateToInt(negated), 60), 60)
  {
    if INT_MIN < sec <= INT_MAX {
      TruncDivNegates(sec, negated, 60);
      TruncDivNegates(TruncDiv(sec, 60), TruncDiv(negated, 60), 60);
    } else {
      assert TruncDiv(TruncDiv(INT_MIN, 60), 60) == -TruncDiv(TruncDiv(INT_MAX, 60), 60);
    }
  }

  /** `checkLastLocation` fetches places exactly when the cached fix is less than two
      hours old (or from the future): with whole hours compared by `> 1`, an age of
      1 h 59 min still counts as fresh. */
  lemma FreshUnderTwoHours(nowNs: int, fixNs: int)
    requires nowNs - fixNs < (INT_MAX + 1) * 1_000_000_000
    ensures LocationAgeHours(nowNs, fixNs) <= MIN_AGE_IN_HOURS <==> nowNs - fixNs < 2 * NANOS_PER_HOUR
  {
    if nowNs - fixNs >= 0 {
      AgeHoursOfNonNegativeAge(nowNs, fixNs);
    }
  }

  /** The step `checkLastLocation` takes for a cached fix: the settings check without
      one, a request for updates when it is more than an hour old in whole hours, and
      the place lookup otherwise. */
  function NextStep(lastKnown: Option<LocationFix>, nowNs: int): (step: LocationStep)
    ensures step == CheckSettings <==> lastKnown.None?
    ensures step == RequestUpdates <==>
      lastKnown.Some? && LocationAgeHours(nowNs, lastKnown.value.elapsedRealtimeNanos) > MIN_AGE_IN_HOURS
    ensures step == FetchPlaces <==>
      lastKnown.Some? && LocationAgeHours(nowNs, lastKnown.value.elapsedRealtimeNanos) <= MIN_AGE_IN_HOURS
  {
    if lastKnown.None? then CheckSettings
    else if LocationAgeHours(nowNs, lastKnown.value.elapsedRealtimeNanos) > MIN_AGE_IN_HOURS then RequestUpdates
    else FetchPlaces
  }

  /** With a cached fix, the places are looked up exactly when the fix is under two
      hours old, and new fixes are requested otherwise. */
  lemma NextStepByAge(fix: LocationFix, nowNs: int)
    requires nowNs - fix.elapsedRealtimeNanos < (INT_MAX + 1) * 1_000_000_000
    ensures NextStep(Some(fix), nowNs) == FetchPlaces <==> nowNs - fix.elapsedRealtimeNanos < 2 * NANOS_PER_HOUR
    ensures NextStep(Some(fix), nowNs) == RequestUpdates <==> nowNs - fix.elapsedRealtimeNanos >= 2 * NANOS_PER_HOUR
  {
    FreshUnderTwoHours(nowNs, fix.elapsedRealtimeNanos);
  }

  /** The location listener's acceptance rule for its `tries`-th callback. */
  predicate Accepts(tries: int, hours: int)
  {
    hours <= MIN_AGE_IN_HOURS || tries == MAX_UPDATE_TRIES
  }

  /** The index of the first accepted fix among callbacks with these ages, after
      `tries` earlier ones. */
  function FirstAccepted(hours: seq<int>, tries: nat): (i: Option<nat>)
    ensures i.Some? ==>
      && i.value < |hours| && Accepts(tries + i.value + 1, hours[i.value])
      && forall j :: 0 <= j < i.value ==> !Accepts(tries + j + 1, hours[j])
    ensures i.None? ==> forall j :: 0 <= j < |hours| ==> !Accepts(tries + j + 1, hours[j])
  {
    if hours == [] then None
    else if Accepts(tries + 1, hours[0]) then Some(0)
    else match FirstAccepted(hours[1..], tries + 1)
      case None => None
      case Some(k) => Some(k + 1)
  }

  /** A fresh listener accepts one of its first five fixes, however stale they are. */
  lemma AcceptedByFifthFix(hours: seq<int>)
    requires |hours| >= MAX_UPDATE_TRIES
    ensures FirstAccepted(hours, 0).Some? && FirstAccepted(hours, 0).value < MAX_UPDATE_TRIES
  {
    assert Accepts(4 + 1, hours[4]);
  }

  /** The events that meet at the first location check. */
  datatype ApiEvent = IntroFinished | Connected | ConnectionSuspended

  /** `mIsConnectedToGApi`, `mIsReadyToCheckLastLocation`, and how many times
      `checkLastLocation` has run. */
  datatype Rendezvous = Rendezvous(connected: bool, ready: bool, checks: nat)

  const INITIAL_RENDEZVOUS: Rendezvous := Rendezvous(false, false, 0)

  /** The intro's completion runner checks at once when connected and otherwise leaves
      the ready flag; `onConnected` checks when ready and clears the flag. */
  function Step(r: Rendezvous, e: ApiEvent): Rendezvous
  {
    match e
    case IntroFinished =>
      if r.connected then r.(checks := r.checks + 1) else r.(ready := true)
    case Connected =>
      if r.ready then Rendezvous(true, false, r.checks + 1) else r.(connected := true)
    case ConnectionSuspended =>
      r.(connected := false)
  }

  function Run(r: Rendezvous, es: seq<ApiEvent>): Rendezvous
    decreases |es|
  {
    if es == [] then r else Run(Step(r, es[0]), es[1..])
  }

  lemma {:induction false} RunAppend(r: Rendezvous, a: seq<ApiEvent>, b: seq<ApiEvent>)
    ensures Run(r, a + b) == Run(Run(r, a), b)
    decreases |a|
  {
    if a == [] {
      assert a + b == b;
    } else {
      assert (a + b)[1..] == a[1..] + b;
      RunAppend(Step(r, a[0]), a[1..], b);
    }
  }

  /** Without the intro finishing, and not waiting, nothing is checked and nobody
      waits. */
  lemma {:induction false} RunWithoutIntro(r: Rendezvous, es: seq<ApiEvent>)
    requires IntroFinished !in es && !r.ready
    ensures Run(r, es).checks == r.checks && !Run(r, es).ready
    decreases |es|
  {
    if es != [] {
      RunWithoutIntro(Step(r, es[0]), es[1..]);
    }
  }

  /** While waiting, the first connection checks once and any later one does not. */
  lemma {:induction false} RunWhileWaiting(r: Rendezvous, es: seq<ApiEvent>)
    requires IntroFinished !in es && r.ready
    ensures Run(r, es).checks == r.checks + (if Connected in es then 1 else 0)
    decreases |es|
  {
    if es != [] {
      if es[0] == Connected {
        RunWithoutIntro(Step(r, es[0]), es[1..]);
      } else {
        RunWhileWaiting(Step(r, es[0]), es[1..]);
        assert Connected in es <==> Connected in es[1..];
      }
    }
  }

  /** The intro finishes once; the location is then checked exactly once if the API was
      connected at that moment or connects afterwards, and never otherwise. Whichever of
      the two happens last triggers the check, and reconnections do not repeat it. */
  lemma CheckedOnceByWhicheverIsLast(pre: seq<ApiEvent>, post: seq<ApiEvent>)
    requires IntroFinished !in pre && IntroFinished !in post
    ensures Run(INITIAL_RENDEZVOUS, pre + [IntroFinished] + post).checks ==
      if Run(INITIAL_RENDEZVOUS, pre).connected || Connected in post then 1 else 0
  {
    RunAppend(INITIAL_RENDEZVOUS, pre + [IntroFinished], post);
    RunAppend(INITIAL_RENDEZVOUS, pre, [IntroFinished]);
    RunWithoutIntro(INITIAL_RENDEZVOUS, pre);
    var atIntro := Run(Run(INITIAL_RENDEZVOUS, pre), [IntroFinished]);
    if atIntro.ready {
      RunWhileWaiting(atIntro, post);
    } else {
      RunWithoutIntro(atIntro, post);
    }
  }

  /** The anonymous `LocationListener` of `setLocationListener`. */
  class LocationListener {
    var numTries: int
    /** Whether it has removed itself from location updates. */
    var removed: bool

    constructor ()
      ensures numTries == 0 && !removed
    {
      numTries := 0;
      removed := false;
    }
  }

  class MainActivity {
    const tracker: HT.HeadTracker
    const transform: HX.HeadTransform
    const compass: DirectionalTextViewContainer
    const eulerAngles: array<real>

    var isFirstRun: bool
    var isConnectedToGApi: bool
    var isReadyToCheckLastLocation: bool
    var hasPlaces: bool
    var isTracking: bool
    var lastLocation: Option<LocationFix>
    var currentPlace: Option<NearbyPlace>
    var mapsButtonVisible: bool
    ghost var checks: nat

    ghost predicate Valid()
      reads this, tracker, tracker.provider, tracker.ekf, transform, compass
    {
      && tracker.Valid() && transform.Valid() && compass.Valid()
      && eulerAngles.Length == 3
      && transform.headView != tracker.tmpHeadView && transform.headView != tracker.initialSystemGyroBias
      && eulerAngles != transform.headView
      && eulerAngles != tracker.tmpHeadView && eulerAngles != tracker.initialSystemGyroBias
    }

    ghost function State(): Rendezvous
      reads this
    {
      Rendezvous(isConnectedToGApi, isReadyToCheckLastLocation, checks)
    }

    /** `onCreate`'s set-up: the tracker, the transform it is read into, the compass
        and the Euler angle buffer. */
    constructor (manufacturer: string, hasUncalibratedGyroscope: bool, self: nat)
      ensures Valid() && fresh(tracker) && fresh(transform) && fresh(compass)
      ensures !tracker.tracking
      ensures isFirstRun && !isConnectedToGApi && !isReadyToCheckLastLocation && checks == 0
      ensures !hasPlaces && !isTracking && lastLocation == None && currentPlace == None
    {
      tracker := new HT.HeadTracker(manufacturer, hasUncalibratedGyroscope, self);
      transform := new HX.HeadTransform();
      compass := new DirectionalTextViewContainer();
      eulerAngles := new real[3](_ => 0.0);
      isFirstRun := true;
      isConnectedToGApi := false;
      isReadyToCheckLastLocation := false;
      hasPlaces := false;
      isTracking := false;
      lastLocation := None;
      currentPlace := None;
      mapsButtonVisible := false;
      checks := 0;
    }

    /** Starts the tracker and the compass drawing on every resume. The first resume
        animates the title in and returns; later ones start polling when places are
        shown. */
    method OnResume() returns (animatesTitle: bool)
      requires Valid()
      modifies this`isFirstRun, this`isTracking, tracker, tracker.provider, tracker.ekf,
               tracker.gyroBiasEstimator, compass`isDrawing
      ensures Valid() && tracker.StartedTracking() && compass.isDrawing
      ensures animatesTitle == old(isFirstRun) && !isFirstRun
      ensures isTracking == (old(isTracking) || (!old(isFirstRun) && hasPlaces))
    {
      tracker.StartTracking();
      compass.StartDrawing();
      if isFirstRun {
        isFirstRun := false;
        return true;
      }
      animatesTitle := false;
      if hasPlaces {
        isTracking := true;
      }
    }

    /** Stops polling, the tracker and the compass drawing. */
    method OnPause()
      requires Valid()
      modifies this`isTracking, tracker`tracking, tracker.provider, compass`isDrawing
      ensures Valid() && !isTracking && !tracker.tracking && !compass.isDrawing
      ensures old(tracker.tracking) ==>
        && tracker.provider.registeredListeners == SL.RemoveFirst(old(tracker.provider.registeredListeners), tracker.self)
        && tracker.provider.subscriptions == []
      ensures !old(tracker.tracking) ==> unchanged(tracker.provider)
    {
      isTracking := false;
      tracker.StopTracking();
      compass.StopDrawing();
    }

    /** One run of the polling runnable: when still tracking it reads the predicted
        head view into the transform, extracts the Euler angles and reschedules itself
        (the compass is turned by `UpdateDirectionalTextView`, posted to the UI
        thread); once tracking stopped it ends. */
    method PollTick(rotationCode: int, nowNs: int, composeEntry: (seq<real>, real, real, int) -> real,
                    math: MathLibrary)
      returns (rescheduled: bool)
      requires Valid()
      modifies tracker`displayRotation, tracker`correctionRebuilds, tracker.tmpHeadView, tracker.ekf,
               transform.headView, eulerAngles
      ensures Valid()
      ensures rescheduled == isTracking
      ensures !isTracking ==> unchanged(tracker, tracker.ekf, transform.headView, eulerAngles)
      ensures isTracking ==> tracker.displayRotation == HT.Cached(HT.DisplayRotationDegrees(rotationCode))
      ensures isTracking && old(tracker.ekf.ready) ==>
        var m, rotation, factor := tracker.ekf.prediction, tracker.displayRotation.degrees, tracker.neckModelFactor;
        transform.headView[..] == seq(HX.MATRIX_SIZE, k => composeEntry(m, rotation, factor, k))
      ensures isTracking && !old(tracker.ekf.ready) ==> transform.headView[..] == old(transform.headView[..])
      ensures isTracking ==> eulerAngles[..] == HX.EulerAngles(transform.headView[..], math)
    {
      if !isTracking {
        return false;
      }
      var outcome := tracker.GetLastHeadView(transform.headView, 0, rotationCode, nowNs, composeEntry);
      var status := transform.GetEulerAngles(eulerAngles, 0, math);
      rescheduled := true;
    }

    /** The `updateDirectionalTextView` runnable: turns the compass to the yaw, in
        degrees, of the last extracted Euler angles. */
    method UpdateDirectionalTextView(math: MathLibrary)
      requires Valid()
      modifies compass`viewWidth,
               compass.north`gotoX, compass.north`lastX, compass.north`translationX, compass.north`viewTranslationX,
               compass.east`gotoX, compass.east`lastX, compass.east`translationX, compass.east`viewTranslationX,
               compass.south`gotoX, compass.south`lastX, compass.south`translationX, compass.south`viewTranslationX,
               compass.west`gotoX, compass.west`lastX, compass.west`translationX, compass.west`viewTranslationX
      ensures Valid()
      ensures compass.viewWidth == if old(compass.viewWidth) == 0 then old(compass.east.width) else old(compass.viewWidth)
      ensures var o, w := ViewOffsets(Normalise(math.toDegrees(eulerAngles[1]))), compass.viewWidth;
        && Slid(compass.north, Scaled(o.north, w)) && Slid(compass.west, Scaled(o.west, w))
        && Slid(compass.east, Scaled(o.east, w)) && Slid(compass.south, Scaled(o.south, w))
    {
      compass.UpdateView(math.toDegrees(eulerAngles[1]));
    }

    /** Looks at the cached fix: none leads to the settings check, one older than an
        hour (in whole hours) to a request for updates, any other to the place lookup. */
    method CheckLastLocation(lastKnown: Option<LocationFix>, nowNs: int) returns (step: LocationStep)
      modifies this`lastLocation, this`checks
      ensures lastLocation == lastKnown && checks == old(checks) + 1
      ensures step == NextStep(lastKnown, nowNs)
      ensures step == CheckSettings <==> lastKnown.None?
      ensures step == RequestUpdates <==>
        lastKnown.Some? && LocationAgeHours(nowNs, lastKnown.value.elapsedRealtimeNanos) > MIN_AGE_IN_HOURS
      ensures step == FetchPlaces <==>
        lastKnown.Some? && LocationAgeHours(nowNs, lastKnown.value.elapsedRealtimeNanos) <= MIN_AGE_IN_HOURS
    {
      checks := checks + 1;
      lastLocation := lastKnown;
      if lastKnown.None? {
        return CheckSettings;
      }
      var hours := LocationAgeHours(nowNs, lastKnown.value.elapsedRealtimeNanos);
      if hours > MIN_AGE_IN_HOURS {
        return RequestUpdates;
      }
      step := FetchPlaces;
    }

    /** The intro animation's completion runner. */
    method OnIntroFinished(lastKnown: Option<LocationFix>, nowNs: int) returns (step: Option<LocationStep>)
      modifies this`isReadyToCheckLastLocation, this`lastLocation, this`checks
      ensures State() == Step(old(State()), IntroFinished)
      ensures step.Some? <==> isConnectedToGApi
      ensures step.None? ==> lastLocation == old(lastLocation)
      ensures step.Some? ==> lastLocation == lastKnown && (step.value == CheckSettings <==> lastKnown.None?)
      ensures step.Some? ==> step.value == NextStep(lastKnown, nowNs)
    {
      if isConnectedToGApi {
        var s := CheckLastLocation(lastKnown, nowNs);
        step := Some(s);
      } else {
        isReadyToCheckLastLocation := true;
        step := None;
      }
    }

    method OnConnected(lastKnown: Option<LocationFix>, nowNs: int) returns (step: Option<LocationStep>)
      modifies this`isConnectedToGApi, this`isReadyToCheckLastLocation, this`lastLocation, this`checks
      ensures State() == Step(old(State()), Connected)
      ensures step.Some? <==> old(isReadyToCheckLastLocation)
      ensures step.None? ==> lastLocation == old(lastLocation)
      ensures step.Some? ==> lastLocation == lastKnown && (step.value == CheckSettings <==> lastKnown.None?)
      ensures step.Some? ==> step.value == NextStep(lastKnown, nowNs)
    {
      isConnectedToGApi := true;
      step := None;
      if isReadyToCheckLastLocation {
        var s := CheckLastLocation(lastKnown, nowNs);
        step := Some(s);
        isReadyToCheckLastLocation := false;
      }
    }

    method OnConnectionSuspended()
      modifies this`isConnectedToGApi
      ensures State() == Step(old(State()), ConnectionSuspended)
    {
      isConnectedToGApi := false;
    }

    /** The listener's callback: every fix counts as a try; one at most an hour old,
        or the fifth, is kept as the last location, the listener removes itself and
        places are looked up. */
    method OnLocationChanged(listener: LocationListener, fix: LocationFix, nowNs: int) returns (accepted: bool)
      modifies listener, this`lastLocation
      ensures listener.numTries == old(listener.numTries) + 1
      ensures accepted == Accepts(listener.numTries, LocationAgeHours(nowNs, fix.elapsedRealtimeNanos))
      ensures listener.removed == (old(listener.removed) || accepted)
      ensures lastLocation == if accepted then Some(fix) else old(lastLocation)
    {
      listener.numTries := listener.numTries + 1;
      accepted := LocationAgeHours(nowNs, fix.elapsedRealtimeNanos) <= MIN_AGE_IN_HOURS
        || listener.numTries == MAX_UPDATE_TRIES;
      if accepted {
        listener.removed := true;
        lastLocation := Some(fix);
      }
    }

    /** The place lookup's result: `null` goes back to the splash screen; a list marks
        places as present, starts polling and hands the places, with their bearings
        and distances from the last location, to the compass. */
    method OnPlacesResult(places: Option<seq<PlaceSighting>>) returns (backToSplash: bool)
      requires Valid()
      modifies this`hasPlaces, this`isTracking,
               compass`northernPlaces, compass`easternPlaces, compass`southernPlaces, compass`westernPlaces,
               compass.north`places, compass.north`currentPlace, compass.north`mainText, compass.north`mainTextDimmed,
               compass.north`distanceInKilometers, compass.north`distanceInMiles, compass.north`distanceText,
               compass.east`places, compass.east`currentPlace, compass.east`mainText, compass.east`mainTextDimmed,
               compass.east`distanceInKilometers, compass.east`distanceInMiles, compass.east`distanceText,
               compass.south`places, compass.south`currentPlace, compass.south`mainText, compass.south`mainTextDimmed,
               compass.south`distanceInKilometers, compass.south`distanceInMiles, compass.south`distanceText,
               compass.west`places, compass.west`currentPlace, compass.west`mainText, compass.west`mainTextDimmed,
               compass.west`distanceInKilometers, compass.west`distanceInMiles, compass.west`distanceText
      ensures Valid()
      ensures backToSplash <==> places.None?
      ensures places.None? ==>
        && hasPlaces == old(hasPlaces) && isTracking == old(isTracking)
        && unchanged(compass, compass.north, compass.east, compass.south, compass.west)
      ensures places.Some? ==>
        && hasPlaces && isTracking
        && compass.northernPlaces == Bucket(places.value, North) && compass.easternPlaces == Bucket(places.value, East)
        && compass.southernPlaces == Bucket(places.value, South) && compass.westernPlaces == Bucket(places.value, West)
        && ShowsList(compass.north, compass.northernPlaces) && ShowsList(compass.east, compass.easternPlaces)
        && ShowsList(compass.south, compass.southernPlaces) && ShowsList(compass.west, compass.westernPlaces)
    {
      if places.None? {
        return true;
      }
      hasPlaces := true;
      isTracking := true;
      compass.UpdatePlaces(places.value);
      backToSplash := false;
    }

    /** A place-click event: `null` is ignored; a place becomes current and the maps
        button is shown. */
    method OnPlaceClicked(place: Option<NearbyPlace>)
      modifies this`currentPlace, this`mapsButtonVisible
      ensures place.None? ==> unchanged(this)
      ensures place.Some? ==> currentPlace == place && mapsButtonVisible
    {
      if place.None? {
        return;
      }
      currentPlace := place;
      mapsButtonVisible := true;
    }

    /** The maps button: with no current place the click is ignored; otherwise the
        maps query names the current place. */
    method OnMapsButtonClick() returns (query: Option<string>)
      ensures query.None? <==> currentPlace.None?
      ensures query.Some? ==> query.value == currentPlace.value.name
    {
      if currentPlace.None? {
        return None;
      }
      query := Some(currentPlace.value.name);
    }
  }
}
