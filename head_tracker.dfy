/** Head tracking (`HeadTracker`): routes sensor samples to the orientation filter and
    the gyroscope bias estimator, owns the tracking lifecycle and the neck-model factor,
    and hands out the filter's time-predicted transform. The filter, the estimator and
    the clock are outside this model: the filter and the estimator are objects that
    record what they are fed, and the clock's readings are parameters. */
module HeadTracking {
  import opened JavaSemantics
  import opened SensorEvents
  import opened SensorLooper

  /** Seconds of forward prediction added to cover display and sensor latency. */
  const PREDICTION_TIME_IN_SECONDS: real := 0.058
  const DEFAULT_NECK_MODEL_FACTOR: real := 1.0
  const NANOS_PER_SECOND: int := 1_000_000_000
  /** Number of entries of a 4x4 matrix. */
  const MATRIX_SIZE: int := 16

  /** What the orientation filter (`OrientationEKF`) has been asked to do. */
  datatype FilterInput =
    | FilterReset
    | AccSample(acc: Vec3, timestamp: int)
    | GyroSample(gyro: Vec3, timestamp: int)
    | MagSample(values: seq<real>, timestamp: int)
    | PredictionRequest(secondsForward: real)

  /** What the gyroscope bias estimator has been asked to do. */
  datatype EstimatorInput =
    | EstimatorReset
    | EstimatorAcc(acc: Vec3, timestamp: int)
    | EstimatorGyro(gyro: Vec3, timestamp: int)

  /** The cached display rotation; `Unset` is the initial `Float.NaN`, which no rotation equals. */
  datatype RotationCache = Unset | Cached(degrees: real)

  /** How `getLastHeadView` ends. */
  datatype HeadViewOutcome =
    | NotEnoughSpace   // IllegalArgumentException from the size check
    | FilterNotReady   // returns without writing
    | CopyOverrun      // ArrayIndexOutOfBoundsException in the copy loop
    | OffsetRejected   // the matrix library refuses a negative offset
    | Written

  /** The orientation filter. Its numerics are not modelled: it records its inputs, and
      its readiness and predicted matrix are state that the filter alone decides. */
  class OrientationEkf {
    var ready: bool
    var prediction: seq<real>
    ghost var inputs: seq<FilterInput>

    ghost predicate Valid()
      reads this
    {
      |prediction| == MATRIX_SIZE
    }

    constructor ()
      ensures Valid() && !ready && inputs == []
    {
      ready := false;
      prediction := seq(MATRIX_SIZE, _ => 0.0);
      inputs := [];
    }

    /** The filter's own step after an input: any readiness and any 4x4 prediction
        may follow, as the filter alone decides. */
    method Advance()
      requires Valid()
      modifies this`ready, this`prediction
      ensures Valid()
    {
      ready := *;
      var next: seq<real> := *;
      if |next| == MATRIX_SIZE {
        prediction := next;
      }
    }

    method Reset()
      requires Valid()
      modifies this
      ensures Valid() && inputs == old(inputs) + [FilterReset]
    {
      inputs := inputs + [FilterReset];
      Advance();
    }

    method ProcessAcc(acc: Vec3, timestamp: int)
      requires Valid()
      modifies this
      ensures Valid() && inputs == old(inputs) + [AccSample(acc, timestamp)]
    {
      inputs := inputs + [AccSample(acc, timestamp)];
      Advance();
    }

    method ProcessGyro(gyro: Vec3, timestamp: int)
      requires Valid()
      modifies this
      ensures Valid() && inputs == old(inputs) + [GyroSample(gyro, timestamp)]
    {
      inputs := inputs + [GyroSample(gyro, timestamp)];
      Advance();
    }

    method ProcessMag(values: seq<real>, timestamp: int)
      requires Valid()
      modifies this
      ensures Valid() && inputs == old(inputs) + [MagSample(values, timestamp)]
    {
      inputs := inputs + [MagSample(values, timestamp)];
      Advance();
    }

    method GetPredictedGLMatrix(secondsForward: real) returns (m: seq<real>)
      requires Valid()
      modifies this
      ensures Valid() && m == prediction
      ensures inputs == old(inputs) + [PredictionRequest(secondsForward)]
      ensures ready == old(ready) && prediction == old(prediction)
    {
      inputs := inputs + [PredictionRequest(secondsForward)];
      m := prediction;
    }
  }

  /** The gyroscope bias estimator. Its numerics are not modelled: it records its
      inputs, and its bias estimate is state that the estimator alone decides. */
  class GyroscopeBiasEstimator {
    var bias: Vec3
    ghost var inputs: seq<EstimatorInput>

    constructor ()
      ensures bias == Vec3(0.0, 0.0, 0.0) && inputs == []
    {
      bias := Vec3(0.0, 0.0, 0.0);
      inputs := [];
    }

    method Reset()
      modifies this
      ensures inputs == old(inputs) + [EstimatorReset]
    {
      inputs := inputs + [EstimatorReset];
      bias := *;
    }

    method ProcessAccelerometer(acc: Vec3, timestamp: int)
      modifies this
      ensures inputs == old(inputs) + [EstimatorAcc(acc, timestamp)]
    {
      inputs := inputs + [EstimatorAcc(acc, timestamp)];
      bias := *;
    }

    method ProcessGyroscope(gyro: Vec3, timestamp: int)
      modifies this
      ensures inputs == old(inputs) + [EstimatorGyro(gyro, timestamp)]
    {
      inputs := inputs + [EstimatorGyro(gyro, timestamp)];
      bias := *;
    }
  }

  /** The display rotation in degrees for a `Surface.ROTATION_*` code (0 to 3); any other
      code leaves the switch's initial 0. */
  function DisplayRotationDegrees(code: int): (degrees: real)
    ensures degrees == 0.0 || degrees == 90.0 || degrees == 180.0 || degrees == 270.0
    ensures 0 <= code <= 3 ==> degrees == 90.0 * code as real
    ensures !(0 <= code <= 3) ==> degrees == 0.0
  {
    if code == 0 then 0.0
    else if code == 1 then 90.0
    else if code == 2 then 180.0
    else if code == 3 then 270.0
    else 0.0
  }

  /** Seconds to predict forward: the whole seconds since the last gyroscope event,
      truncated toward zero as `TimeUnit.toSeconds` does, plus the latency constant. */
  function PredictionSeconds(sinceGyroNs: int): (seconds: real)
    ensures var whole := (seconds - PREDICTION_TIME_IN_SECONDS).Floor;
            && whole as real == seconds - PREDICTION_TIME_IN_SECONDS
            && (sinceGyroNs >= 0 ==> 0 <= whole * NANOS_PER_SECOND <= sinceGyroNs < (whole + 1) * NANOS_PER_SECOND)
            && (sinceGyroNs <= 0 ==> (whole - 1) * NANOS_PER_SECOND < sinceGyroNs <= whole * NANOS_PER_SECOND <= 0)
  {
    TruncDiv(sinceGyroNs, NANOS_PER_SECOND) as real + PREDICTION_TIME_IN_SECONDS
  }

  /** Any gap shorter than a second, before or after the last gyroscope event, predicts
      exactly the latency constant forward. */
  lemma SubSecondGapPredictsLatencyOnly(sinceGyroNs: int)
    requires -NANOS_PER_SECOND < sinceGyroNs < NANOS_PER_SECOND
    ensures PredictionSeconds(sinceGyroNs) == PREDICTION_TIME_IN_SECONDS
  {
    assert Abs(sinceGyroNs) / NANOS_PER_SECOND == 0;
  }

  /** How `getLastHeadView` ends for a buffer of `length` floats written at `offset`. */
  function HeadViewOutcomeOf(length: int, offset: int, ready: bool): (r: HeadViewOutcome)
    ensures r == NotEnoughSpace <==> offset + MATRIX_SIZE > length
    ensures r == FilterNotReady <==> offset + MATRIX_SIZE <= length && !ready
    // The copy loop runs to the buffer's length, so only a 16-float buffer at offset 0
    // is ever written, although the size check admits every larger buffer.
    ensures r == Written <==> ready && length == MATRIX_SIZE && offset == 0
    ensures r == CopyOverrun <==> ready && offset + MATRIX_SIZE <= length && length > MATRIX_SIZE
    ensures r == OffsetRejected <==> ready && offset < 0 && offset + MATRIX_SIZE <= length <= MATRIX_SIZE
  {
    if offset + MATRIX_SIZE > length then NotEnoughSpace
    else if !ready then FilterNotReady
    else if length > MATRIX_SIZE then CopyOverrun
    else if offset < 0 then OffsetRejected
    else Written
  }

  /** The initial system bias after a gyroscope event: the event's trailing three
      values when it is the session's first and an uncalibrated one with six values,
      otherwise unchanged. */
  function BiasAfter(e: SensorEvent, first: bool, bias: seq<real>): (b: seq<real>)
    requires |bias| == 3
    ensures |b| == 3
  {
    if e.sensor == GyroscopeUncalibrated && first && |e.values| == 6 then e.values[3..6] else bias
  }

  /** The gyroscope reading before bias estimation: an uncalibrated reading minus the
      initial system bias, a calibrated reading as it is. */
  function GyroReading(e: SensorEvent, bias: seq<real>): Vec3
    requires |e.values| >= 3 && |bias| == 3
  {
    if e.sensor == GyroscopeUncalibrated then Sub(Head3(e.values), Vec3(bias[0], bias[1], bias[2]))
    else Head3(e.values)
  }

  /** The initial system bias after a run of events, given the first-gyroscope latch. */
  function SessionBias(events: seq<SensorEvent>, first: bool, bias: seq<real>): (b: seq<real>)
    requires |bias| == 3
    ensures |b| == 3
  {
    if events == [] then bias
    else if IsGyroscope(events[0].sensor) then SessionBias(events[1..], false, BiasAfter(events[0], first, bias))
    else SessionBias(events[1..], first, bias)
  }

  /** The first gyroscope event of a run, if any. */
  function FirstGyroEvent(events: seq<SensorEvent>): (r: Option<SensorEvent>)
    ensures r.Some? ==> r.value in events && IsGyroscope(r.value.sensor)
    ensures r.None? <==> forall e :: e in events ==> !IsGyroscope(e.sensor)
  {
    if events == [] then None
    else if IsGyroscope(events[0].sensor) then Some(events[0])
    else FirstGyroEvent(events[1..])
  }

  /** Once the latch is down, no event changes the bias. */
  lemma {:induction false} SessionBiasAfterLatch(events: seq<SensorEvent>, bias: seq<real>)
    requires |bias| == 3
    ensures SessionBias(events, false, bias) == bias
  {
    if events != [] {
      SessionBiasAfterLatch(events[1..], bias);
    }
  }

  /** Over a tracking session the initial system bias is captured at most once: it is
      decided by the session's first gyroscope event alone. */
  lemma {:induction false} SessionBiasFromFirstGyroEvent(events: seq<SensorEvent>, bias: seq<real>)
    requires |bias| == 3
    ensures SessionBias(events, true, bias) ==
            match FirstGyroEvent(events)
            case None => bias
            case Some(e) => BiasAfter(e, true, bias)
  {
    if events != [] {
      if IsGyroscope(events[0].sensor) {
        SessionBiasAfterLatch(events[1..], BiasAfter(events[0], true, bias));
      } else {
        SessionBiasFromFirstGyroEvent(events[1..], bias);
      }
    }
  }

  class HeadTracker {
    /** The sensor event provider, created for this tracker as `createFromContext` does. */
    const provider: DeviceSensorLooper
    /** This tracker's identity as a listener of `provider`. */
    const self: ListenerId
    /** The orientation filter (the source's `tracker` field). */
    const ekf: OrientationEkf
    const initialSystemGyroBias: array<real>
    const tmpHeadView: array<real>

    var tracking: bool
    var firstGyroValue: bool
    var neckModelFactor: real
    var displayRotation: RotationCache
    /** How often the sensor-to-display and filter-to-tracker matrices were rebuilt. */
    ghost var correctionRebuilds: nat
    var gyroBiasEstimator: GyroscopeBiasEstimator?
    var latestGyroEventClockTimeNs: int
    var latestAcc: Vec3
    var latestGyro: Vec3
    var gyroBias: Vec3

    ghost predicate Valid()
      reads this, provider, ekf
    {
      && provider.Valid()
      && ekf.Valid()
      && initialSystemGyroBias.Length == 3
      && tmpHeadView.Length == MATRIX_SIZE
      && initialSystemGyroBias != tmpHeadView
      && 0.0 <= neckModelFactor <= 1.0
      && provider.isRunning == tracking
      // the tracker is registered once while tracking and not at all otherwise
      && Count(provider.registeredListeners, self) == (if tracking then 1 else 0)
    }

    /** `createFromContext`: a tracker over a fresh sensor looper, with bias estimation
        enabled. */
    constructor (manufacturer: string, hasUncalibratedGyroscope: bool, self: ListenerId)
      ensures Valid() && fresh(provider) && fresh(ekf)
      ensures !tracking && firstGyroValue && neckModelFactor == DEFAULT_NECK_MODEL_FACTOR
      ensures displayRotation == Unset && correctionRebuilds == 0
      ensures gyroBiasEstimator != null && fresh(gyroBiasEstimator)
      ensures provider.registeredListeners == [] && !provider.isRunning
      ensures ekf.inputs == [] && !ekf.ready
      ensures initialSystemGyroBias[..] == [0.0, 0.0, 0.0]
    {
      provider := new DeviceSensorLooper(manufacturer, hasUncalibratedGyroscope);
      this.self := self;
      ekf := new OrientationEkf();
      initialSystemGyroBias := new real[3](_ => 0.0);
      tmpHeadView := new real[MATRIX_SIZE](_ => 0.0);
      tracking := false;
      firstGyroValue := true;
      neckModelFactor := DEFAULT_NECK_MODEL_FACTOR;
      displayRotation := Unset;
      correctionRebuilds := 0;
      gyroBiasEstimator := new GyroscopeBiasEstimator();
      latestGyroEventClockTimeNs := 0;
      latestAcc := Vec3(0.0, 0.0, 0.0);
      latestGyro := Vec3(0.0, 0.0, 0.0);
      gyroBias := Vec3(0.0, 0.0, 0.0);
      new;
      assert initialSystemGyroBias[..] == [0.0, 0.0, 0.0];
    }

    /** What `startTracking` leaves behind. Already tracking, nothing changed;
        otherwise the filter and any estimator were reset, the first-gyroscope latch is
        re-armed and the tracker is registered once more with the provider, which
        subscribes its sensors. Either way the tracker is tracking, and the neck model,
        the cached display rotation, the gyroscope clock, the latest samples and bias,
        the initial bias and the estimator choice are kept. */
    twostate predicate StartedTracking()
      reads this, provider, ekf, gyroBiasEstimator, initialSystemGyroBias
    {
      && tracking
      && (old(tracking) ==> unchanged(this, provider, ekf))
      && (old(tracking) && gyroBiasEstimator != null ==> unchanged(gyroBiasEstimator))
      && gyroBiasEstimator == old(gyroBiasEstimator)
      && (!old(tracking) ==>
        && ekf.inputs == old(ekf.inputs) + [FilterReset]
        && (gyroBiasEstimator != null ==> gyroBiasEstimator.inputs == old(gyroBiasEstimator.inputs) + [EstimatorReset])
        && firstGyroValue
        && provider.registeredListeners == old(provider.registeredListeners) + [self]
        && provider.subscriptions == Subscriptions(provider.manufacturer, provider.hasUncalibratedGyroscope))
      && neckModelFactor == old(neckModelFactor) && displayRotation == old(displayRotation)
      && latestGyroEventClockTimeNs == old(latestGyroEventClockTimeNs)
      && latestAcc == old(latestAcc) && latestGyro == old(latestGyro) && gyroBias == old(gyroBias)
      && correctionRebuilds == old(correctionRebuilds)
      && unchanged(initialSystemGyroBias)
    }

    /** A no-op while tracking; otherwise resets the filter and any estimator, re-arms
        the first-gyroscope latch, registers with the provider, starts it and tracks. */
    method StartTracking()
      requires Valid()
      modifies this, provider, ekf, gyroBiasEstimator
      ensures Valid() && StartedTracking()
    {
      if tracking {
        return;
      }
      ekf.Reset();
      if gyroBiasEstimator != null {
        gyroBiasEstimator.Reset();
      }
      firstGyroValue := true;
      CountAppend(provider.registeredListeners, self, self);
      provider.RegisterListener(self);
      provider.Start();
      tracking := true;
    }

    /** Clears the filter's state without touching tracking or registration. */
    method ResetTracker()
      requires Valid()
      modifies ekf
      ensures Valid() && ekf.inputs == old(ekf.inputs) + [FilterReset]
    {
      ekf.Reset();
    }

    /** A no-op when not tracking; otherwise unregisters from the provider, stops it and
        stops tracking. The filter, the estimator and the initial bias are kept. */
    method StopTracking()
      requires Valid()
      modifies this`tracking, provider
      ensures Valid() && !tracking
      ensures !old(tracking) ==> unchanged(provider)
      ensures old(tracking) ==>
        && provider.registeredListeners == RemoveFirst(old(provider.registeredListeners), self)
        && provider.subscriptions == []
      ensures unchanged(ekf) && unchanged(initialSystemGyroBias)
      ensures gyroBiasEstimator != null ==> unchanged(gyroBiasEstimator)
    {
      if !tracking {
        return;
      }
      CountRemoveFirst(provider.registeredListeners, self, self);
      provider.UnregisterListener(self);
      provider.Stop();
      tracking := false;
    }

    method GetNeckModelFactor() returns (factor: real)
      requires Valid()
      ensures factor == neckModelFactor
      ensures 0.0 <= factor <= 1.0
    {
      factor := neckModelFactor;
    }

    /** Stores `factor` when it lies in [0, 1]; otherwise fails and keeps the old factor. */
    method SetNeckModelFactor(factor: real) returns (status: Status)
      requires Valid()
      modifies this`neckModelFactor
      ensures Valid()
      ensures status == IllegalArgument <==> factor < 0.0 || factor > 1.0
      ensures status == IllegalArgument || status == Ok
      ensures neckModelFactor == if status == Ok then factor else old(neckModelFactor)
    {
      if factor < 0.0 || factor > 1.0 {
        return IllegalArgument;
      }
      neckModelFactor := factor;
      status := Ok;
    }

    method SetNeckModelEnabled(enabled: bool)
      requires Valid()
      modifies this`neckModelFactor
      ensures Valid()
      ensures neckModelFactor == if enabled then 1.0 else 0.0
    {
      var _ := SetNeckModelFactor(if enabled then 1.0 else 0.0);
    }

    /** Disabling drops the estimator; enabling creates a fresh one only when there is
        none, so an existing estimator and its estimate are kept. */
    method SetGyroBiasEstimationEnabled(enabled: bool)
      modifies this`gyroBiasEstimator
      ensures !enabled ==> gyroBiasEstimator == null
      ensures enabled && old(gyroBiasEstimator) != null ==> gyroBiasEstimator == old(gyroBiasEstimator)
      ensures enabled && old(gyroBiasEstimator) == null ==>
        && gyroBiasEstimator != null && fresh(gyroBiasEstimator)
        && gyroBiasEstimator.inputs == [] && gyroBiasEstimator.bias == Vec3(0.0, 0.0, 0.0)
    {
      if !enabled {
        gyroBiasEstimator := null;
      } else if gyroBiasEstimator == null {
        gyroBiasEstimator := new GyroscopeBiasEstimator();
      }
    }

    method GetGyroBiasEstimationEnabled() returns (enabled: bool)
      ensures enabled <==> gyroBiasEstimator != null
    {
      enabled := gyroBiasEstimator != null;
    }

    /** Injects an estimator (the source reserves this for tests). */
    method SetGyroBiasEstimator(estimator: GyroscopeBiasEstimator?)
      modifies this`gyroBiasEstimator
      ensures gyroBiasEstimator == estimator
    {
      gyroBiasEstimator := estimator;
    }

    /** Routes one sensor sample; `nowNs` is the tracker clock's reading on arrival. */
    method OnSensorChanged(event: SensorEvent, nowNs: int)
      requires Valid()
      requires event.sensor != OtherSensor ==> |event.values| >= 3
      modifies this`latestAcc, this`latestGyro, this`gyroBias, this`firstGyroValue,
               this`latestGyroEventClockTimeNs, ekf, gyroBiasEstimator, initialSystemGyroBias
      ensures Valid()
      ensures event.sensor == Accelerometer ==>
        && latestAcc == Head3(event.values)
        && ekf.inputs == old(ekf.inputs) + [AccSample(latestAcc, event.timestamp)]
        && (gyroBiasEstimator != null ==>
              gyroBiasEstimator.inputs == old(gyroBiasEstimator.inputs) + [EstimatorAcc(latestAcc, event.timestamp)])
        && firstGyroValue == old(firstGyroValue) && latestGyro == old(latestGyro) && gyroBias == old(gyroBias)
        && latestGyroEventClockTimeNs == old(latestGyroEventClockTimeNs)
        && unchanged(initialSystemGyroBias)
      ensures IsGyroscope(event.sensor) ==>
        && latestGyroEventClockTimeNs == nowNs
        && !firstGyroValue
        && initialSystemGyroBias[..] == BiasAfter(event, old(firstGyroValue), old(initialSystemGyroBias[..]))
        && (gyroBiasEstimator == null ==>
              latestGyro == GyroReading(event, initialSystemGyroBias[..]) && gyroBias == old(gyroBias))
        && (gyroBiasEstimator != null ==>
              && gyroBiasEstimator.inputs == old(gyroBiasEstimator.inputs)
                   + [EstimatorGyro(GyroReading(event, initialSystemGyroBias[..]), event.timestamp)]
              && gyroBias == gyroBiasEstimator.bias
              && latestGyro == Sub(GyroReading(event, initialSystemGyroBias[..]), gyroBiasEstimator.bias))
        && ekf.inputs == old(ekf.inputs) + [GyroSample(latestGyro, event.timestamp)]
        && latestAcc == old(latestAcc)
      ensures event.sensor == MagneticField ==>
        && ekf.inputs == old(ekf.inputs) + [MagSample(event.values, event.timestamp)]
        && unchanged(this) && unchanged(initialSystemGyroBias)
        && (gyroBiasEstimator != null ==> unchanged(gyroBiasEstimator))
      ensures event.sensor == OtherSensor ==>
        && unchanged(this) && unchanged(ekf) && unchanged(initialSystemGyroBias)
        && (gyroBiasEstimator != null ==> unchanged(gyroBiasEstimator))
    {
      if event.sensor == Accelerometer {
        latestAcc := Head3(event.values);
        ekf.ProcessAcc(latestAcc, event.timestamp);
        if gyroBiasEstimator != null {
          gyroBiasEstimator.ProcessAccelerometer(latestAcc, event.timestamp);
        }
      } else if IsGyroscope(event.sensor) {
        OnGyroscopeEvent(event, nowNs);
      } else if event.sensor == MagneticField {
        ekf.ProcessMag(event.values, event.timestamp);
      }
    }

    /** The gyroscope branch of `onSensorChanged`: stamps the event with the clock,
        captures the initial system bias from the session's first uncalibrated event with
        six values, subtracts it from uncalibrated readings, feeds the estimator (when
        there is one) and subtracts its bias, then feeds the filter. */
    method OnGyroscopeEvent(event: SensorEvent, nowNs: int)
      requires initialSystemGyroBias.Length == 3
      requires IsGyroscope(event.sensor) && |event.values| >= 3 && ekf.Valid()
      modifies this`latestGyro, this`gyroBias, this`firstGyroValue,
               this`latestGyroEventClockTimeNs, ekf, gyroBiasEstimator, initialSystemGyroBias
      ensures ekf.Valid()
      ensures
        && latestGyroEventClockTimeNs == nowNs
        && !firstGyroValue
        && initialSystemGyroBias[..] == BiasAfter(event, old(firstGyroValue), old(initialSystemGyroBias[..]))
        && (gyroBiasEstimator == null ==>
              latestGyro == GyroReading(event, initialSystemGyroBias[..]) && gyroBias == old(gyroBias))
        && (gyroBiasEstimator != null ==>
              && gyroBiasEstimator.inputs == old(gyroBiasEstimator.inputs)
                   + [EstimatorGyro(GyroReading(event, initialSystemGyroBias[..]), event.timestamp)]
              && gyroBias == gyroBiasEstimator.bias
              && latestGyro == Sub(GyroReading(event, initialSystemGyroBias[..]), gyroBiasEstimator.bias))
        && ekf.inputs == old(ekf.inputs) + [GyroSample(latestGyro, event.timestamp)]
        && latestAcc == old(latestAcc)
    {
      latestGyroEventClockTimeNs := nowNs;
      if event.sensor == GyroscopeUncalibrated && firstGyroValue && |event.values| == 6 {
        initialSystemGyroBias[0] := event.values[3];
        initialSystemGyroBias[1] := event.values[4];
        initialSystemGyroBias[2] := event.values[5];
        assert initialSystemGyroBias[..] == event.values[3..6];
      }
      latestGyro := GyroReading(event, initialSystemGyroBias[..]);
      firstGyroValue := false;
      if gyroBiasEstimator != null {
        gyroBiasEstimator.ProcessGyroscope(latestGyro, event.timestamp);
        gyroBias := gyroBiasEstimator.bias;
        latestGyro := Sub(latestGyro, gyroBias);
      }
      ekf.ProcessGyro(latestGyro, event.timestamp);
    }

    /** The copy loop of `getLastHeadView`: copies `mat` into `tmpHeadView` entry by
        entry for `count` entries, and fails on the first index past the 16 entries,
        after copying all of them. */
    method CopyPrediction(mat: seq<real>, count: int) returns (overrun: bool)
      requires tmpHeadView.Length == MATRIX_SIZE && |mat| == MATRIX_SIZE && count >= 0
      modifies tmpHeadView
      ensures overrun <==> count > MATRIX_SIZE
      ensures var n := if overrun then MATRIX_SIZE else count;
        && tmpHeadView[..n] == mat[..n]
        && tmpHeadView[n..] == old(tmpHeadView[n..])
    {
      var i := 0;
      while i < count
        invariant 0 <= i <= count && i <= MATRIX_SIZE
        invariant tmpHeadView[..i] == mat[..i]
        invariant forall k :: i <= k < MATRIX_SIZE ==> tmpHeadView[k] == old(tmpHeadView[k])
      {
        if i >= |mat| {
          return true;
        }
        tmpHeadView[i] := mat[i];
        i := i + 1;
      }
      overrun := false;
    }

    /** Writes the predicted, display-corrected transform into `headView` at `offset`.
        `rotationCode` is the display's `Surface.ROTATION_*` code, `nowNs` the tracker
        clock's reading, and `composeEntry(m, rotation, neckFactor, k)` the k-th entry of
        the product of the display correction, the predicted matrix `m`, the filter-to-tracker
        correction and the neck-model translations (matrix numerics outside this model). */
    method GetLastHeadView(headView: array<real>, offset: int, rotationCode: int, nowNs: int,
                           composeEntry: (seq<real>, real, real, int) -> real)
      returns (outcome: HeadViewOutcome)
      requires Valid()
      requires headView != tmpHeadView && headView != initialSystemGyroBias
      modifies this`displayRotation, this`correctionRebuilds, tmpHeadView, headView, ekf
      ensures Valid()
      ensures outcome == HeadViewOutcomeOf(headView.Length, offset, old(ekf.ready))
      ensures ekf.ready == old(ekf.ready) && ekf.prediction == old(ekf.prediction)
      ensures outcome == NotEnoughSpace ==> unchanged(this) && unchanged(ekf)
      ensures outcome != NotEnoughSpace ==>
        && displayRotation == Cached(DisplayRotationDegrees(rotationCode))
        && correctionRebuilds == old(correctionRebuilds) + (if old(displayRotation) == displayRotation then 0 else 1)
      ensures outcome == FilterNotReady ==> unchanged(ekf)
      ensures outcome == CopyOverrun || outcome == OffsetRejected || outcome == Written ==>
        ekf.inputs == old(ekf.inputs) + [PredictionRequest(PredictionSeconds(nowNs - latestGyroEventClockTimeNs))]
      ensures outcome == Written ==>
        var m, rotation, factor := ekf.prediction, displayRotation.degrees, neckModelFactor;
        headView[..] == seq(MATRIX_SIZE, k => composeEntry(m, rotation, factor, k))
      ensures outcome != Written ==> headView[..] == old(headView[..])
    {
      if offset + MATRIX_SIZE > headView.Length {
        return NotEnoughSpace;
      }
      var rotation := DisplayRotationDegrees(rotationCode);
      if displayRotation != Cached(rotation) {
        displayRotation := Cached(rotation);
        correctionRebuilds := correctionRebuilds + 1;
      }
      if !ekf.ready {
        return FilterNotReady;
      }
      var secondsToPredictForward := PredictionSeconds(nowNs - latestGyroEventClockTimeNs);
      var mat := ekf.GetPredictedGLMatrix(secondsToPredictForward);
      var overrun := CopyPrediction(mat, headView.Length);
      if overrun {
        return CopyOverrun;
      }
      if offset < 0 {
        return OffsetRejected;
      }
      assert tmpHeadView[..] == mat;
      var m := tmpHeadView[..];
      forall k | 0 <= k < MATRIX_SIZE {
        headView[offset + k] := composeEntry(m, rotation, neckModelFactor, k);
      }
      outcome := Written;
    }
  }
}
