# Landmarker: a verified model of its head tracking and compass core

Landmarker is an Android app that shows the names of nearby places as four labels
(north, east, south, west) sliding across the screen as the user turns the phone.
This project models, in Dafny, the parts of the app that decide what is shown and
where:

- **Sensor fan-out** (`SensorLooper`): the device sensor looper subscribes to the
  accelerometer, a gyroscope and the magnetometer and passes every event to its
  registered listeners, in registration order.
- **Head tracking** (`HeadTracking`): the head tracker routes samples into the
  orientation filter. It captures the system's gyroscope bias once per tracking
  session, subtracts it, and optionally subtracts its own bias estimate. It then
  produces the predicted head view. The orientation filter and the bias estimator
  are recorded as the inputs they receive.
- **Head transform** (`HeadTransforms`): reads vectors, a translation, a quaternion
  and Euler angles out of a 4x4 column-major head-view matrix.
- **Compass labels** (`DirectionalText`, `DirectionalContainer`):
  - the places are sorted by bearing into four directions;
  - the compass heading becomes label offsets, and a label's target position
    follows from its offset;
  - labels ease towards their targets every frame;
  - a tap selects the label under it;
  - a downward drag moves a label's text, and on release springs it back with an
    overshoot or returns it plainly;
  - distances are shown in kilometres or in miles.
- **Main screen** (`LandmarkerActivity`):
  - how old the cached location is, in whole hours, and which step follows from
    that;
  - the intro animation and the Google API connection must both happen before the
    first location check;
  - a location update is accepted by its age or by the number of tries;
  - the resume and pause lifecycle, and the 100 ms polling of the tracker.
- **Swing hint** (`SwingPhone`): the tilt of the "swing your phone" hint image as a
  piecewise-linear function of its position and direction.

`JavaSemantics` writes out the Java behaviour the model relies on:

- `int` and `long` division truncates toward zero;
- casts to `int` truncate and saturate;
- `%` on `double` keeps the sign of the dividend;
- exceptions become a `Status`.

Floats are modelled as reals. The `Math` functions are passed in as a
`MathLibrary` value.

Classes whose fields the Java code updates in place become Dafny classes.
Arrays stay arrays: the head-view buffers, the initial gyroscope bias and the
Euler angle buffer. Pure computations become functions, and lemmas relate them.

## Model

Source paths are relative to the repository root.

| member | source | states |
|---|---|---|
| JavaSemantics.TruncDiv | app/src/main/java/com/androidexperiments/landmarker/MainActivity.java:368-373 | Java's `/` with a positive divisor: the quotient's magnitude is the floor of the magnitudes' quotient, and its sign is the dividend's (truncation toward zero) |
| JavaSemantics.TruncDivNegates | app/src/main/java/com/androidexperiments/landmarker/MainActivity.java:368-373 | negating the dividend negates the truncating quotient |
| JavaSemantics.SaturateToInt | app/src/main/java/com/androidexperiments/landmarker/MainActivity.java:369 | the `(int)` narrowing of an integral double keeps values in the `int` range and saturates to `Integer.MIN_VALUE`/`MAX_VALUE` beyond it |
| JavaSemantics.TruncReal | app/src/main/java/com/androidexperiments/landmarker/widget/DirectionalTextView.java:249 | a float-to-integer cast rounds toward zero: the result is within one unit of the argument, on the zero side |
| JavaSemantics.FloatToInt | app/src/main/java/com/androidexperiments/landmarker/widget/DirectionalTextView.java:249 | `(int) f` always lies in the `int` range |
| JavaSemantics.FloatRem | app/src/main/java/com/androidexperiments/landmarker/widget/DirectionalTextViewContainer.java:236 | Java's `%` on doubles: the remainder has the dividend's sign and a magnitude below the divisor |
| JavaSemantics.FloatRemOfSmall | app/src/main/java/com/androidexperiments/landmarker/widget/DirectionalTextViewContainer.java:236 | a dividend in [0, b) is its own remainder, and b leaves remainder 0 |
| JavaSemantics.AbsReal | app/src/main/java/com/androidexperiments/landmarker/widget/DirectionalTextView.java:190 | `Math.abs` is non-negative and equals the argument or its negation |
| SensorEvents.Sub | app/src/main/java/com/androidexperiments/landmarker/sensors/HeadTracker.java:200-203 | componentwise vector difference: adding the subtrahend back gives the minuend |
| SensorLooper.Count | app/src/main/java/com/androidexperiments/landmarker/sensors/DeviceSensorLooper.java:162-173 | the number of registrations of a listener is at most the list length, and zero exactly when the listener is absent |
| SensorLooper.RemoveFirst | app/src/main/java/com/androidexperiments/landmarker/sensors/DeviceSensorLooper.java:171 | definition: `ArrayList.remove(Object)` on the listener list, the first occurrence cut out |
| SensorLooper.CountAppend | app/src/main/java/com/androidexperiments/landmarker/sensors/DeviceSensorLooper.java:162-166 | `registerListener` appends, so it adds exactly one registration of that listener and leaves every other listener's count alone (duplicates allowed) |
| SensorLooper.RemoveFirstAbsent | app/src/main/java/com/androidexperiments/landmarker/sensors/DeviceSensorLooper.java:169-173 | unregistering a listener that is not registered leaves the list unchanged |
| SensorLooper.RemoveFirstAt | app/src/main/java/com/androidexperiments/landmarker/sensors/DeviceSensorLooper.java:169-173 | `ArrayList.remove(Object)` deletes the first occurrence only: the list with the element at that index cut out |
| SensorLooper.CountRemoveFirst | app/src/main/java/com/androidexperiments/landmarker/sensors/DeviceSensorLooper.java:169-173 | unregistering drops exactly one registration of that listener when it has one, and leaves other listeners' counts alone |
| SensorLooper.FirstIndexOf | app/src/main/java/com/androidexperiments/landmarker/sensors/DeviceSensorLooper.java:171 | the linear search behind `remove(Object)`: -1 exactly when absent, otherwise the index of the first occurrence |
| SensorLooper.ChooseGyroscope | app/src/main/java/com/androidexperiments/landmarker/sensors/DeviceSensorLooper.java:68-75 | a gyroscope type is always chosen; it is the uncalibrated one exactly when the manufacturer is not "HTC" and the device has one |
| SensorLooper.Subscriptions | app/src/main/java/com/androidexperiments/landmarker/sensors/DeviceSensorLooper.java:114-134 | definition: the accelerometer, the chosen gyroscope and the magnetometer, in that order |
| SensorLooper.DeviceSensorLooper.constructor | app/src/main/java/com/androidexperiments/landmarker/sensors/DeviceSensorLooper.java:64-66 | a new looper is not running and has no listeners |
| SensorLooper.DeviceSensorLooper.Start | app/src/main/java/com/androidexperiments/landmarker/sensors/DeviceSensorLooper.java:81-141 | starting a running looper changes nothing; otherwise it subscribes to the accelerometer, the chosen gyroscope and the magnetometer and runs; listeners are kept |
| SensorLooper.DeviceSensorLooper.Stop | app/src/main/java/com/androidexperiments/landmarker/sensors/DeviceSensorLooper.java:147-159 | stopping a stopped looper changes nothing; otherwise all subscriptions go and it stops; listeners are kept |
| SensorLooper.DeviceSensorLooper.RegisterListener | app/src/main/java/com/androidexperiments/landmarker/sensors/DeviceSensorLooper.java:162-166 | the listener is appended; running state and subscriptions are untouched |
| SensorLooper.DeviceSensorLooper.UnregisterListener | app/src/main/java/com/androidexperiments/landmarker/sensors/DeviceSensorLooper.java:169-173 | the first registration of the listener is removed; running state and subscriptions are untouched |
| SensorLooper.DeviceSensorLooper.DeliverEvent | app/src/main/java/com/androidexperiments/landmarker/sensors/DeviceSensorLooper.java:87-96 | an event goes to every registered listener once per registration, in registration order |
| HeadTracking.OrientationEkf.constructor | app/src/main/java/com/androidexperiments/landmarker/sensors/HeadTracker.java:152 | a new filter is not ready and has received nothing |
| HeadTracking.OrientationEkf.Reset | app/src/main/java/com/androidexperiments/landmarker/sensors/HeadTracker.java:240 | a reset is recorded as the filter's next input; readiness and prediction are then whatever the filter decides, a prediction still being 16 entries |
| HeadTracking.OrientationEkf.ProcessAcc | app/src/main/java/com/androidexperiments/landmarker/sensors/HeadTracker.java:171 | an accelerometer sample is recorded as the filter's next input; readiness and prediction are then the filter's own |
| HeadTracking.OrientationEkf.ProcessGyro | app/src/main/java/com/androidexperiments/landmarker/sensors/HeadTracker.java:220 | a gyroscope sample is recorded as the filter's next input; readiness and prediction are then the filter's own |
| HeadTracking.OrientationEkf.ProcessMag | app/src/main/java/com/androidexperiments/landmarker/sensors/HeadTracker.java:224 | a magnetometer sample is recorded as the filter's next input; readiness and prediction are then the filter's own |
| HeadTracking.OrientationEkf.GetPredictedGLMatrix | app/src/main/java/com/androidexperiments/landmarker/sensors/HeadTracker.java:383 | the request (with its seconds forward) is recorded and the filter's current prediction returned; asking does not change readiness or prediction |
| HeadTracking.GyroscopeBiasEstimator.constructor | app/src/main/java/com/androidexperiments/landmarker/sensors/HeadTracker.java:325 | a new estimator has zero bias and no inputs |
| HeadTracking.GyroscopeBiasEstimator.Reset | app/src/main/java/com/androidexperiments/landmarker/sensors/HeadTracker.java:244 | a reset is recorded as the estimator's next input; the bias that follows is the estimator's own |
| HeadTracking.GyroscopeBiasEstimator.ProcessAccelerometer | app/src/main/java/com/androidexperiments/landmarker/sensors/HeadTracker.java:175 | the sample is recorded as the estimator's next input; the bias that follows is the estimator's own |
| HeadTracking.GyroscopeBiasEstimator.ProcessGyroscope | app/src/main/java/com/androidexperiments/landmarker/sensors/HeadTracker.java:213 | the sample is recorded as the estimator's next input; the bias that follows is the estimator's own |
| HeadTracking.DisplayRotationDegrees | app/src/main/java/com/androidexperiments/landmarker/sensors/HeadTracker.java:354-368 | the rotation is one of 0, 90, 180, 270: 90 times the code for codes 0 to 3, and 0 for any other code |
| HeadTracking.PredictionSeconds | app/src/main/java/com/androidexperiments/landmarker/sensors/HeadTracker.java:380-382 | seconds forward = whole seconds since the last gyroscope event (truncated toward zero, on either side of it) plus the 0.058 s latency |
| HeadTracking.SubSecondGapPredictsLatencyOnly | app/src/main/java/com/androidexperiments/landmarker/sensors/HeadTracker.java:380-382 | any gap under one second either way predicts exactly the latency constant forward |
| HeadTracking.HeadViewOutcomeOf | app/src/main/java/com/androidexperiments/landmarker/sensors/HeadTracker.java:347-408 | the exact conditions for each ending: no space; filter not ready; the copy loop overrunning the 16-float temporary (any buffer longer than 16); the matrix write rejecting a negative offset; written only for a 16-float buffer at offset 0 |
| HeadTracking.BiasAfter | app/src/main/java/com/androidexperiments/landmarker/sensors/HeadTracker.java:193-198 | definition: the initial system bias after one gyroscope event, the event's trailing three values exactly when the latch is up and the event is uncalibrated with six values |
| HeadTracking.GyroReading | app/src/main/java/com/androidexperiments/landmarker/sensors/HeadTracker.java:199-209 | definition: the reading passed on, the first three values minus the initial system bias for an uncalibrated gyroscope and as they are otherwise |
| HeadTracking.SessionBias | app/src/main/java/com/androidexperiments/landmarker/sensors/HeadTracker.java:193-209 | definition: the initial system bias after a run of events, the latch going down at the first gyroscope event |
| HeadTracking.FirstGyroEvent | app/src/main/java/com/androidexperiments/landmarker/sensors/HeadTracker.java:178-179 | the first gyroscope event of a run is a gyroscope event of the run, and there is none exactly when the run has no gyroscope event |
| HeadTracking.SessionBiasAfterLatch | app/src/main/java/com/androidexperiments/landmarker/sensors/HeadTracker.java:193-209 | once the first-gyroscope latch is down, no event changes the initial system bias |
| HeadTracking.SessionBiasFromFirstGyroEvent | app/src/main/java/com/androidexperiments/landmarker/sensors/HeadTracker.java:193-209 | over a session the initial system bias is decided by the first gyroscope event alone: its trailing three values if it is uncalibrated with six values, else the bias stays |
| HeadTracking.HeadTracker.constructor | app/src/main/java/com/androidexperiments/landmarker/sensors/HeadTracker.java:130-160 | a new tracker is not tracking, has the latch up, neck factor 1, no cached rotation, a fresh filter and estimator, and a stopped looper without listeners |
| HeadTracking.HeadTracker.StartTracking | app/src/main/java/com/androidexperiments/landmarker/sensors/HeadTracker.java:236-252 | ends in `StartedTracking`: changes nothing while tracking; otherwise resets filter and estimator, raises the latch, registers itself with the looper, which subscribes, and tracks; either way the neck factor, rotation cache, gyroscope clock, latest samples and bias, initial bias and estimator choice are kept |
| HeadTracking.HeadTracker.ResetTracker | app/src/main/java/com/androidexperiments/landmarker/sensors/HeadTracker.java:258-260 | a reset is recorded by the filter; the tracker's fields, the looper and the estimator are outside what it may change |
| HeadTracking.HeadTracker.StopTracking | app/src/main/java/com/androidexperiments/landmarker/sensors/HeadTracker.java:265-273 | idempotent while stopped; otherwise unregisters itself and stops the looper; filter and estimator are untouched |
| HeadTracking.HeadTracker.GetNeckModelFactor | app/src/main/java/com/androidexperiments/landmarker/sensors/HeadTracker.java:293-297 | returns the factor, which always lies in [0, 1] |
| HeadTracking.HeadTracker.SetNeckModelFactor | app/src/main/java/com/androidexperiments/landmarker/sensors/HeadTracker.java:304-311 | IllegalArgumentException exactly for factors outside [0, 1], leaving the factor; otherwise the factor is stored |
| HeadTracking.HeadTracker.SetNeckModelEnabled | app/src/main/java/com/androidexperiments/landmarker/sensors/HeadTracker.java:280-286 | the factor becomes 1 when enabled and 0 when disabled |
| HeadTracking.HeadTracker.SetGyroBiasEstimationEnabled | app/src/main/java/com/androidexperiments/landmarker/sensors/HeadTracker.java:318-328 | disabling drops the estimator; enabling keeps an existing one or creates a fresh one |
| HeadTracking.HeadTracker.GetGyroBiasEstimationEnabled | app/src/main/java/com/androidexperiments/landmarker/sensors/HeadTracker.java:334-338 | enabled exactly when an estimator is present |
| HeadTracking.HeadTracker.SetGyroBiasEstimator | app/src/main/java/com/androidexperiments/landmarker/sensors/HeadTracker.java:422-426 | the given estimator (possibly `null`) is installed |
| HeadTracking.HeadTracker.OnSensorChanged | app/src/main/java/com/androidexperiments/landmarker/sensors/HeadTracker.java:168-226 | each sensor type's route: accelerometer samples go to filter and estimator; gyroscope samples as `OnGyroscopeEvent` states; magnetometer values go to the filter; other sensors change nothing |
| HeadTracking.HeadTracker.OnGyroscopeEvent | app/src/main/java/com/androidexperiments/landmarker/sensors/HeadTracker.java:178-221 | stamps the clock; captures the initial bias on the session's first six-value uncalibrated event; lowers the latch; the filter receives the reading minus the initial bias (uncalibrated) minus the estimator's bias when present |
| HeadTracking.HeadTracker.CopyPrediction | app/src/main/java/com/androidexperiments/landmarker/sensors/HeadTracker.java:384-386 | the copy loop overruns exactly when asked for more than 16 floats; the floats copied before that match the prediction and the rest of the temporary is untouched |
| HeadTracking.HeadTracker.GetLastHeadView | app/src/main/java/com/androidexperiments/landmarker/sensors/HeadTracker.java:347-408 | ends as `HeadViewOutcomeOf` says; re-caches the display rotation; asks the filter for its prediction at `PredictionSeconds`; when written, the buffer holds the composed head view; otherwise it is unchanged |
| HeadTransforms.IdentityFixesVectors | app/src/main/java/com/androidexperiments/landmarker/util/HeadTransform.java:33-36 | the initial identity head view maps every vector to itself |
| HeadTransforms.ForwardVector | app/src/main/java/com/androidexperiments/landmarker/util/HeadTransform.java:75-85 | the forward vector is the head view applied to (0, 0, -1, 0) |
| HeadTransforms.UpVector | app/src/main/java/com/androidexperiments/landmarker/util/HeadTransform.java:94-104 | the up vector is the head view applied to (0, 1, 0, 0) |
| HeadTransforms.RightVector | app/src/main/java/com/androidexperiments/landmarker/util/HeadTransform.java:113-123 | the right vector is the head view applied to (1, 0, 0, 0) |
| HeadTransforms.Translation | app/src/main/java/com/androidexperiments/landmarker/util/HeadTransform.java:241-251 | the translation is the head view applied to the origin (0, 0, 0, 1) |
| HeadTransforms.BranchOf | app/src/main/java/com/androidexperiments/landmarker/util/HeadTransform.java:140-174 | the trace branch exactly when the trace is non-negative; otherwise the pivot is the largest diagonal entry, ties going to the later test |
| HeadTransforms.Radicand | app/src/main/java/com/androidexperiments/landmarker/util/HeadTransform.java:140-174 | the argument of the branch's `Math.sqrt` is at least 1, so the square root is never of a negative number or zero |
| HeadTransforms.Extract | app/src/main/java/com/androidexperiments/landmarker/util/HeadTransform.java:143-173 | definition: the branch's quaternion from the matrix and the branch's square root |
| HeadTransforms.QuaternionOf | app/src/main/java/com/androidexperiments/landmarker/util/HeadTransform.java:143-173 | definition: `Extract` with the root of the branch's radicand, as `getQuaternion` computes it |
| HeadTransforms.ExtractPivotProducts | app/src/main/java/com/androidexperiments/landmarker/util/HeadTransform.java:132-180 | on each branch, 4 times the pivot component squared is the radicand, and 4 times its products with the other components are the matrix's off-diagonal sums and differences, as for a unit quaternion |
| HeadTransforms.TracePivotIdentities | app/src/main/java/com/androidexperiments/landmarker/util/HeadTransform.java:143-149 | the trace branch's identities for w |
| HeadTransforms.XPivotIdentities | app/src/main/java/com/androidexperiments/landmarker/util/HeadTransform.java:151-157 | the x branch's identities |
| HeadTransforms.YPivotIdentities | app/src/main/java/com/androidexperiments/landmarker/util/HeadTransform.java:159-165 | the y branch's identities |
| HeadTransforms.ZPivotIdentities | app/src/main/java/com/androidexperiments/landmarker/util/HeadTransform.java:167-173 | the z branch's identities |
| HeadTransforms.QuaternionRoot | app/src/main/java/com/androidexperiments/landmarker/util/HeadTransform.java:144-168 | with an exact square root, the branch's root is positive and squares to the radicand |
| HeadTransforms.GimbalLocked | app/src/main/java/com/androidexperiments/landmarker/util/HeadTransform.java:217 | definition: lock unless 1 - m[6]^2 is non-negative with a square root of at least the epsilon (a NaN root counts as lock) |
| HeadTransforms.EulerAngles | app/src/main/java/com/androidexperiments/landmarker/util/HeadTransform.java:206-232 | the negated pitch is `-asin(m[6])`; under gimbal lock yaw is 0 and roll comes from m[1], m[0]; otherwise yaw and roll come from the two `atan2` pairs; all written negated |
| HeadTransforms.SquaresOrdered | app/src/main/java/com/androidexperiments/landmarker/util/HeadTransform.java:217 | for non-negative reals, comparing values and comparing squares agree |
| HeadTransforms.GimbalLockedIff | app/src/main/java/com/androidexperiments/landmarker/util/HeadTransform.java:217 | with an exact square root, gimbal lock holds exactly when m[6]^2 exceeds 1 - epsilon^2 |
| HeadTransforms.ColumnWrites | app/src/main/java/com/androidexperiments/landmarker/util/HeadTransform.java:82-84 | definition: the array after the read-out loop writes its entries one by one into the matrix's own array, each read seeing the earlier writes |
| HeadTransforms.ColumnWritesCopy | app/src/main/java/com/androidexperiments/landmarker/util/HeadTransform.java:82-84 | when the target starts at or before the source, or wholly after it, the in-place writes are a plain copy of the column |
| HeadTransforms.ColumnWritesSmear | app/src/main/java/com/androidexperiments/landmarker/util/HeadTransform.java:99-101 | when the target starts one entry after the source, the first source entry fills all three places |
| HeadTransforms.HeadTransform.constructor | app/src/main/java/com/androidexperiments/landmarker/util/HeadTransform.java:33-36 | a new transform's head view is the identity |
| HeadTransforms.HeadTransform.GetHeadViewArray | app/src/main/java/com/androidexperiments/landmarker/util/HeadTransform.java:43-45 | returns the live head-view array itself (an alias) |
| HeadTransforms.HeadTransform.GetHeadView | app/src/main/java/com/androidexperiments/landmarker/util/HeadTransform.java:56-63 | IllegalArgumentException exactly when 16 floats do not fit; IndexOutOfBounds for a negative offset; otherwise the 16 floats are copied at the offset and nothing else changes |
| HeadTransforms.HeadTransform.WriteColumn | app/src/main/java/com/androidexperiments/landmarker/util/HeadTransform.java:75-123 | the shared loop of the vector getters: the same failure conditions for 3 floats; on success the (possibly negated) column written at the offset, also into the matrix's own array unless the target starts inside the source; into its own array, always the in-order `ColumnWrites` |
| HeadTransforms.HeadTransform.GetForwardVector | app/src/main/java/com/androidexperiments/landmarker/util/HeadTransform.java:75-85 | the failure conditions; on success `ForwardVector` written at the offset, into the matrix's own array too when it does not overlap wrongly (offset <= 8 or >= 11); into its own array, the in-order `ColumnWrites` |
| HeadTransforms.HeadTransform.GetUpVector | app/src/main/java/com/androidexperiments/landmarker/util/HeadTransform.java:94-104 | the failure conditions; on success `UpVector` written at the offset, into the matrix's own array too when it does not overlap wrongly (offset <= 4 or >= 7); into its own array, the in-order `ColumnWrites` |
| HeadTransforms.HeadTransform.GetRightVector | app/src/main/java/com/androidexperiments/landmarker/util/HeadTransform.java:113-123 | the failure conditions; on success `RightVector` written at the offset, into the matrix's own array too when it does not overlap wrongly (offset 0 or >= 3); into its own array, the in-order `ColumnWrites` |
| HeadTransforms.HeadTransform.GetTranslation | app/src/main/java/com/androidexperiments/landmarker/util/HeadTransform.java:241-251 | the failure conditions; on success `Translation` written at the offset, into the matrix's own array too when it does not overlap wrongly (offset <= 12); into its own array, the in-order `ColumnWrites` |
| HeadTransforms.HeadTransform.GetQuaternion | app/src/main/java/com/androidexperiments/landmarker/util/HeadTransform.java:132-180 | the failure conditions for 4 floats, and on success x, y, z, w of the branch's extraction written at the offset |
| HeadTransforms.HeadTransform.GetEulerAngles | app/src/main/java/com/androidexperiments/landmarker/util/HeadTransform.java:206-232 | the failure conditions for 3 floats, and on success `EulerAngles` written at the offset |
| DirectionalText.Kilometres | app/src/main/java/com/androidexperiments/landmarker/widget/DirectionalTextView.java:131 | kilometres times 1000 give back the metres |
| DirectionalText.Miles | app/src/main/java/com/androidexperiments/landmarker/widget/DirectionalTextView.java:162-164 | a non-negative distance in metres gives a non-negative number of miles no larger than it |
| DirectionalText.MilesAgreeWithStatuteMile | app/src/main/java/com/androidexperiments/landmarker/widget/DirectionalTextView.java:162-164 | the conversion constant agrees with the statute mile of 1609.344 m to within one part in 10^9 (from below), and is the kilometre value scaled |
| DirectionalText.Reading | app/src/main/java/com/androidexperiments/landmarker/widget/DirectionalTextView.java:137-142 | the text shows kilometres exactly when metric, with the stored value of the unit shown |
| DirectionalText.LiftRange | app/src/main/java/com/androidexperiments/landmarker/widget/DirectionalTextView.java:257-260 | with a true sine, the main text does not move at percent 0, moves down 240 px (half the 480 px travel) at percent 1, and never moves more than 240 px either way |
| DirectionalText.ScaledIsProduct | app/src/main/java/com/androidexperiments/landmarker/widget/DirectionalTextView.java:188 | the label target is offset times view width |
| DirectionalText.EaseStep | app/src/main/java/com/androidexperiments/landmarker/widget/DirectionalTextView.java:248 | one frame closes 12% of the gap: the new gap is 0.88 times the old, and the position stays between where it was and the target |
| DirectionalText.Pow | app/src/main/java/com/androidexperiments/landmarker/widget/DirectionalTextView.java:248 | a power of a non-negative base is non-negative |
| DirectionalText.EaseStepsGap | app/src/main/java/com/androidexperiments/landmarker/widget/DirectionalTextView.java:247-250 | after n frames toward a fixed target the gap is 0.88^n times the initial gap |
| DirectionalText.RandomIndex | app/src/main/java/com/androidexperiments/landmarker/widget/DirectionalTextView.java:178 | `(int) floor(random * size)` with random in [0, 1) is a valid index |
| DirectionalText.Slid | app/src/main/java/com/androidexperiments/landmarker/widget/DirectionalTextView.java:187-196 | definition: a label after `setTranslation`, target and last target set, position and view snapped only for a jump of more than 1920 px |
| DirectionalText.ShowsList | app/src/main/java/com/androidexperiments/landmarker/widget/DirectionalTextView.java:105-111 | definition: a label after `setPlaces`, the list stored and its first place shown, or the dimmed empty text with the old place and distance |
| DirectionalText.DirectionalTextView.constructor | app/src/main/java/com/androidexperiments/landmarker/widget/DirectionalTextView.java:53-63 | a new label is at 0 with target 0, has no places and no current place, and is metric |
| DirectionalText.DirectionalTextView.OnFinishInflate | app/src/main/java/com/androidexperiments/landmarker/widget/DirectionalTextView.java:78-87 | the saved unit choice is restored and the distance text redrawn for it |
| DirectionalText.DirectionalTextView.SetDistanceText | app/src/main/java/com/androidexperiments/landmarker/widget/DirectionalTextView.java:137-142 | the distance text is the reading in the chosen unit |
| DirectionalText.DirectionalTextView.SetDistance | app/src/main/java/com/androidexperiments/landmarker/widget/DirectionalTextView.java:130-135 | both units are stored from the metres, and the text shows the chosen one |
| DirectionalText.DirectionalTextView.SetPlace | app/src/main/java/com/androidexperiments/landmarker/widget/DirectionalTextView.java:150-155 | the place becomes current, its name the main text, and its distance the shown distance |
| DirectionalText.DirectionalTextView.SetEmptyPlace | app/src/main/java/com/androidexperiments/landmarker/widget/DirectionalTextView.java:144-148 | the main text is emptied and dimmed |
| DirectionalText.DirectionalTextView.SetPlaces | app/src/main/java/com/androidexperiments/landmarker/widget/DirectionalTextView.java:105-111 | ends in `ShowsList`: the list is stored; a non-empty list shows its first place, name and distance; an empty one the dimmed empty text with the old place and distance kept |
| DirectionalText.DirectionalTextView.GetCurrentPlace | app/src/main/java/com/androidexperiments/landmarker/widget/DirectionalTextView.java:166-168 | returns the current place |
| DirectionalText.DirectionalTextView.SetRandomPlace | app/src/main/java/com/androidexperiments/landmarker/widget/DirectionalTextView.java:175-179 | an empty list changes nothing; otherwise the place at the random index, a member of the list, is shown with its name and its distance in both units |
| DirectionalText.DirectionalTextView.OnDistanceClicked | app/src/main/java/com/androidexperiments/landmarker/widget/DirectionalTextView.java:114-123 | the unit choice flips and the posted event carries the new choice |
| DirectionalText.DirectionalTextView.OnEvent | app/src/main/java/com/androidexperiments/landmarker/widget/DirectionalTextView.java:125-128 | the event's unit choice is adopted and the distance text redrawn |
| DirectionalText.DirectionalTextView.SetTranslation | app/src/main/java/com/androidexperiments/landmarker/widget/DirectionalTextView.java:187-196 | ends in `Slid` with target offset times width: the target is remembered; a jump of more than 1920 px from the last target snaps the position and the view there, a smaller one leaves both for the frames |
| DirectionalText.DirectionalTextView.DrawView | app/src/main/java/com/androidexperiments/landmarker/widget/DirectionalTextView.java:247-250 | the position takes one `EaseStep` toward the target and the view is placed at its `(int)` truncation |
| DirectionalText.DirectionalTextView.UpdatePosition | app/src/main/java/com/androidexperiments/landmarker/widget/DirectionalTextView.java:256-268 | the main text moves down by `Lift(percent)`, and the distance's alpha and both scales become 1 - percent |
| DirectionalText.DirectionalTextView.SpringUp | app/src/main/java/com/androidexperiments/landmarker/widget/DirectionalTextView.java:198-226 | a spring-up motion is started |
| DirectionalText.DirectionalTextView.ReturnToPosition | app/src/main/java/com/androidexperiments/landmarker/widget/DirectionalTextView.java:228-245 | a return motion is started |
| DirectionalContainer.BucketOf | app/src/main/java/com/androidexperiments/landmarker/widget/DirectionalTextViewContainer.java:205-212 | north exactly for bearings in (-45, 45), east for (45, 135), west for (-135, -45), and south for everything else, including the boundaries -45, 45 and 135 |
| DirectionalContainer.Bucket | app/src/main/java/com/androidexperiments/landmarker/widget/DirectionalTextViewContainer.java:191-213 | a direction's list is no longer than the input |
| DirectionalContainer.BucketAppend | app/src/main/java/com/androidexperiments/landmarker/widget/DirectionalTextViewContainer.java:191-213 | sorting is compositional: the lists for a concatenation are the concatenated lists, so input order is kept within each direction |
| DirectionalContainer.BucketSizes | app/src/main/java/com/androidexperiments/landmarker/widget/DirectionalTextViewContainer.java:191-213 | the four lists together are exactly as long as the input: every place lands in exactly one direction |
| DirectionalContainer.BucketStep | app/src/main/java/com/androidexperiments/landmarker/widget/DirectionalTextViewContainer.java:204-212 | one more loop iteration appends the place to its own direction's list only |
| DirectionalContainer.PlaceInItsBucket | app/src/main/java/com/androidexperiments/landmarker/widget/DirectionalTextViewContainer.java:202-212 | every place appears in the list of the direction its bearing selects |
| DirectionalContainer.Normalise | app/src/main/java/com/androidexperiments/landmarker/widget/DirectionalTextViewContainer.java:236-238 | every heading from -180 up is normalised into [0, 360) |
| DirectionalContainer.NormaliseOnDocumentedRange | app/src/main/java/com/androidexperiments/landmarker/widget/DirectionalTextViewContainer.java:229-238 | on the documented range [-180, 180] the normalised heading is a quarter turn ahead, wrapped (180 gives 270) |
| DirectionalContainer.ViewOffsets | app/src/main/java/com/androidexperiments/landmarker/widget/DirectionalTextViewContainer.java:246-256 | definition: each label's offset in view widths from the normalised heading, south by its two cases |
| DirectionalContainer.OffsetsOneWidthApart | app/src/main/java/com/androidexperiments/landmarker/widget/DirectionalTextViewContainer.java:246-256 | west, north and east sit one width apart; south is two widths right of north for headings in (0, 90) and two widths left otherwise |
| DirectionalContainer.OffsetsOnCircle | app/src/main/java/com/androidexperiments/landmarker/widget/DirectionalTextViewContainer.java:245-256 | north, east and west are centred exactly at headings 180, 90 and 270; south is never centred; each offset's range over [0, 360) |
| DirectionalContainer.TappedDirection | app/src/main/java/com/androidexperiments/landmarker/widget/DirectionalTextViewContainer.java:168-180 | definition: the label a tap at x hits, from the labels' left edges, in the order east, north, west, else south |
| DirectionalContainer.TapHitsContainingSpan | app/src/main/java/com/androidexperiments/landmarker/widget/DirectionalTextViewContainer.java:160-181 | with the labels in order west, north, east, south, a tap hits the label whose span contains it, and south everything outside |
| DirectionalContainer.SpringsUp | app/src/main/java/com/androidexperiments/landmarker/widget/DirectionalTextViewContainer.java:147-150 | definition: the release test, drag fraction over one half, and a positive drag for a zero total |
| DirectionalContainer.SpringsUpPastHalfway | app/src/main/java/com/androidexperiments/landmarker/widget/DirectionalTextViewContainer.java:141-146 | with a negative total a released label springs back with an overshoot exactly when dragged down more than half the range |
| DirectionalContainer.MovePercentPositive | app/src/main/java/com/androidexperiments/landmarker/widget/DirectionalTextViewContainer.java:127-137 | a drag inside the moving window gives a positive completion fraction |
| DirectionalContainer.DirectionalTextViewContainer.constructor | app/src/main/java/com/androidexperiments/landmarker/widget/DirectionalTextViewContainer.java:36-53 | four fresh labels, the default movement constants, drawing on, width 0 and nothing touched |
| DirectionalContainer.DirectionalTextViewContainer.SetupMovementConstants | app/src/main/java/com/androidexperiments/landmarker/widget/DirectionalTextViewContainer.java:83-91 | the maximum drag is minus half the window height, by truncating `int` division |
| DirectionalContainer.DirectionalTextViewContainer.SortIntoDirections | app/src/main/java/com/androidexperiments/landmarker/widget/DirectionalTextViewContainer.java:186-213 | the loop leaves each direction's list equal to `Bucket` of the input for that direction |
| DirectionalContainer.DirectionalTextViewContainer.UpdatePlaces | app/src/main/java/com/androidexperiments/landmarker/widget/DirectionalTextViewContainer.java:183-219 | the four lists are the buckets of the sightings, and each label ends in `ShowsList` of its list; targets, positions and drag state of the labels are outside what it may change |
| DirectionalContainer.DirectionalTextViewContainer.UpdateView | app/src/main/java/com/androidexperiments/landmarker/widget/DirectionalTextViewContainer.java:233-262 | the width is taken from the east label once; each label ends in `Slid` toward its `ViewOffsets` offset of the normalised heading times the width, its view snapped only on a jump; nothing else of the labels may change |
| DirectionalContainer.DirectionalTextViewContainer.StartDrawing | app/src/main/java/com/androidexperiments/landmarker/widget/DirectionalTextViewContainer.java:274-276 | drawing is switched on |
| DirectionalContainer.DirectionalTextViewContainer.StopDrawing | app/src/main/java/com/androidexperiments/landmarker/widget/DirectionalTextViewContainer.java:293-295 | drawing is switched off |
| DirectionalContainer.DirectionalTextViewContainer.DrawFrame | app/src/main/java/com/androidexperiments/landmarker/widget/DirectionalTextViewContainer.java:278-290 | while drawing, each label takes one `EaseStep` and its view is placed at the `(int)` of the new position, and the frame reschedules itself; otherwise nothing moves and it ends; only positions and views may change |
| DirectionalContainer.DirectionalTextViewContainer.GetTappedView | app/src/main/java/com/androidexperiments/landmarker/widget/DirectionalTextViewContainer.java:160-181 | the hit label is `TappedDirection` of the labels' left edges |
| DirectionalContainer.DirectionalTextViewContainer.OnSingleTapConfirmed | app/src/main/java/com/androidexperiments/landmarker/widget/DirectionalTextViewContainer.java:97-102 | the posted place is the hit label's current place (possibly `null`) |
| DirectionalContainer.DirectionalTextViewContainer.OnTouch | app/src/main/java/com/androidexperiments/landmarker/widget/DirectionalTextViewContainer.java:111-156 | down: picks the hit label and remembers y; move: within (max, min) sets the touched label's text offset, alpha and scales from the drag fraction, else nothing; up/cancel: starts the spring or return motion of the touched label only and forgets it; no other label changes; always consumed |
| LandmarkerActivity.LocationAgeHours | app/src/main/java/com/androidexperiments/landmarker/MainActivity.java:366-374 | the age in hours is within the range the `int` seconds allow, non-negative for past fixes and non-positive for future ones |
| LandmarkerActivity.AgeHoursOfNonNegativeAge | app/src/main/java/com/androidexperiments/landmarker/MainActivity.java:366-374 | for a non-negative age within the `int` range of seconds, the chain of divisions gives exactly the whole hours elapsed |
| LandmarkerActivity.AgeHoursTruncatesTowardZero | app/src/main/java/com/androidexperiments/landmarker/MainActivity.java:366-374 | swapping the two times negates the age, saturation included |
| LandmarkerActivity.HoursOddInSeconds | app/src/main/java/com/androidexperiments/landmarker/MainActivity.java:369-373 | the cast-and-divide tail is odd in the seconds, including at the saturated ends |
| LandmarkerActivity.FreshUnderTwoHours | app/src/main/java/com/androidexperiments/landmarker/MainActivity.java:354-363 | a fix counts as fresh (whole hours at most 1) exactly when it is under two hours old |
| LandmarkerActivity.NextStep | app/src/main/java/com/androidexperiments/landmarker/MainActivity.java:337-364 | no cached fix leads to the settings check; a fix more than an hour old in whole hours to location updates; any other to the place lookup |
| LandmarkerActivity.NextStepByAge | app/src/main/java/com/androidexperiments/landmarker/MainActivity.java:354-363 | with a cached fix, places are looked up exactly when it is under two hours old and new fixes are requested exactly when it is two hours old or more |
| LandmarkerActivity.Accepts | app/src/main/java/com/androidexperiments/landmarker/MainActivity.java:431 | definition: a fix is accepted when at most an hour old in whole hours or on the fifth try |
| LandmarkerActivity.FirstAccepted | app/src/main/java/com/androidexperiments/landmarker/MainActivity.java:422-436 | the first accepted callback is accepted and every earlier one rejected; none accepted means all rejected |
| LandmarkerActivity.AcceptedByFifthFix | app/src/main/java/com/androidexperiments/landmarker/MainActivity.java:431 | whatever the ages, a fresh listener accepts one of its first five fixes |
| LandmarkerActivity.Step | app/src/main/java/com/androidexperiments/landmarker/MainActivity.java:294-302 | definition: one event of the intro/connection protocol, a check made when the second of the two arrives |
| LandmarkerActivity.Run | app/src/main/java/com/androidexperiments/landmarker/MainActivity.java:550-567 | definition: the protocol over a sequence of events, one `Step` at a time |
| LandmarkerActivity.RunAppend | app/src/main/java/com/androidexperiments/landmarker/MainActivity.java:294-302 | running the event protocol over two stretches is running it over their concatenation |
| LandmarkerActivity.RunWithoutIntro | app/src/main/java/com/androidexperiments/landmarker/MainActivity.java:550-567 | without the intro finishing and not waiting, connection events never check the location |
| LandmarkerActivity.RunWhileWaiting | app/src/main/java/com/androidexperiments/landmarker/MainActivity.java:550-560 | while the intro waits for the API, the location is checked once exactly when a connection arrives |
| LandmarkerActivity.CheckedOnceByWhicheverIsLast | app/src/main/java/com/androidexperiments/landmarker/MainActivity.java:294-302 | after the intro finishes once, the location is checked exactly once if the API was connected then or connects later, never otherwise |
| LandmarkerActivity.LocationListener.constructor | app/src/main/java/com/androidexperiments/landmarker/MainActivity.java:422 | a new listener has had no tries |
| LandmarkerActivity.MainActivity.constructor | app/src/main/java/com/androidexperiments/landmarker/MainActivity.java:88-129 | the tracker, transform and compass are created; first run, not connected, not waiting, no places, no location, not tracking |
| LandmarkerActivity.MainActivity.OnResume | app/src/main/java/com/androidexperiments/landmarker/MainActivity.java:154-177 | the tracker ends in `StartedTracking` and drawing starts; the first resume animates the title and returns; later ones resume polling when places are shown |
| LandmarkerActivity.MainActivity.OnPause | app/src/main/java/com/androidexperiments/landmarker/MainActivity.java:186-195 | polling, tracking and drawing all stop; when it was tracking the tracker's first registration is removed from the looper's listeners (`RemoveFirst`) and the subscriptions go; otherwise the looper is untouched |
| LandmarkerActivity.MainActivity.PollTick | app/src/main/java/com/androidexperiments/landmarker/MainActivity.java:525-537 | when not tracking nothing changes and the poll ends; otherwise the predicted head view is read into the transform, the Euler angles extracted from it, and the poll reschedules |
| LandmarkerActivity.MainActivity.UpdateDirectionalTextView | app/src/main/java/com/androidexperiments/landmarker/MainActivity.java:540-545 | the compass width is taken once, and each label ends in `Slid` toward its offset for the yaw in degrees times the width; nothing else of the labels may change |
| LandmarkerActivity.MainActivity.CheckLastLocation | app/src/main/java/com/androidexperiments/landmarker/MainActivity.java:337-364 | counts the check, stores the fix and takes `NextStep` of it |
| LandmarkerActivity.MainActivity.OnIntroFinished | app/src/main/java/com/androidexperiments/landmarker/MainActivity.java:294-302 | follows the protocol's `Step`: checks now exactly when connected, taking `NextStep` of the cached fix, otherwise starts waiting |
| LandmarkerActivity.MainActivity.OnConnected | app/src/main/java/com/androidexperiments/landmarker/MainActivity.java:550-560 | follows `Step`: connects, and checks exactly when the intro was waiting, taking `NextStep` of the cached fix and ending the wait |
| LandmarkerActivity.MainActivity.OnConnectionSuspended | app/src/main/java/com/androidexperiments/landmarker/MainActivity.java:563-567 | follows `Step`: disconnects only |
| LandmarkerActivity.MainActivity.OnLocationChanged | app/src/main/java/com/androidexperiments/landmarker/MainActivity.java:425-436 | every fix is a try; it is accepted exactly by `Accepts` (at most an hour old, or the fifth try), and an accepted fix becomes the last location and removes the listener |
| LandmarkerActivity.MainActivity.OnPlacesResult | app/src/main/java/com/androidexperiments/landmarker/MainActivity.java:478-498 | `null` goes back to the splash screen and changes nothing; a list sets places present, starts polling, sorts the places into the compass buckets, and each label ends in `ShowsList` of its bucket |
| LandmarkerActivity.MainActivity.OnPlaceClicked | app/src/main/java/com/androidexperiments/landmarker/MainActivity.java:279-288 | `null` is ignored; otherwise the place becomes current and the maps button is shown |
| LandmarkerActivity.MainActivity.OnMapsButtonClick | app/src/main/java/com/androidexperiments/landmarker/MainActivity.java:206-226 | no query exactly when there is no current place; otherwise the query is the current place's name |
| SwingPhone.MapHitsEnds | app/src/main/java/com/androidexperiments/landmarker/widget/SwingPhoneView.java:163-165 | `map` sends the input range's ends to the output range's ends |
| SwingPhone.MapStaysBetween | app/src/main/java/com/androidexperiments/landmarker/widget/SwingPhoneView.java:163-165 | `map` keeps values between the input ends between the output ends |
| SwingPhone.Map | app/src/main/java/com/androidexperiments/landmarker/widget/SwingPhoneView.java:163-165 | definition: Processing's `map`, the linear map of [start1, stop1] onto [start2, stop2] |
| SwingPhone.SwingRotation | app/src/main/java/com/androidexperiments/landmarker/widget/SwingPhoneView.java:101-133 | definition: the tilt for a position and the previous one, four linear pieces each way |
| SwingPhone.PiecesMeetAtJoins | app/src/main/java/com/androidexperiments/landmarker/widget/SwingPhoneView.java:101-133 | the tilt's pieces agree at the joins: 0 or -180 at +-0.55, 30 or -210 at the centre, whichever piece the point belongs to |
| SwingPhone.TurnsWithoutJump | app/src/main/java/com/androidexperiments/landmarker/widget/SwingPhoneView.java:101-133 | at the turning points x = +-1 both directions give -90, so the image does not jump when it turns |
| SwingPhone.SwingRotationRange | app/src/main/java/com/androidexperiments/landmarker/widget/SwingPhoneView.java:101-133 | on [-1, 1] the tilt stays in [-90, 30] moving right and in [-210, -90] moving left |
| SwingPhone.SwingLoopListener.constructor | app/src/main/java/com/androidexperiments/landmarker/widget/SwingPhoneView.java:87 | the previous position starts at 0 |
| SwingPhone.SwingLoopListener.OnAnimationUpdate | app/src/main/java/com/androidexperiments/landmarker/widget/SwingPhoneView.java:101-136 | the tilt is `SwingRotation` of the position after the previous frame's, and the position is remembered |

## Left out

- Floating point is modelled by `real`. `float` rounding, NaN and infinities are not
  modelled, except where the code's branch on them is written out:
  - the gimbal-lock test counts a NaN square root as lock;
  - `SpringsUp` handles a zero total.
- `Math.sqrt`, `asin`, `atan2`, `sin`, `cos`, `toDegrees` and `PI` are parameters
  (`MathLibrary`); their values are not computed.
- `android.opengl.Matrix` (rotation set-up, `multiplyMM`, `translateM`) is not part
  of this model. The composed head view is a parameter function (`composeEntry`) of
  the prediction, the display rotation and the neck factor.
- HeadTracking.OrientationEkf and HeadTracking.GyroscopeBiasEstimator: the filter's
  and the estimator's numerics are not part of this model. They record the inputs
  they receive; after each input their readiness, prediction (any 16 entries) and
  bias are left free, as only the filter and the estimator decide them.
- `synchronized` blocks, `volatile`, the sensor `HandlerThread` and its `Looper`, and
  the handlers that post runnables are left out. Each callback is modelled as one
  atomic method, and no interleaving is modelled.
- The drawing and polling runnables are modelled one run at a time: `DrawFrame` and
  `PollTick`. The `runOnUiThread` post splits `PollTick` from
  `UpdateDirectionalTextView`.
- `onPause` followed by `onResume` within one 100 ms period can leave two polling
  runnables alive in the app. The model tracks only the `isTracking` flag.
- I/O and platform services are outside the model; their results are inputs:
  - SharedPreferences, EventBus, Intents, Toasts and `Log`;
  - the Places lookup and `AsyncTask`;
  - the Google API client and the location settings resolution (`checkSettings`,
    `onActivityResult`);
  - the system clock (`nowNs` parameters);
  - `Math.random` (a `random` parameter);
  - the display rotation (a code parameter);
  - the window size and view widths;
  - `Location.bearingTo` and `distanceTo`, taken as each sighting's bearing and
    distance.
- `String.format("%.1f")` and URL encoding are not modelled. The distance text is the
  unit and value shown, and the maps query is the place's name.
- `onAccuracyChanged` (the looper fans it out; the tracker ignores it) is left out.
  So are `setDir`, `getDir`, `setText`, `setTranslationY`, `updateFakePlaces`,
  `animateIn`, the view constructors and the other screens (splash, tutorial,
  intro, info).
- The animators of `springUp` and `returnToPosition` are recorded as motions
  (`SpringUpMotion`, `ReturnMotion`). Their timing, interpolators and the listener
  that calls `setRandomPlace` during the spring are not modelled; `SetRandomPlace` is
  modelled on its own.
- The figure-of-eight curve and the repeat count and end listener of the swing
  animator are not modelled. Only the tilt chosen from each position is.
- `HeadTracking.HeadTracker.constructor` merges `createFromContext` with the
  constructor. The looper, clock and display become the looper's configuration
  (manufacturer, uncalibrated gyroscope present) and method parameters.
- DirectionalText.DirectionalTextView.SetRandomPlace requires a list to have been set.
  In Java a call before `setPlaces` dereferences `null` and throws.
- SwingPhone.Map requires `start1 != stop1`. In Java equal ends give an infinity or
  NaN; no call in the source passes them.
- `int` overflow is not modelled in `TOTAL_Y_MOVEMENT = MAX_Y_MOVEMENT - MIN_Y_MOVEMENT`,
  in `numTries++` or in `offset + 16`. Window heights and offsets are far from the
  bounds. The nanosecond-to-`int` seconds cast in `getLocationAgeHours` is modelled,
  saturation included.
- In `getLastHeadView` the copy loop runs to `headView.length`, while the temporary
  holds 16 floats. Any buffer longer than 16 ends in an
  ArrayIndexOutOfBoundsException after the size check has passed. The model keeps
  this behaviour as the `CopyOverrun` outcome, and the temporary keeps the 16 floats
  copied before the exception.
