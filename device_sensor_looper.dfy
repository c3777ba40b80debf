/** The sensor capture loop (`DeviceSensorLooper`): it subscribes to the accelerometer,
    a gyroscope and the magnetometer while running, and passes every sample on to the
    listeners registered with it, in list order. The capture thread and its looper are
    reduced to flags: everything here happens sequentially. */
module SensorLooper {
  import opened SensorEvents

  /** The manufacturer whose uncalibrated gyroscope is never used. */
  const HTC: string := "HTC"

  /** One call of `listener.onSensorChanged(event)` made by the fan-out loop. */
  datatype Delivery = Delivery(listener: ListenerId, event: SensorEvent)

  /** Number of occurrences of `x` in `s`. */
  function Count(s: seq<ListenerId>, x: ListenerId): (n: nat)
    ensures n <= |s|
    ensures n == 0 <==> x !in s
  {
    if s == [] then 0 else (if s[0] == x then 1 else 0) + Count(s[1..], x)
  }

  /** `ArrayList.remove(Object)`: the list without the first occurrence of `x`. */
  function RemoveFirst(s: seq<ListenerId>, x: ListenerId): seq<ListenerId>
  {
    if s == [] then []
    else if s[0] == x then s[1..]
    else [s[0]] + RemoveFirst(s[1..], x)
  }

  lemma {:induction false} CountAppend(s: seq<ListenerId>, x: ListenerId, y: ListenerId)
    ensures Count(s + [x], y) == Count(s, y) + (if x == y then 1 else 0)
  {
    if s != [] {
      assert (s + [x])[1..] == s[1..] + [x];
      CountAppend(s[1..], x, y);
    }
  }

  /** Removing a listener that is absent leaves the list unchanged. */
  lemma {:induction false} RemoveFirstAbsent(s: seq<ListenerId>, x: ListenerId)
    requires x !in s
    ensures RemoveFirst(s, x) == s
  {
    if s != [] {
      RemoveFirstAbsent(s[1..], x);
    }
  }

  /** Removing a listener whose first occurrence is at `i` drops exactly that entry;
      the others keep their order. */
  lemma {:induction false} RemoveFirstAt(s: seq<ListenerId>, x: ListenerId, i: nat)
    requires i < |s| && s[i] == x && x !in s[..i]
    ensures RemoveFirst(s, x) == s[..i] + s[i + 1..]
  {
    if i > 0 {
      assert s[0] == s[..i][0];
      assert x !in s[1..][..i - 1] by {
        assert s[1..][..i - 1] == s[..i][1..];
      }
      RemoveFirstAt(s[1..], x, i - 1);
      assert s[..i] == [s[0]] + s[1..][..i - 1];
      assert s[i + 1..] == s[1..][i..];
    }
  }

  /** Removing the first occurrence of `x` lowers the count of `x` by one and leaves
      every other listener's count as it was. */
  lemma {:induction false} CountRemoveFirst(s: seq<ListenerId>, x: ListenerId, y: ListenerId)
    ensures Count(RemoveFirst(s, x), y) ==
            Count(s, y) - (if y == x && x in s then 1 else 0)
  {
    if s != [] {
      CountRemoveFirst(s[1..], x, y);
      if s[0] != x {
        assert ([s[0]] + RemoveFirst(s[1..], x))[1..] == RemoveFirst(s[1..], x);
      }
    }
  }

  /** The gyroscope the capture loop subscribes to: never the uncalibrated one on an
      HTC device, otherwise the uncalibrated one when the device has it. */
  function ChooseGyroscope(manufacturer: string, hasUncalibratedGyroscope: bool): (t: SensorType)
    ensures IsGyroscope(t)
    ensures t == GyroscopeUncalibrated <==> manufacturer != HTC && hasUncalibratedGyroscope
  {
    if manufacturer == HTC then Gyroscope
    else if hasUncalibratedGyroscope then GyroscopeUncalibrated
    else Gyroscope
  }

  /** The three subscriptions `start` makes on the capture thread, in order. */
  function Subscriptions(manufacturer: string, hasUncalibratedGyroscope: bool): seq<SensorType>
  {
    [Accelerometer, ChooseGyroscope(manufacturer, hasUncalibratedGyroscope), MagneticField]
  }

  /** `ArrayList.indexOf`: the first index of `x`, or -1. */
  method FirstIndexOf(s: seq<ListenerId>, x: ListenerId) returns (i: int)
    ensures -1 <= i < |s|
    ensures i == -1 <==> x !in s
    ensures i >= 0 ==> s[i] == x && x !in s[..i]
  {
    i := 0;
    while i < |s|
      invariant 0 <= i <= |s|
      invariant x !in s[..i]
    {
      if s[i] == x {
        return;
      }
      assert s[..i + 1] == s[..i] + [s[i]];
      i := i + 1;
    }
    assert s[..i] == s;
    i := -1;
  }

  class DeviceSensorLooper {
    /** `Build.MANUFACTURER`. */
    const manufacturer: string
    /** Whether the sensor manager has a default uncalibrated gyroscope. */
    const hasUncalibratedGyroscope: bool

    var isRunning: bool
    /** `sensorEventListener != null`. */
    var hasSensorEventListener: bool
    /** `sensorLooper != null`. */
    var hasSensorLooper: bool
    /** The sensors the internal listener is currently subscribed to. */
    var subscriptions: seq<SensorType>
    var registeredListeners: seq<ListenerId>

    ghost predicate Valid()
      reads this
    {
      && hasSensorEventListener == isRunning
      && hasSensorLooper == isRunning
      && subscriptions == (if isRunning then Subscriptions(manufacturer, hasUncalibratedGyroscope) else [])
    }

    constructor (manufacturer: string, hasUncalibratedGyroscope: bool)
      ensures Valid()
      ensures this.manufacturer == manufacturer
      ensures this.hasUncalibratedGyroscope == hasUncalibratedGyroscope
      ensures !isRunning && registeredListeners == []
    {
      this.manufacturer := manufacturer;
      this.hasUncalibratedGyroscope := hasUncalibratedGyroscope;
      isRunning := false;
      hasSensorEventListener := false;
      hasSensorLooper := false;
      subscriptions := [];
      registeredListeners := [];
    }

    /** A no-op when already running; otherwise creates the internal listener, subscribes
        it to the accelerometer, the chosen gyroscope and the magnetometer, and runs. */
    method Start()
      requires Valid()
      modifies this
      ensures Valid() && isRunning
      ensures old(isRunning) ==> unchanged(this)
      ensures subscriptions == Subscriptions(manufacturer, hasUncalibratedGyroscope)
      ensures registeredListeners == old(registeredListeners)
    {
      if isRunning {
        return;
      }
      hasSensorEventListener := true;
      subscriptions := [Accelerometer];
      subscriptions := subscriptions + [ChooseGyroscope(manufacturer, hasUncalibratedGyroscope)];
      subscriptions := subscriptions + [MagneticField];
      hasSensorLooper := true;
      isRunning := true;
    }

    /** A no-op when not running; otherwise unsubscribes the internal listener, drops it
        and the looper, and stops. */
    method Stop()
      requires Valid()
      modifies this
      ensures Valid() && !isRunning
      ensures !old(isRunning) ==> unchanged(this)
      ensures subscriptions == []
      ensures registeredListeners == old(registeredListeners)
    {
      if !isRunning {
        return;
      }
      subscriptions := [];
      hasSensorEventListener := false;
      hasSensorLooper := false;
      isRunning := false;
    }

    /** Appends `listener`, duplicates allowed. */
    method RegisterListener(listener: ListenerId)
      modifies this
      ensures registeredListeners == old(registeredListeners) + [listener]
      ensures isRunning == old(isRunning) && hasSensorEventListener == old(hasSensorEventListener)
      ensures hasSensorLooper == old(hasSensorLooper) && subscriptions == old(subscriptions)
    {
      registeredListeners := registeredListeners + [listener];
    }

    /** Removes the first occurrence of `listener`, if any. */
    method UnregisterListener(listener: ListenerId)
      modifies this
      ensures registeredListeners == RemoveFirst(old(registeredListeners), listener)
      ensures isRunning == old(isRunning) && hasSensorEventListener == old(hasSensorEventListener)
      ensures hasSensorLooper == old(hasSensorLooper) && subscriptions == old(subscriptions)
    {
      var i := FirstIndexOf(registeredListeners, listener);
      if i >= 0 {
        RemoveFirstAt(registeredListeners, listener, i);
        registeredListeners := registeredListeners[..i] + registeredListeners[i + 1..];
      } else {
        RemoveFirstAbsent(registeredListeners, listener);
      }
    }

    /** The internal listener's `onSensorChanged`: one delivery per list entry, in list
        order, so a listener registered twice receives the event twice. */
    method DeliverEvent(event: SensorEvent) returns (deliveries: seq<Delivery>)
      ensures |deliveries| == |registeredListeners|
      ensures forall i :: 0 <= i < |deliveries| ==>
                deliveries[i] == Delivery(registeredListeners[i], event)
    {
      deliveries := [];
      for i := 0 to |registeredListeners|
        invariant |deliveries| == i
        invariant forall k :: 0 <= k < i ==> deliveries[k] == Delivery(registeredListeners[k], event)
      {
        deliveries := deliveries + [Delivery(registeredListeners[i], event)];
      }
    }
  }
}
