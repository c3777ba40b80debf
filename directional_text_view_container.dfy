/** The compass (`DirectionalTextViewContainer`): four labels for north, east, south
    and west. It sorts nearby places into the four directions by bearing, slides the
    labels horizontally from the device heading, eases them every frame, decides which
    label a tap hits, and turns vertical drags into the labels' drag animation. Bearings
    and distances from the last location are inputs; the gesture detector's tap timing,
    the event bus and the frame scheduler are outside the model. */
module DirectionalContainer {
  import opened JavaSemantics
  import opened DirectionalText

  datatype Direction = North | East | South | West

  /** A place returned by the Places API, with its bearing (degrees, -180 to 180) and
      distance (metres) from the last location. */
  datatype PlaceSighting = PlaceSighting(name: string, bearing: real, distance: real)

  /** `MotionEvent.getActionMasked()` values the touch listener distinguishes. */
  datatype TouchAction = ActionDown | ActionMove | ActionUp | ActionCancel | ActionOther

  /** The four labels' horizontal offsets, in view widths. */
  datatype Offsets = Offsets(north: real, west: real, east: real, south: real)

  /** Smallest downward drag, in pixels, that moves a label. A drag is measured as the
      start height minus the finger's height, and screen heights grow downward, so a
      drag down is negative. */
  const MIN_Y_MOVEMENT: int := -20
  const DEFAULT_MAX_Y_MOVEMENT: int := -1000
  const DEFAULT_TOTAL_Y_MOVEMENT: int := -980

  /** The direction a bearing is listed under; exact diagonals and due south go south. */
  function BucketOf(bearing: real): (d: Direction)
    ensures d == North <==> -45.0 < bearing < 45.0
    ensures d == East <==> 45.0 < bearing < 135.0
    ensures d == West <==> -135.0 < bearing < -45.0
    ensures d == South <==> bearing <= -135.0 || bearing == -45.0 || bearing == 45.0 || bearing >= 135.0
  {
    if -45.0 < bearing < 45.0 then North
    else if 45.0 < bearing < 135.0 then East
    else if bearing < -45.0 && bearing > -135.0 then West
    else South
  }

  function ToNearby(p: PlaceSighting): NearbyPlace
  {
    NearbyPlace(p.distance, p.name)
  }

  /** The places listed under `d`, in input order. */
  function Bucket(ps: seq<PlaceSighting>, d: Direction): (b: seq<NearbyPlace>)
    ensures |b| <= |ps|
  {
    if ps == [] then []
    else
      var last := ps[|ps| - 1];
      Bucket(ps[..|ps| - 1], d) + (if BucketOf(last.bearing) == d then [ToNearby(last)] else [])
  }

  /** Bucketing distributes over concatenation: what comes earlier in the input comes
      earlier in its bucket. */
  lemma {:induction false} BucketAppend(ps: seq<PlaceSighting>, qs: seq<PlaceSighting>, d: Direction)
    ensures Bucket(ps + qs, d) == Bucket(ps, d) + Bucket(qs, d)
  {
    if qs == [] {
      assert ps + qs == ps;
    } else {
      var init, last := qs[..|qs| - 1], qs[|qs| - 1];
      var tail := if BucketOf(last.bearing) == d then [ToNearby(last)] else [];
      BucketAppend(ps, init, d);
      assert (ps + qs)[..|ps + qs| - 1] == ps + init;
      assert (ps + qs)[|ps + qs| - 1] == last;
      calc {
        Bucket(ps + qs, d);
        Bucket(ps + init, d) + tail;
        (Bucket(ps, d) + Bucket(init, d)) + tail;
        Bucket(ps, d) + (Bucket(init, d) + tail);
      }
    }
  }

  /** Every place lands in exactly one bucket: the four sizes add up to the input's. */
  lemma {:induction false} BucketSizes(ps: seq<PlaceSighting>)
    ensures |Bucket(ps, North)| + |Bucket(ps, East)| + |Bucket(ps, South)| + |Bucket(ps, West)| == |ps|
  {
    if ps != [] {
      BucketSizes(ps[..|ps| - 1]);
    }
  }

  /** Extending a prefix by one place extends only that place's bucket, by that place. */
  lemma BucketStep(ps: seq<PlaceSighting>, i: nat, d: Direction)
    requires i < |ps|
    ensures Bucket(ps[..i + 1], d) ==
      Bucket(ps[..i], d) + (if BucketOf(ps[i].bearing) == d then [ToNearby(ps[i])] else [])
  {
    assert ps[..i + 1][..i] == ps[..i];
    assert ps[..i + 1][i] == ps[i];
  }

  /** Each place is listed under the direction of its bearing. */
  lemma PlaceInItsBucket(ps: seq<PlaceSighting>, i: nat)
    requires i < |ps|
    ensures ToNearby(ps[i]) in Bucket(ps, BucketOf(ps[i].bearing))
  {
    var d := BucketOf(ps[i].bearing);
    assert ps == ps[..i + 1] + ps[i + 1..];
    BucketAppend(ps[..i + 1], ps[i + 1..], d);
    BucketStep(ps, i, d);
    var front := Bucket(ps[..i + 1], d);
    assert front[|front| - 1] == ToNearby(ps[i]);
    assert Bucket(ps, d) == front + Bucket(ps[i + 1..], d);
    assert Bucket(ps, d)[|front| - 1] == ToNearby(ps[i]);
  }

  /** `(degrees + 180) % 360 - 90`, plus 360 when negative, with Java's `%`. */
  function Normalise(degrees: real): (n: real)
    ensures degrees >= -180.0 ==> 0.0 <= n < 360.0
  {
    var r := FloatRem(degrees + 180.0, 360.0) - 90.0;
    if r < 0.0 then 360.0 + r else r
  }

  /** On the documented range the normalised heading is a quarter turn ahead, wrapped
      into [0, 360). */
  lemma NormaliseOnDocumentedRange(degrees: real)
    requires -180.0 <= degrees <= 180.0
    ensures Normalise(degrees) ==
      if degrees == 180.0 then 270.0
      else if degrees >= -90.0 then degrees + 90.0
      else degrees + 450.0
  {
    FloatRemOfSmall(degrees + 180.0, 360.0);
  }

  /** The labels' offsets for a normalised heading: 180 centres north, 90 east, 270
      west, and 0 or 360 south. */
  function ViewOffsets(degrees: real): Offsets
  {
    var DEGREE := 90.0;
    var southOffset := if degrees > 0.0 && degrees < 90.0 then degrees / DEGREE else (degrees - 360.0) / DEGREE;
    Offsets((degrees - 180.0) / DEGREE, (degrees - 270.0) / DEGREE, (degrees - 90.0) / DEGREE, southOffset)
  }

  /** The labels sit one view width apart, west, north, east from left to right; south
      is two widths right of north for headings strictly between 0 and 90 and two
      widths left of it otherwise. */
  lemma OffsetsOneWidthApart(degrees: real)
    ensures var o := ViewOffsets(degrees);
      && o.east == o.north + 1.0 && o.west == o.north - 1.0
      && (0.0 < degrees < 90.0 ==> o.south == o.north + 2.0)
      && (!(0.0 < degrees < 90.0) ==> o.south == o.north - 2.0)
  {
  }

  /** The label facing the user sits at offset 0, and each label's offset stays within
      two widths of the centre on one side; south jumps from the left end to the right
      end as the heading passes 0. */
  lemma OffsetsOnCircle(degrees: real)
    requires 0.0 <= degrees < 360.0
    ensures var o := ViewOffsets(degrees);
      && (o.north == 0.0 <==> degrees == 180.0)
      && (o.east == 0.0 <==> degrees == 90.0)
      && (o.west == 0.0 <==> degrees == 270.0)
      && o.south != 0.0
      && -2.0 <= o.north < 2.0 && -1.0 <= o.east < 3.0 && -3.0 <= o.west < 1.0
      && -4.0 <= o.south < 1.0
      && (degrees == 0.0 ==> o.south == -4.0)
  {
  }

  /** `getTappedView` on the labels' left edges `nx`, `ex`, `sx`, `wx`. East is checked
      first, including every tap right of east once south has moved beyond two widths
      to the left; south takes whatever the others do not. */
  function TappedDirection(tapX: real, nx: real, ex: real, sx: real, wx: real, viewWidth: int): Direction
  {
    if (tapX >= ex && tapX < sx) || (tapX >= ex && sx < (viewWidth * -2) as real) then East
    else if tapX >= nx && tapX < ex then North
    else if tapX >= wx && tapX < nx then West
    else South
  }

  /** With the labels laid out west, north, east, south from left to right (south not
      wrapped), a tap hits the label whose span [left edge, next left edge) contains it,
      and south takes everything outside [wx, sx). */
  lemma TapHitsContainingSpan(tapX: real, nx: real, ex: real, sx: real, wx: real, viewWidth: int)
    requires wx <= nx <= ex <= sx && sx >= (viewWidth * -2) as real
    ensures var d := TappedDirection(tapX, nx, ex, sx, wx, viewWidth);
      && (d == West <==> wx <= tapX < nx)
      && (d == North <==> nx <= tapX < ex)
      && (d == East <==> ex <= tapX < sx)
      && (d == South <==> tapX < wx || tapX >= sx)
  {
  }

  /** Whether a released drag springs the label up: `dif / total > 0.5` in floats, where
      a zero `total` gives an infinity of the sign of `dif`, or NaN when `dif` is 0. */
  predicate SpringsUp(dif: real, total: int)
  {
    if total == 0 then dif > 0.0 else dif / total as real > 0.5
  }

  /** With the usual negative total (a downward range), the released label springs
      back with an overshoot exactly when dragged down further than half of the range. */
  lemma SpringsUpPastHalfway(dif: real, total: int)
    requires total < 0
    ensures SpringsUp(dif, total) <==> dif < total as real / 2.0
  {
    var t := total as real;
    var p := dif / t;
    assert p * t == dif;
    if p > 0.5 {
      ScaleHalfOpen(-t, 0.5, p, p);
    } else {
      ScaleHalfOpen(-t, p, p, 0.5);
    }
  }

  /** A drag inside the moving window has a positive completion fraction. */
  lemma MovePercentPositive(dif: real, maxY: int)
    requires maxY as real < dif < MIN_Y_MOVEMENT as real
    ensures dif / (maxY - MIN_Y_MOVEMENT) as real > 0.0
  {
    var t := (maxY - MIN_Y_MOVEMENT) as real;
    var p := dif / t;
    assert p * t == dif;
    if p <= 0.0 {
      ScaleHalfOpen(-t, p, p, 0.0);
    }
  }

  class DirectionalTextViewContainer {
    const north: DirectionalTextView
    const east: DirectionalTextView
    const south: DirectionalTextView
    const west: DirectionalTextView

    var maxYMovement: int
    var totalYMovement: int
    var northernPlaces: seq<NearbyPlace>
    var easternPlaces: seq<NearbyPlace>
    var southernPlaces: seq<NearbyPlace>
    var westernPlaces: seq<NearbyPlace>
    var isDrawing: bool
    var viewWidth: int
    /** The touch listener's `mStartY` and the label it is dragging (`view`). */
    var touchStartY: real
    var touched: Option<Direction>

    ghost predicate Valid()
      reads this
    {
      && north != east && north != south && north != west
      && east != south && east != west && south != west
      && totalYMovement == maxYMovement - MIN_Y_MOVEMENT
    }

    function ViewOf(d: Direction): (v: DirectionalTextView)
      reads this
    {
      match d
      case North => north
      case East => east
      case South => south
      case West => west
    }

    /** `getX()` of a label: its layout left plus its translation. */
    function LeftEdge(v: DirectionalTextView): real
      reads v
    {
      v.left as real + v.viewTranslationX
    }

    constructor ()
      ensures Valid()
      ensures fresh(north) && fresh(east) && fresh(south) && fresh(west)
      ensures maxYMovement == DEFAULT_MAX_Y_MOVEMENT && totalYMovement == DEFAULT_TOTAL_Y_MOVEMENT
      ensures isDrawing && viewWidth == 0 && touched == None
    {
      north := new DirectionalTextView();
      east := new DirectionalTextView();
      south := new DirectionalTextView();
      west := new DirectionalTextView();
      maxYMovement := DEFAULT_MAX_Y_MOVEMENT;
      totalYMovement := DEFAULT_TOTAL_Y_MOVEMENT;
      northernPlaces, easternPlaces, southernPlaces, westernPlaces := [], [], [], [];
      isDrawing := true;
      viewWidth := 0;
      touchStartY := 0.0;
      touched := None;
    }

    /** The drag range from the window height: at most half the height downward. */
    method SetupMovementConstants(windowHeight: int)
      requires Valid()
      modifies this`maxYMovement, this`totalYMovement
      ensures Valid()
      ensures maxYMovement == TruncDiv(-windowHeight, 2)
      ensures windowHeight >= 0 ==> maxYMovement == -(windowHeight / 2)
    {
      maxYMovement := TruncDiv(-windowHeight, 2);
      totalYMovement := maxYMovement - MIN_Y_MOVEMENT;
    }

    /** The sorting loop of `updatePlaces`: walks the results in order and appends each
        place to the list of the direction its bearing falls in. */
    static method SortIntoDirections(sightings: seq<PlaceSighting>)
      returns (n: seq<NearbyPlace>, e: seq<NearbyPlace>, s: seq<NearbyPlace>, w: seq<NearbyPlace>)
      ensures n == Bucket(sightings, North) && e == Bucket(sightings, East)
      ensures s == Bucket(sightings, South) && w == Bucket(sightings, West)
    {
      n, e, s, w := [], [], [], [];
      for i := 0 to |sightings|
        invariant n == Bucket(sightings[..i], North) && e == Bucket(sightings[..i], East)
        invariant s == Bucket(sightings[..i], South) && w == Bucket(sightings[..i], West)
      {
        BucketStep(sightings, i, North);
        BucketStep(sightings, i, East);
        BucketStep(sightings, i, South);
        BucketStep(sightings, i, West);
        var place := sightings[i];
        var newPlace := NearbyPlace(place.distance, place.name);
        if place.bearing > -45.0 && place.bearing < 45.0 {
          n := n + [newPlace];
        } else if place.bearing > 45.0 && place.bearing < 135.0 {
          e := e + [newPlace];
        } else if place.bearing < -45.0 && place.bearing > -135.0 {
          w := w + [newPlace];
        } else {
          s := s + [newPlace];
        }
      }
      assert sightings[..|sightings|] == sightings;
    }

    /** Rebuilds the four lists from scratch and hands each to its label. */
    method UpdatePlaces(sightings: seq<PlaceSighting>)
      requires Valid()
      modifies this`northernPlaces, this`easternPlaces, this`southernPlaces, this`westernPlaces,
               north`places, north`currentPlace, north`mainText, north`mainTextDimmed,
               north`distanceInKilometers, north`distanceInMiles, north`distanceText,
               east`places, east`currentPlace, east`mainText, east`mainTextDimmed,
               east`distanceInKilometers, east`distanceInMiles, east`distanceText,
               south`places, south`currentPlace, south`mainText, south`mainTextDimmed,
               south`distanceInKilometers, south`distanceInMiles, south`distanceText,
               west`places, west`currentPlace, west`mainText, west`mainTextDimmed,
               west`distanceInKilometers, west`distanceInMiles, west`distanceText
      ensures Valid()
      ensures northernPlaces == Bucket(sightings, North) && easternPlaces == Bucket(sightings, East)
      ensures southernPlaces == Bucket(sightings, South) && westernPlaces == Bucket(sightings, West)
      ensures ShowsList(north, northernPlaces) && ShowsList(east, easternPlaces)
      ensures ShowsList(south, southernPlaces) && ShowsList(west, westernPlaces)
    {
      var n, e, s, w := SortIntoDirections(sightings);
      northernPlaces, easternPlaces, southernPlaces, westernPlaces := n, e, s, w;
      north.SetPlaces(n);
      east.SetPlaces(e);
      west.SetPlaces(w);
      south.SetPlaces(s);
    }

    /** Slides the labels for a heading (degrees, -180 to 180). The label width is read
        from east the first time it is needed. */
    method UpdateView(degrees: real)
      requires Valid()
      modifies this`viewWidth,
               north`gotoX, north`lastX, north`translationX, north`viewTranslationX,
               east`gotoX, east`lastX, east`translationX, east`viewTranslationX,
               south`gotoX, south`lastX, south`translationX, south`viewTranslationX,
               west`gotoX, west`lastX, west`translationX, west`viewTranslationX
      ensures Valid()
      ensures viewWidth == if old(viewWidth) == 0 then old(east.width) else old(viewWidth)
      ensures var o := ViewOffsets(Normalise(degrees));
        && Slid(north, Scaled(o.north, viewWidth)) && Slid(west, Scaled(o.west, viewWidth))
        && Slid(east, Scaled(o.east, viewWidth)) && Slid(south, Scaled(o.south, viewWidth))
    {
      var normalised := Normalise(degrees);
      viewWidth := if viewWidth == 0 then east.width else viewWidth;
      var o := ViewOffsets(normalised);
      north.SetTranslation(o.north, viewWidth);
      west.SetTranslation(o.west, viewWidth);
      east.SetTranslation(o.east, viewWidth);
      south.SetTranslation(o.south, viewWidth);
    }

    method StartDrawing()
      modifies this`isDrawing
      ensures isDrawing
    {
      isDrawing := true;
    }

    method StopDrawing()
      modifies this`isDrawing
      ensures !isDrawing
    {
      isDrawing := false;
    }

    /** One run of the drawing loop: while drawing, every label eases one step and the
        loop reschedules itself 16 ms later; once stopped it does nothing and ends. */
    method DrawFrame() returns (rescheduled: bool)
      requires Valid()
      modifies north`translationX, north`viewTranslationX, east`translationX, east`viewTranslationX,
               south`translationX, south`viewTranslationX, west`translationX, west`viewTranslationX
      ensures rescheduled == isDrawing
      ensures !isDrawing ==> unchanged(north, east, south, west)
      ensures isDrawing ==> forall d ::
        && ViewOf(d).translationX == EaseStep(old(ViewOf(d).translationX), ViewOf(d).gotoX)
        && ViewOf(d).viewTranslationX == FloatToInt(ViewOf(d).translationX) as real
    {
      if !isDrawing {
        return false;
      }
      north.DrawView();
      west.DrawView();
      east.DrawView();
      south.DrawView();
      rescheduled := true;
    }

    method GetTappedView(tapX: real) returns (d: Direction)
      ensures d == TappedDirection(tapX, LeftEdge(north), LeftEdge(east), LeftEdge(south), LeftEdge(west), viewWidth)
    {
      var nx, ex, sx, wx := LeftEdge(north), LeftEdge(east), LeftEdge(south), LeftEdge(west);
      if (tapX >= ex && tapX < sx) || (tapX >= ex && sx < (viewWidth * -2) as real) {
        d := East;
      } else if tapX >= nx && tapX < ex {
        d := North;
      } else if tapX >= wx && tapX < nx {
        d := West;
      } else {
        d := South;
      }
    }

    /** A confirmed single tap: the place of the label hit, posted as a place-click
        event (possibly `null`). */
    method OnSingleTapConfirmed(tapX: real) returns (clicked: Option<NearbyPlace>)
      ensures clicked ==
        ViewOf(TappedDirection(tapX, LeftEdge(north), LeftEdge(east), LeftEdge(south), LeftEdge(west), viewWidth)).currentPlace
    {
      var d := GetTappedView(tapX);
      clicked := ViewOf(d).GetCurrentPlace();
    }

    /** The touch listener. Down picks the label under the finger and remembers where
        the drag started; Move drives the label's drag animation while the downward drag
        is within (MAX, MIN); Up or Cancel springs the label back past halfway or returns
        it otherwise, and forgets it. It always consumes the event. */
    method OnTouch(action: TouchAction, x: real, rawY: real, math: MathLibrary) returns (consumed: bool)
      requires Valid()
      modifies this`touchStartY, this`touched,
               north`mainTextTranslationY, north`distanceAlpha, north`distanceScaleX, north`distanceScaleY, north`motions,
               east`mainTextTranslationY, east`distanceAlpha, east`distanceScaleX, east`distanceScaleY, east`motions,
               south`mainTextTranslationY, south`distanceAlpha, south`distanceScaleX, south`distanceScaleY, south`motions,
               west`mainTextTranslationY, west`distanceAlpha, west`distanceScaleX, west`distanceScaleY, west`motions
      ensures Valid() && consumed
      ensures action == ActionDown ==>
        && touched == Some(TappedDirection(x, LeftEdge(north), LeftEdge(east), LeftEdge(south), LeftEdge(west), viewWidth))
        && touchStartY == rawY
        && unchanged(north, east, south, west)
      ensures action == ActionMove ==>
        var dif := old(touchStartY) - rawY;
        && touched == old(touched) && touchStartY == old(touchStartY)
        && (if touched.Some? && maxYMovement as real < dif < MIN_Y_MOVEMENT as real then
              var v, percent := ViewOf(touched.value), dif / totalYMovement as real;
              && v.mainTextTranslationY == Lift(percent, math)
              && v.distanceAlpha == 1.0 - percent
              && v.distanceScaleX == 1.0 - percent && v.distanceScaleY == 1.0 - percent
              && v.motions == old(v.motions)
              && forall d :: d != touched.value ==> unchanged(ViewOf(d))
            else unchanged(north, east, south, west))
      ensures action == ActionUp || action == ActionCancel ==>
        && touched == None && touchStartY == old(touchStartY)
        && (old(touched).Some? ==>
              var v := ViewOf(old(touched).value);
              && v.motions == old(v.motions)
                   + [if SpringsUp(old(touchStartY) - rawY, totalYMovement) then SpringUpMotion else ReturnMotion]
              && v.mainTextTranslationY == old(v.mainTextTranslationY) && v.distanceAlpha == old(v.distanceAlpha)
              && v.distanceScaleX == old(v.distanceScaleX) && v.distanceScaleY == old(v.distanceScaleY)
              && forall d :: d != old(touched).value ==> unchanged(ViewOf(d)))
        && (old(touched).None? ==> unchanged(north, east, south, west))
      ensures action == ActionOther ==> unchanged(this) && unchanged(north, east, south, west)
    {
      consumed := true;
      match action
      case ActionDown =>
        var d := GetTappedView(x);
        touched := Some(d);
        touchStartY := rawY;
      case ActionMove =>
        var dif := touchStartY - rawY;
        if dif < MIN_Y_MOVEMENT as real && dif > maxYMovement as real {
          var percent := dif / totalYMovement as real;
          if touched.Some? {
            ViewOf(touched.value).UpdatePosition(percent, math);
          }
        }
      case ActionUp | ActionCancel =>
        if touched.Some? {
          var dif := touchStartY - rawY;
          var v := ViewOf(touched.value);
          if SpringsUp(dif, totalYMovement) {
            v.SpringUp();
          } else {
            v.ReturnToPosition();
          }
          touched := None;
        }
      case ActionOther =>
    }
  }
}
