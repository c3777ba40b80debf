/** One compass label (`DirectionalTextView`): the place shown for a direction, its
    distance in kilometres or miles, and the horizontal position that eases toward the
    target set from the heading. Android views are reduced to the values last handed
    to their setters; text formatting, preferences and the event bus are outside the
    model (the unit-change event is returned to the caller instead of posted). */
module DirectionalText {
  import opened JavaSemantics

  /** A `NearbyPlace`: distance in metres and name. */
  datatype NearbyPlace = NearbyPlace(distance: real, name: string)

  /** The distance the label's distance text shows, in the unit chosen. */
  datatype DistanceReading = InKilometres(km: real) | InMiles(miles: real)

  /** The animations the label was asked to run (their frames are not modelled). */
  datatype Motion = SpringUpMotion | ReturnMotion

  /** Largest move that is eased; a larger one is applied at once. */
  const MAX_JUMP: real := 1920.0
  /** Fraction of the remaining gap covered by each drawn frame. */
  const EASING: real := 0.12
  const MILES_PER_METRE: real := 0.000621371192
  /** Vertical travel of a label dragged all the way, in pixels. */
  const TOTAL_Y_MOVEMENT: int := -480

  function Kilometres(metres: real): (km: real)
    ensures km * 1000.0 == metres
  {
    metres / 1000.0
  }

  /** `getMiles`. */
  function Miles(metres: real): (miles: real)
    ensures metres >= 0.0 ==> 0.0 <= miles <= metres
  {
    metres * MILES_PER_METRE
  }

  /** The two stored readings describe the same distance: a statute mile is 1609.344
      metres, and the factor is that mile's inverse to within one part in a billion. */
  lemma MilesAgreeWithStatuteMile(metres: real)
    requires metres >= 0.0
    ensures metres - metres / 1_000_000_000.0 <= Miles(metres) * 1609.344 <= metres
    ensures Miles(metres) == Kilometres(metres) * (MILES_PER_METRE * 1000.0)
  {
  }

  /** The label's distance text: kilometres when metric, miles otherwise. */
  function Reading(isMetric: bool, km: real, miles: real): (r: DistanceReading)
    ensures r.InKilometres? <==> isMetric
    ensures r.InKilometres? ==> r.km == km
    ensures r.InMiles? ==> r.miles == miles
  {
    if isMetric then InKilometres(km) else InMiles(miles)
  }

  /** How far the main text moves down for a drag `percent` of the way: a quarter sine
      wave scaled to half of the label's vertical travel (240 pixels). */
  function Lift(percent: real, math: MathLibrary): real
  {
    math.sin(percent * (math.pi / 2.0)) * (-TruncDiv(TOTAL_Y_MOVEMENT, 2)) as real
  }

  /** With a true sine, an undragged label's text does not move, a full drag moves it
      down by half the vertical travel, and no drag moves it further either way. */
  lemma LiftRange(percent: real, math: MathLibrary)
    requires SineFacts(math)
    ensures Lift(0.0, math) == 0.0
    ensures Lift(1.0, math) == 240.0
    ensures -240.0 <= Lift(percent, math) <= 240.0
  {
  }

  /** `offset * width`, spelled as repeated addition so that the solver unfolds it only
      on demand; `ScaledIsProduct` shows it is the product. */
  function Scaled(offset: real, width: int): real
    decreases if width < 0 then -width else width
  {
    if width == 0 then 0.0
    else if width > 0 then Scaled(offset, width - 1) + offset
    else Scaled(offset, width + 1) - offset
  }

  lemma {:induction false} ScaledIsProduct(offset: real, width: int)
    ensures Scaled(offset, width) == offset * width as real
    decreases if width < 0 then -width else width
  {
    if width > 0 {
      ScaledIsProduct(offset, width - 1);
      assert offset * (width - 1) as real + offset == offset * width as real;
    } else if width < 0 {
      ScaledIsProduct(offset, width + 1);
      assert offset * (width + 1) as real - offset == offset * width as real;
    }
  }

  /** `v` after `setTranslation(target)`: its target and its last target are `target`,
      and its position jumps there, view included, only when the move from the last
      target exceeds MAX_JUMP; otherwise position and view are left for the frames to
      ease. Callers pass `Scaled(offset, width)`, which `ScaledIsProduct` shows is the
      plain product `offset * width` of the source. */
  twostate predicate Slid(v: DirectionalTextView, target: real)
    reads v
  {
    && v.gotoX == target && v.lastX == target
    && var jumps := AbsReal(target - old(v.lastX)) > MAX_JUMP;
    && v.translationX == (if jumps then target else old(v.translationX))
    && v.viewTranslationX == (if jumps then target else old(v.viewTranslationX))
  }

  /** `v` after `setPlaces(list)`: it holds `list` and shows the list's first place,
      name and distance; an empty list blanks and dims the text and keeps the place and
      the distance shown before. */
  twostate predicate ShowsList(v: DirectionalTextView, list: seq<NearbyPlace>)
    reads v
  {
    && v.places == Some(list)
    && (|list| > 0 ==>
      && v.currentPlace == Some(list[0])
      && v.mainText == list[0].name && v.mainTextDimmed == old(v.mainTextDimmed)
      && v.distanceInKilometers == Kilometres(list[0].distance)
      && v.distanceInMiles == Miles(list[0].distance)
      && v.distanceText == Reading(v.isMetric, v.distanceInKilometers, v.distanceInMiles))
    && (|list| == 0 ==>
      && v.currentPlace == old(v.currentPlace)
      && v.mainText == "" && v.mainTextDimmed
      && v.distanceInKilometers == old(v.distanceInKilometers)
      && v.distanceInMiles == old(v.distanceInMiles)
      && v.distanceText == old(v.distanceText))
  }

  /** One drawn frame of easing toward `target`. */
  function EaseStep(position: real, target: real): (next: real)
    ensures target - next == (1.0 - EASING) * (target - position)
    ensures position <= target ==> position <= next <= target
    ensures target <= position ==> target <= next <= position
  {
    position + (target - position) * EASING
  }

  function Pow(b: real, n: nat): (p: real)
    ensures 0.0 <= b ==> 0.0 <= p
  {
    if n == 0 then 1.0 else b * Pow(b, n - 1)
  }

  /** The position after `n` drawn frames with a fixed target. */
  function EaseSteps(position: real, target: real, n: nat): real
  {
    if n == 0 then position else EaseStep(EaseSteps(position, target, n - 1), target)
  }

  /** After `n` frames the gap to the target is 0.88^n times the original, so the
      label approaches the target geometrically and never passes it. */
  lemma {:induction false} EaseStepsGap(position: real, target: real, n: nat)
    ensures target - EaseSteps(position, target, n) == Pow(1.0 - EASING, n) * (target - position)
  {
    if n > 0 {
      EaseStepsGap(position, target, n - 1);
      var before := EaseSteps(position, target, n - 1);
      var c, p, g := 1.0 - EASING, Pow(1.0 - EASING, n - 1), target - position;
      assert target - EaseSteps(position, target, n) == c * (target - before);
      MulAssociates(c, p, g);
    }
  }

  lemma MulAssociates(a: real, b: real, c: real)
    ensures a * (b * c) == (a * b) * c
  {
  }

  /** The index `(int) Math.floor(random * size)` lies in the list for every `random`
      in [0, 1), as `Math.random` returns. */
  function RandomIndex(random: real, size: nat): (i: int)
    requires 0.0 <= random < 1.0 && size > 0
    ensures 0 <= i < size
  {
    var x := random * size as real;
    assert x < size as real by {
      ScaleHalfOpen(size as real, 0.0, random, 1.0);
    }
    x.Floor
  }

  class DirectionalTextView {
    var translationX: real
    var gotoX: real
    var lastX: real
    /** `mPlaces`, `None` until the first `setPlaces`. */
    var places: Option<seq<NearbyPlace>>
    /** `mCurrentPlace`, `None` while it is `null`. */
    var currentPlace: Option<NearbyPlace>
    var distanceInKilometers: real
    var distanceInMiles: real
    var isMetric: bool
    /** What the main text, the distance text and the view were last given. */
    var mainText: string
    var mainTextDimmed: bool
    var distanceText: DistanceReading
    var viewTranslationX: real
    var mainTextTranslationY: real
    var distanceAlpha: real
    var distanceScaleX: real
    var distanceScaleY: real
    /** The view's layout position (`getLeft`) and width, which layout passes set. */
    var left: int
    var width: int
    ghost var motions: seq<Motion>

    constructor ()
      ensures translationX == 0.0 && gotoX == 0.0 && lastX == 0.0
      ensures places == None && currentPlace == None && isMetric
      ensures motions == []
    {
      translationX, gotoX, lastX := 0.0, 0.0, 0.0;
      places, currentPlace := None, None;
      distanceInKilometers, distanceInMiles := 0.0, 0.0;
      isMetric := true;
      mainText, mainTextDimmed := "", false;
      distanceText := InKilometres(0.0);
      viewTranslationX, mainTextTranslationY := 0.0, 0.0;
      distanceAlpha, distanceScaleX, distanceScaleY := 1.0, 1.0, 1.0;
      left, width := 0, 0;
      motions := [];
    }

    /** `onFinishInflate`: restores the saved unit choice (`true` when none is saved). */
    method OnFinishInflate(savedIsMetric: bool)
      modifies this`isMetric, this`distanceText
      ensures isMetric == savedIsMetric
      ensures distanceText == Reading(isMetric, distanceInKilometers, distanceInMiles)
    {
      isMetric := savedIsMetric;
      SetDistanceText();
    }

    method SetDistanceText()
      modifies this`distanceText
      ensures distanceText == Reading(isMetric, distanceInKilometers, distanceInMiles)
    {
      if isMetric {
        distanceText := InKilometres(distanceInKilometers);
      } else {
        distanceText := InMiles(distanceInMiles);
      }
    }

    method SetDistance(metres: real)
      modifies this`distanceInKilometers, this`distanceInMiles, this`distanceText
      ensures distanceInKilometers == Kilometres(metres) && distanceInMiles == Miles(metres)
      ensures distanceText == Reading(isMetric, distanceInKilometers, distanceInMiles)
    {
      distanceInKilometers := metres / 1000.0;
      distanceInMiles := Miles(metres);
      SetDistanceText();
    }

    method SetPlace(place: NearbyPlace)
      modifies this`currentPlace, this`mainText, this`distanceInKilometers, this`distanceInMiles, this`distanceText
      ensures currentPlace == Some(place) && mainText == place.name
      ensures distanceInKilometers == Kilometres(place.distance) && distanceInMiles == Miles(place.distance)
      ensures distanceText == Reading(isMetric, distanceInKilometers, distanceInMiles)
    {
      currentPlace := Some(place);
      mainText := place.name;
      SetDistance(place.distance);
    }

    /** Clears the text and dims it; the current place is left as it was. */
    method SetEmptyPlace()
      modifies this`mainText, this`mainTextDimmed
      ensures mainText == "" && mainTextDimmed
    {
      mainText := "";
      mainTextDimmed := true;
    }

    /** Shows the list's first place, or the empty state for an empty list. */
    method SetPlaces(newPlaces: seq<NearbyPlace>)
      modifies this`places, this`currentPlace, this`mainText, this`mainTextDimmed,
               this`distanceInKilometers, this`distanceInMiles, this`distanceText
      ensures ShowsList(this, newPlaces)
    {
      places := Some(newPlaces);
      if |newPlaces| > 0 {
        SetPlace(newPlaces[0]);
      } else {
        SetEmptyPlace();
      }
    }

    method GetCurrentPlace() returns (place: Option<NearbyPlace>)
      ensures place == currentPlace
    {
      place := currentPlace;
    }

    /** Shows the place at `(int) floor(random * size)`, `random` being the draw of
        `Math.random`; an empty list leaves everything as it was. */
    method SetRandomPlace(random: real)
      requires places.Some? && 0.0 <= random < 1.0
      modifies this`currentPlace, this`mainText, this`distanceInKilometers, this`distanceInMiles, this`distanceText
      ensures |places.value| == 0 ==> unchanged(this)
      ensures |places.value| > 0 ==>
        && currentPlace == Some(places.value[RandomIndex(random, |places.value|)])
        && currentPlace.value in places.value
        && mainText == currentPlace.value.name
        && distanceInKilometers == Kilometres(currentPlace.value.distance)
        && distanceInMiles == Miles(currentPlace.value.distance)
        && distanceText == Reading(isMetric, distanceInKilometers, distanceInMiles)
    {
      var size := |places.value|;
      if size > 0 {
        SetPlace(places.value[RandomIndex(random, size)]);
      }
    }

    /** Flips the unit choice and returns the value of the unit-change event it posts
        (the flip is saved to preferences). Two clicks restore the original choice. */
    method OnDistanceClicked() returns (postedIsMetric: bool)
      modifies this`isMetric
      ensures isMetric == !old(isMetric) && postedIsMetric == isMetric
    {
      isMetric := !isMetric;
      postedIsMetric := isMetric;
    }

    /** A unit-change event from any label: adopt its choice and redraw the distance. */
    method OnEvent(eventIsMetric: bool)
      modifies this`isMetric, this`distanceText
      ensures isMetric == eventIsMetric
      ensures distanceText == Reading(isMetric, distanceInKilometers, distanceInMiles)
    {
      isMetric := eventIsMetric;
      SetDistanceText();
    }

    /** Sets the target from an offset in view widths: `offset * viewWidth`, stated
        as `Scaled(offset, viewWidth)` to keep the callers' proofs linear. A target
        more than `MAX_JUMP` away from the previous one is applied at once; otherwise
        the position is left for `DrawView` to ease. */
    method SetTranslation(offset: real, viewWidth: int)
      modifies this`gotoX, this`lastX, this`translationX, this`viewTranslationX
      ensures Slid(this, Scaled(offset, viewWidth))
    {
      gotoX := offset * viewWidth as real;
      ScaledIsProduct(offset, viewWidth);
      if AbsReal(gotoX - lastX) > MAX_JUMP {
        translationX := gotoX;
        viewTranslationX := translationX;
      }
      lastX := gotoX;
    }

    /** One frame: the position moves 12% of the way to the target, and the view is
        placed at the position truncated to whole pixels. */
    method DrawView()
      modifies this`translationX, this`viewTranslationX
      ensures translationX == EaseStep(old(translationX), gotoX)
      ensures viewTranslationX == FloatToInt(translationX) as real
    {
      translationX := translationX + (gotoX - translationX) * EASING;
      viewTranslationX := FloatToInt(translationX) as real;
    }

    /** Follows a drag: the main text moves down along a quarter sine, and the distance
        text fades and shrinks to `1 - percent`. */
    method UpdatePosition(percent: real, math: MathLibrary)
      modifies this`mainTextTranslationY, this`distanceAlpha, this`distanceScaleX, this`distanceScaleY
      ensures mainTextTranslationY == Lift(percent, math)
      ensures distanceAlpha == 1.0 - percent && distanceScaleX == 1.0 - percent
      ensures distanceScaleY == 1.0 - percent
    {
      mainTextTranslationY := Lift(percent, math);
      var reverse := 1.0 - percent;
      distanceAlpha := reverse;
      distanceScaleX := reverse;
      distanceScaleY := reverse;
    }

    /** Starts the overshooting return of the main text and the distance text. */
    method SpringUp()
      modifies this`motions
      ensures motions == old(motions) + [SpringUpMotion]
    {
      motions := motions + [SpringUpMotion];
    }

    /** Starts the plain return of the main text and the distance text. */
    method ReturnToPosition()
      modifies this`motions
      ensures motions == old(motions) + [ReturnMotion]
    {
      motions := motions + [ReturnMotion];
    }
  }
}
