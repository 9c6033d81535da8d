/** The inline check-in card of `src/components/dashboard/DailyCheckIn.tsx`:
    the same four sliders as the check-in dialog with a plainer colour
    rule, and a submit that always inserts a new row. */
module DailyCheckIn {
  import opened Common
  import opened HealthRows
  import opened CheckInModal

  /** `sliderInfo[key]`'s `min`, `max` and `step`. */
  function SliderInfo(s: Slider): (b: Bounds)
    ensures b.step > 0.0 && b.min < b.max
    ensures OnGrid(b, b.min) && OnGrid(b, b.max)
  {
    match s
    case Sleep => Bounds(0.0, 12.0, 0.5)
    case Hunger => Bounds(1.0, 5.0, 1.0)
    case Soreness => Bounds(1.0, 5.0, 1.0)
    case Performance => Bounds(1.0, 5.0, 1.0)
  }

  /** The card and the dialog offer the same sliders. */
  lemma SameBoundsAsDialog(s: Slider)
    ensures SliderInfo(s) == SliderBounds(s)
  {
  }

  /** `getSliderColor(value, max)`: by share of the scale, higher is
      greener, with the same rule for every metric including soreness. */
  function CardColour(value: real, max: real): (c: Colour)
    requires max > 0.0
    ensures c.shade == 500
    ensures c.hue == Red <==> 5.0 * value <= max
    ensures c.hue == Orange <==> max < 5.0 * value <= 2.0 * max
    ensures c.hue == Yellow <==> 2.0 * max < 5.0 * value <= 3.0 * max
    ensures c.hue == Green <==> 3.0 * max < 5.0 * value
  {
    var percentage := value / max * 100.0;
    ShareAtMost(value, max, 20.0);
    ShareAtMost(value, max, 40.0);
    ShareAtMost(value, max, 60.0);
    if percentage <= 20.0 then Colour(Red, 500)
    else if percentage <= 40.0 then Colour(Orange, 500)
    else if percentage <= 60.0 then Colour(Yellow, 500)
    else if percentage <= 80.0 then Colour(Green, 500)
    else Colour(Green, 500)
  }

  /** A share of the scale is at most `t` percent exactly when the value is
      at most `t` hundredths of the scale. */
  lemma ShareAtMost(value: real, max: real, t: real)
    requires max > 0.0
    ensures value / max * 100.0 <= t <==> 100.0 * value <= t * max
  {
    var q := value / max;
    assert q * max == value;
    assert (t - q * 100.0) * max == t * max - 100.0 * value;
  }

  /** Higher is never worse on the card, soreness included. */
  lemma ColourMonotone(v1: real, v2: real, max: real)
    requires max > 0.0 && v1 <= v2
    ensures Rank(CardColour(v1, max).hue) <= Rank(CardColour(v2, max).hue)
  {
  }

  /** The two components disagree: on the card a soreness of 1 is red and
      a 5 is green, in the dialog the other way round; and a hunger of 3 is
      yellow in both, but with different shades. */
  lemma ColoursDifferFromDialog()
    ensures CardColour(1.0, 5.0).hue == Red && CheckInModal.SliderColour(Soreness, 1.0).hue == Green
    ensures CardColour(5.0, 5.0).hue == Green && CheckInModal.SliderColour(Soreness, 5.0).hue == Red
    ensures CardColour(3.0, 5.0) == Colour(Yellow, 500)
    ensures CheckInModal.SliderColour(Hunger, 3.0) == Colour(Yellow, 400)
  {
  }

  /** The card's initial values are the dialog's. */
  const CardInitial := Metrics(7.0, 3.0, 3.0, 3.0)

  lemma InitialAsDialog(s: Slider)
    ensures CardInitial == CheckInModal.Initial
    ensures OnGrid(SliderInfo(s), Get(CardInitial, s))
  {
  }

  /** The one remote write the card makes for a signed-in user. */
  function SubmitRequest(userId: string, today: int, values: Metrics): (req: Request)
    ensures req.InsertRow? && req.userId == userId && req.date == today && req.metrics == values
  {
    InsertRow(userId, today, values)
  }

  /** The card does not look for an existing row: every submit adds one, so
      two submits on one day leave two rows more for that day. */
  lemma TwoSubmitsTwoRows(table: seq<Row>, userId: string, today: int, v1: Metrics, v2: Metrics, newIds: seq<nat>)
    requires |newIds| == 2
    ensures CountFor(ApplyAll(table, [SubmitRequest(userId, today, v1), SubmitRequest(userId, today, v2)], newIds), userId, today)
      == CountFor(table, userId, today) + 2
  {
    ApplyTwo(table, SubmitRequest(userId, today, v1), SubmitRequest(userId, today, v2), newIds);
    InsertAddsOne(table, userId, today, v1, newIds[0]);
    InsertAddsOne(Apply(table, SubmitRequest(userId, today, v1), newIds[0]), userId, today, v2, newIds[1]);
  }

  /** The message every failure shows. */
  const FailureMessage := "Failed to submit check-in. Please try again."

  class CheckInCard {
    var values: Metrics
    var isSubmitting: bool

    constructor ()
      ensures values == CardInitial && !isSubmitting
    {
      values := CardInitial;
      isSubmitting := false;
    }

    /** The slider's `onChange`: only the named value changes. */
    method HandleSliderChange(s: Slider, v: real)
      modifies this
      ensures Get(values, s) == v
      ensures forall t :: t != s ==> Get(values, t) == Get(old(values), t)
      ensures isSubmitting == old(isSubmitting)
    {
      values := Set(values, s, v);
    }

    /** `handleSubmit`: without a user it fails before any remote call;
        otherwise it inserts today's row and fails, with the one fixed
        message, if the insert reports an error. The submitting flag is
        cleared in every case. */
    method HandleSubmit(user: Option<string>, today: int, insertFailed: bool)
      returns (outcome: SubmitOutcome, calls: seq<Request>)
      modifies this
      ensures !isSubmitting && values == old(values)
      ensures user.None? ==> calls == [] && outcome == Failed(FailureMessage)
      ensures user.Some? ==> calls == [SubmitRequest(user.value, today, values)]
      ensures user.Some? ==> outcome == if insertFailed then Failed(FailureMessage) else Completed
    {
      isSubmitting := true;
      if user.None? {
        isSubmitting := false;
        return Failed(FailureMessage), [];
      }
      calls := [InsertRow(user.value, today, values)];
      outcome := if insertFailed then Failed(FailureMessage) else Completed;
      isSubmitting := false;
    }
  }
}
