/** The check-in dialog of `src/components/dashboard/CheckInModal.tsx`:
    four sliders with colour feedback, and a submit that updates today's
    row when the remote store reports exactly one and inserts one
    otherwise. The signed-in user, today's day number and the remote
    store's answers are parameters. */
module CheckInModal {
  import opened Common
  import opened HealthRows

  datatype Slider = Sleep | Hunger | Soreness | Performance

  datatype Hue = Green | Yellow | Orange | Red

  /** A colour token such as `green.500`. */
  datatype Colour = Colour(hue: Hue, shade: nat)

  /** Higher is better: 3 for green down to 0 for red. */
  function Rank(h: Hue): nat
  {
    match h
    case Green => 3
    case Yellow => 2
    case Orange => 1
    case Red => 0
  }

  /** The top of a slider's scale (`max`): positive, so the share of the
      scale `getSliderColor` computes is defined, and at least the top of
      the 1-5 scores. */
  function ScaleMax(s: Slider): (m: real)
    ensures m >= 5.0
  {
    if s == Sleep then 12.0 else 5.0
  }

  /** `getSliderColor(name, value)`. Soreness is read the other way round
      (less is better) on fixed steps; every other metric goes by its share
      of the scale. */
  function SliderColour(s: Slider, value: real): (c: Colour)
    ensures s == Soreness ==>
      && (c.hue == Green <==> value <= 1.0)
      && (c.hue == Yellow <==> 1.0 < value <= 2.0)
      && (c.hue == Orange <==> 2.0 < value <= 3.0)
      && (c.hue == Red <==> 3.0 < value)
    ensures s != Soreness ==>
      && (c.hue == Green <==> 5.0 * value >= 4.0 * ScaleMax(s))
      && (c.hue == Yellow <==> 4.0 * ScaleMax(s) > 5.0 * value >= 3.0 * ScaleMax(s))
      && (c.hue == Orange <==> 3.0 * ScaleMax(s) > 5.0 * value >= 2.0 * ScaleMax(s))
      && (c.hue == Red <==> 2.0 * ScaleMax(s) > 5.0 * value)
    ensures c.shade == if c.hue in {Green, Red} then 500 else 400
  {
    if s == Soreness then
      if value <= 1.0 then Colour(Green, 500)
      else if value <= 2.0 then Colour(Yellow, 400)
      else if value <= 3.0 then Colour(Orange, 400)
      else Colour(Red, 500)
    else
      var percentage := value / ScaleMax(s) * 100.0;
      if percentage >= 80.0 then Colour(Green, 500)
      else if percentage >= 60.0 then Colour(Yellow, 400)
      else if percentage >= 40.0 then Colour(Orange, 400)
      else Colour(Red, 500)
  }

  /** Moving a slider up never makes its colour worse, except for
      soreness, where it never makes it better. */
  lemma ColourMonotone(s: Slider, v1: real, v2: real)
    requires v1 <= v2
    ensures s != Soreness ==> Rank(SliderColour(s, v1).hue) <= Rank(SliderColour(s, v2).hue)
    ensures s == Soreness ==> Rank(SliderColour(s, v1).hue) >= Rank(SliderColour(s, v2).hue)
  {
  }

  /** The colours the 1-5 sliders actually show. */
  lemma ScoreColours()
    ensures SliderColour(Hunger, 1.0).hue == Red && SliderColour(Hunger, 2.0).hue == Orange
    ensures SliderColour(Hunger, 3.0).hue == Yellow && SliderColour(Hunger, 4.0).hue == Green
    ensures SliderColour(Soreness, 1.0).hue == Green && SliderColour(Soreness, 4.0).hue == Red
    ensures SliderColour(Sleep, 7.0).hue == Orange && SliderColour(Sleep, 10.0).hue == Green
  {
  }

  /** A slider's `min`, `max` and `step`. */
  datatype Bounds = Bounds(min: real, max: real, step: real)

  /** A value the slider can take: within bounds and a whole number of
      steps above the minimum. */
  predicate OnGrid(b: Bounds, v: real)
    requires b.step > 0.0
  {
    var k := (v - b.min) / b.step;
    b.min <= v <= b.max && k == k.Floor as real
  }

  /** `renderSlider`'s bounds: sleep 0-12 in half hours, the others 1-5. */
  function SliderBounds(s: Slider): (b: Bounds)
    ensures b.step > 0.0 && b.min < b.max
    ensures b.max == ScaleMax(s)
    ensures OnGrid(b, b.min) && OnGrid(b, b.max)
  {
    if s == Sleep then Bounds(0.0, 12.0, 0.5) else Bounds(1.0, 5.0, 1.0)
  }

  /** `values[name]`. */
  function Get(m: Metrics, s: Slider): real
  {
    match s
    case Sleep => m.sleep
    case Hunger => m.hunger
    case Soreness => m.soreness
    case Performance => m.performance
  }

  /** `{ ...prev, [name]: value }`. */
  function Set(m: Metrics, s: Slider, v: real): (r: Metrics)
    ensures Get(r, s) == v
    ensures forall t :: t != s ==> Get(r, t) == Get(m, t)
  {
    match s
    case Sleep => m.(sleep := v)
    case Hunger => m.(hunger := v)
    case Soreness => m.(soreness := v)
    case Performance => m.(performance := v)
  }

  /** The values the dialog resets to whenever it opens. */
  const Initial := Metrics(7.0, 3.0, 3.0, 3.0)

  /** The initial values are ones the sliders can show. */
  lemma InitialOnGrid(s: Slider)
    ensures OnGrid(SliderBounds(s), Get(Initial, s))
  {
  }

  /** The remote calls `handleSubmit` makes once a user is known: look up
      today's row, then update it when exactly one was found, else insert. */
  function SubmitRequests(userId: string, today: int, existing: Option<nat>, values: Metrics): (reqs: seq<Request>)
    ensures |reqs| == 2 && reqs[0] == SelectToday(userId, today)
    ensures existing.Some? <==> reqs[1].UpdateMetrics?
    ensures existing.Some? ==> reqs[1] == UpdateMetrics(existing.value, values)
    ensures existing.None? ==> reqs[1] == InsertRow(userId, today, values)
  {
    [SelectToday(userId, today),
     if existing.Some? then UpdateMetrics(existing.value, values) else InsertRow(userId, today, values)]
  }

  /** One row per user and day: from at most one row of today, a submit
      leaves exactly one, and it holds the submitted values. */
  lemma {:induction false} SubmitIsUpsert(table: seq<Row>, userId: string, today: int, values: Metrics, newIds: seq<nat>)
    requires CountFor(table, userId, today) <= 1
    requires |newIds| == 2
    ensures var after := ApplyAll(table, SubmitRequests(userId, today, SingleMatch(table, userId, today), values), newIds);
      && CountFor(after, userId, today) == 1
      && forall j :: 0 <= j < |after| && Matches(after[j], userId, today) ==> Holds(after[j], values)
  {
    var existing := SingleMatch(table, userId, today);
    var reqs := SubmitRequests(userId, today, existing, values);
    var after := Apply(table, reqs[1], newIds[1]);
    ApplyTwo(table, reqs[0], reqs[1], newIds);
    assert reqs == [reqs[0], reqs[1]];
    if existing.Some? {
      UpdateKeepsCount(table, existing.value, values, userId, today);
      forall j | 0 <= j < |after| && Matches(after[j], userId, today)
        ensures Holds(after[j], values)
      {
        OnlyMatchHasId(table, userId, today, j, existing.value);
      }
    } else {
      InsertAddsOne(table, userId, today, values, newIds[1]);
      forall j | 0 <= j < |table| ensures !Matches(table[j], userId, today) { }
    }
  }

  /** When exactly one row matches, it is the row `.single()` returned. */
  lemma OnlyMatchHasId(table: seq<Row>, userId: string, date: int, j: nat, id: nat)
    requires j < |table| && Matches(table[j], userId, date)
    requires SingleMatch(table, userId, date) == Some(id)
    ensures table[j].id == id
  {
    var k :| 0 <= k < |table| && Matches(table[k], userId, date) && table[k].id == id;
    if j != k {
      TwoMatchesCountTwo(table, userId, date, j, k);
    }
  }

  lemma {:induction false} TwoMatchesCountTwo(table: seq<Row>, userId: string, date: int, j: nat, k: nat)
    requires j < |table| && k < |table| && j != k
    requires Matches(table[j], userId, date) && Matches(table[k], userId, date)
    ensures CountFor(table, userId, date) >= 2
    decreases |table|
  {
    assert forall i :: 1 <= i < |table| ==> table[i] == table[1..][i - 1];
    if j > 0 && k > 0 {
      TwoMatchesCountTwo(table[1..], userId, date, j - 1, k - 1);
    } else {
      var other := if j == 0 then k - 1 else j - 1;
      assert Matches(table[1..][other], userId, date);
      assert CountFor(table[1..], userId, date) != 0;
    }
  }

  /** The upsert does not repair duplicates: once two rows of today exist,
      `.single()` finds none and a submit inserts a third. */
  lemma DuplicatesGrow(table: seq<Row>, userId: string, today: int, values: Metrics, newIds: seq<nat>)
    requires CountFor(table, userId, today) == 2
    requires |newIds| == 2
    ensures CountFor(ApplyAll(table, SubmitRequests(userId, today, SingleMatch(table, userId, today), values), newIds), userId, today) == 3
  {
    var reqs := SubmitRequests(userId, today, None, values);
    ApplyTwo(table, reqs[0], reqs[1], newIds);
    assert reqs == [reqs[0], reqs[1]];
    InsertAddsOne(table, userId, today, values, newIds[1]);
  }

  /** How a submit ends: the dialog closes and reports completion, or an
      error is shown. */
  datatype SubmitOutcome = Completed | Failed(message: string)

  class CheckInDialog {
    var values: Metrics
    var isSubmitting: bool

    constructor ()
      ensures values == Initial && !isSubmitting
    {
      values := Initial;
      isSubmitting := false;
    }

    /** The effect run when `isOpen` becomes true. */
    method Opened()
      modifies this
      ensures values == Initial && isSubmitting == old(isSubmitting)
    {
      values := Initial;
    }

    /** `handleSliderChange(name, value)`: only the named value changes. */
    method HandleSliderChange(s: Slider, v: real)
      modifies this
      ensures Get(values, s) == v
      ensures forall t :: t != s ==> Get(values, t) == Get(old(values), t)
      ensures isSubmitting == old(isSubmitting)
    {
      values := Set(values, s, v);
    }

    /** `handleSubmit`: without a user it fails before any remote call;
        otherwise it looks up today's row (`existing` is the id `.single()`
        returned, None on no row, several rows or a lookup error), then
        updates or inserts, and fails with the write's error if there is
        one. The submitting flag is cleared in every case. */
    method HandleSubmit(user: Option<string>, today: int, existing: Option<nat>, writeError: Option<string>)
      returns (outcome: SubmitOutcome, calls: seq<Request>)
      modifies this
      ensures !isSubmitting && values == old(values)
      ensures user.None? ==> calls == [] && outcome == Failed("No user found")
      ensures user.Some? ==> calls == SubmitRequests(user.value, today, existing, values)
      ensures user.Some? ==> outcome == if writeError.Some? then Failed(writeError.value) else Completed
    {
      isSubmitting := true;
      if user.None? {
        isSubmitting := false;
        return Failed("No user found"), [];
      }
      calls := [SelectToday(user.value, today)];
      if existing.Some? {
        calls := calls + [UpdateMetrics(existing.value, values)];
      } else {
        calls := calls + [InsertRow(user.value, today, values)];
      }
      outcome := if writeError.Some? then Failed(writeError.value) else Completed;
      isSubmitting := false;
    }
  }
}
