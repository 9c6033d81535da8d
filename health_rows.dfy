/** The remote `health_stats` table as the dashboard components use it,
    with the remote store's behaviour reduced to what their code relies on:
    `.eq` filters, `.single()` (a row only when exactly one matches),
    update by id and insert. Calendar days are day numbers; the client's
    `toISOString().split('T')[0]` strings are their rendering. */
module HealthRows {
  import opened Common

  /** The four slider values of one check-in. */
  datatype Metrics = Metrics(sleep: real, hunger: real, soreness: real, performance: real)

  /** A row of `health_stats`; its metric columns may be null. */
  datatype Row = Row(
    id: nat,
    userId: string,
    date: int,
    sleepHours: Option<real>,
    hunger: Option<real>,
    soreness: Option<real>,
    performanceRating: Option<real>)

  /** The remote calls the check-in components issue. */
  datatype Request =
    | SelectToday(userId: string, date: int)
    | UpdateMetrics(id: nat, metrics: Metrics)
    | InsertRow(userId: string, date: int, metrics: Metrics)

  /** A row holding exactly these metric values. */
  predicate Holds(row: Row, m: Metrics)
  {
    row.sleepHours == Some(m.sleep) && row.hunger == Some(m.hunger)
    && row.soreness == Some(m.soreness) && row.performanceRating == Some(m.performance)
  }

  function WithMetrics(row: Row, m: Metrics): (r: Row)
    ensures Holds(r, m) && r.id == row.id && r.userId == row.userId && r.date == row.date
  {
    row.(sleepHours := Some(m.sleep), hunger := Some(m.hunger),
         soreness := Some(m.soreness), performanceRating := Some(m.performance))
  }

  predicate Matches(row: Row, userId: string, date: int)
  {
    row.userId == userId && row.date == date
  }

  /** The number of rows of `(userId, date)`. */
  function CountFor(table: seq<Row>, userId: string, date: int): (n: nat)
    ensures n <= |table|
    ensures n == 0 <==> forall j :: 0 <= j < |table| ==> !Matches(table[j], userId, date)
    decreases |table|
  {
    if table == [] then 0
    else
      assert forall j :: 1 <= j < |table| ==> table[j] == table[1..][j - 1];
      (if Matches(table[0], userId, date) then 1 else 0) + CountFor(table[1..], userId, date)
  }

  /** The id of the first row of `(userId, date)`, if there is one. */
  function FirstFor(table: seq<Row>, userId: string, date: int): (r: Option<nat>)
    ensures r.Some? <==> exists j :: 0 <= j < |table| && Matches(table[j], userId, date)
    ensures r.Some? ==> exists j :: 0 <= j < |table| && Matches(table[j], userId, date) && table[j].id == r.value
    decreases |table|
  {
    if table == [] then None
    else if Matches(table[0], userId, date) then Some(table[0].id)
    else
      assert forall j :: 1 <= j < |table| ==> table[j] == table[1..][j - 1];
      FirstFor(table[1..], userId, date)
  }

  /** `.select('id').eq('user_id', u).eq('date', d).single()`: a row only
      when exactly one matches; none or several give an error and no data. */
  function SingleMatch(table: seq<Row>, userId: string, date: int): (r: Option<nat>)
    ensures r.Some? <==> CountFor(table, userId, date) == 1
    ensures r.Some? ==> exists j :: 0 <= j < |table| && Matches(table[j], userId, date) && table[j].id == r.value
  {
    if CountFor(table, userId, date) == 1 then FirstFor(table, userId, date) else None
  }

  /** `.update(metrics).eq('id', id)`. */
  function UpdateById(table: seq<Row>, id: nat, m: Metrics): (r: seq<Row>)
    ensures |r| == |table|
    ensures forall j :: 0 <= j < |table| ==> r[j] == if table[j].id == id then WithMetrics(table[j], m) else table[j]
  {
    seq(|table|, j requires 0 <= j < |table| => if table[j].id == id then WithMetrics(table[j], m) else table[j])
  }

  /** The table after one request; an insert takes the fresh id `newId`. */
  function Apply(table: seq<Row>, req: Request, newId: nat): seq<Row>
  {
    match req
    case SelectToday(_, _) => table
    case UpdateMetrics(id, m) => UpdateById(table, id, m)
    case InsertRow(u, d, m) =>
      table + [Row(newId, u, d, Some(m.sleep), Some(m.hunger), Some(m.soreness), Some(m.performance))]
  }

  /** The table after a sequence of requests, inserts taking ids from `newIds`. */
  function ApplyAll(table: seq<Row>, reqs: seq<Request>, newIds: seq<nat>): seq<Row>
    requires |newIds| == |reqs|
    decreases |reqs|
  {
    if reqs == [] then table else ApplyAll(Apply(table, reqs[0], newIds[0]), reqs[1..], newIds[1..])
  }

  /** Two requests in a row: the second applies to the first one's result. */
  lemma ApplyTwo(table: seq<Row>, first: Request, second: Request, newIds: seq<nat>)
    requires |newIds| == 2
    ensures ApplyAll(table, [first, second], newIds) == Apply(Apply(table, first, newIds[0]), second, newIds[1])
  {
    var reqs := [first, second];
    var mid := Apply(table, first, newIds[0]);
    assert reqs[1..] == [second] && reqs[1..][1..] == [];
    assert ApplyAll(table, reqs, newIds) == ApplyAll(mid, [second], newIds[1..]);
    assert ApplyAll(mid, [second], newIds[1..]) == ApplyAll(Apply(mid, second, newIds[1]), [], newIds[1..][1..]);
  }

  lemma {:induction false} CountForConcat(a: seq<Row>, b: seq<Row>, userId: string, date: int)
    ensures CountFor(a + b, userId, date) == CountFor(a, userId, date) + CountFor(b, userId, date)
    decreases |a|
  {
    if a == [] {
      assert a + b == b;
    } else {
      assert (a + b)[1..] == a[1..] + b;
      CountForConcat(a[1..], b, userId, date);
    }
  }

  /** Updating metrics never moves a row to another user or day. */
  lemma {:induction false} UpdateKeepsCount(table: seq<Row>, id: nat, m: Metrics, userId: string, date: int)
    ensures CountFor(UpdateById(table, id, m), userId, date) == CountFor(table, userId, date)
    decreases |table|
  {
    if table != [] {
      var r := UpdateById(table, id, m);
      assert r[1..] == UpdateById(table[1..], id, m);
      UpdateKeepsCount(table[1..], id, m, userId, date);
    }
  }

  /** An insert adds exactly one row for its own user and day. */
  lemma InsertAddsOne(table: seq<Row>, userId: string, date: int, m: Metrics, newId: nat)
    ensures CountFor(Apply(table, InsertRow(userId, date, m), newId), userId, date) == CountFor(table, userId, date) + 1
  {
    var row := Row(newId, userId, date, Some(m.sleep), Some(m.hunger), Some(m.soreness), Some(m.performance));
    CountForConcat(table, [row], userId, date);
  }
}
