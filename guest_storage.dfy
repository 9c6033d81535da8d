/** The guest check-in store of `src/services/guestStorage.ts`: each guest's
    health records live in `localStorage` under `guest_health_stats_<id>`.
    `localStorage` is the `storage` map (JSON encoding is the identity), the
    guest id is the value `getGuestId()` returns, and the clock and
    `Math.random()` are parameters. */
module GuestStorage {
  import opened Common

  /** A stored record (`HealthStat`). */
  datatype HealthStat = HealthStat(
    id: string,
    date: string,
    sleepHours: real,
    hunger: real,
    soreness: real,
    performanceRating: real)

  /** What a caller passes to `saveGuestHealthStat` (`Omit<HealthStat, 'id'>`). */
  datatype HealthStatInput = HealthStatInput(
    date: string,
    sleepHours: real,
    hunger: real,
    soreness: real,
    performanceRating: real)

  /** `${STORAGE_KEYS.HEALTH_STATS}_${guestId}`. */
  function StorageKey(guestId: string): (k: string)
    ensures |k| == 19 + |guestId|
    ensures k[..19] == "guest_health_stats_" && k[19..] == guestId
  {
    "guest_health_stats_" + guestId
  }

  /** Distinct guests never share a storage key. */
  lemma StorageKeyInjective(a: string, b: string)
    ensures StorageKey(a) == StorageKey(b) <==> a == b
  {
    if StorageKey(a) == StorageKey(b) {
      assert a == StorageKey(a)[19..];
    }
  }

  /** `s.split('T')[0]`: everything before the first `'T'`. */
  function DatePart(s: string): (d: string)
    ensures d <= s
    ensures 'T' !in d
    ensures |d| < |s| ==> s[|d|] == 'T'
    decreases |s|
  {
    if s == [] || s[0] == 'T' then [] else [s[0]] + DatePart(s[1..])
  }

  /** `{ ...data, id }`. */
  function WithId(data: HealthStatInput, id: string): HealthStat
  {
    HealthStat(id, data.date, data.sleepHours, data.hunger, data.soreness, data.performanceRating)
  }

  /** `{ ...stat, ...data }`: every field of `data`, including its date,
      over the old record; only the id survives. */
  function Overwrite(stat: HealthStat, data: HealthStatInput): HealthStat
  {
    WithId(data, stat.id)
  }

  /** Whether a record belongs to the calendar day `day`. */
  predicate OnDay(stat: HealthStat, day: string)
  {
    DatePart(stat.date) == day
  }

  /** `stats.findIndex(stat => stat.date.split('T')[0] === today)`. */
  function FirstDayIndex(stats: seq<HealthStat>, today: string): (i: int)
    ensures -1 <= i < |stats|
    ensures i == -1 <==> forall j :: 0 <= j < |stats| ==> !OnDay(stats[j], today)
    ensures 0 <= i ==> OnDay(stats[i], today) && forall j :: 0 <= j < i ==> !OnDay(stats[j], today)
    decreases |stats|
  {
    if stats == [] then -1
    else if OnDay(stats[0], today) then 0
    else
      var k := FirstDayIndex(stats[1..], today);
      assert forall j :: 1 <= j < |stats| ==> stats[j] == stats[1..][j - 1];
      if k == -1 then -1 else k + 1
  }

  /** The list `saveGuestHealthStat` writes back: the first record of
      `today` is overwritten in place, keeping its id; without one, the new
      record is appended. */
  function UpsertToday(stats: seq<HealthStat>, data: HealthStatInput, today: string, newId: string): (r: seq<HealthStat>)
    ensures var i := FirstDayIndex(stats, today);
      && (i >= 0 ==> && |r| == |stats|
                     && r[i].id == stats[i].id
                     && r[i] == WithId(data, stats[i].id)
                     && forall j :: 0 <= j < |stats| && j != i ==> r[j] == stats[j])
      && (i < 0 ==> r == stats + [WithId(data, newId)])
  {
    var i := FirstDayIndex(stats, today);
    if i >= 0 then stats[i := Overwrite(stats[i], data)] else stats + [WithId(data, newId)]
  }

  /** `hasGuestCheckedInToday` over a list of records. */
  predicate CheckedInToday(stats: seq<HealthStat>, today: string)
  {
    exists i :: 0 <= i < |stats| && OnDay(stats[i], today)
  }

  /** `getGuestHealthStatsForRange`'s filter: `new Date(stat.date)` is
      `parse(stat.date)` (None for an invalid date, whose comparisons are
      all false), and both ends are inclusive. */
  predicate InRange(stat: HealthStat, start: int, end: int, parse: string -> Option<int>)
  {
    var t := parse(stat.date);
    t.Some? && start <= t.value && t.value <= end
  }

  function StatsInRange(stats: seq<HealthStat>, start: int, end: int, parse: string -> Option<int>): (r: seq<HealthStat>)
    ensures |r| <= |stats|
    ensures forall x :: x in r <==> x in stats && InRange(x, start, end, parse)
  {
    Filter(stats, (x: HealthStat) => InRange(x, start, end, parse))
  }

  /** The range filter keeps the stored order: filtering a list split in
      two is filtering each half. */
  lemma StatsInRangeOrder(a: seq<HealthStat>, b: seq<HealthStat>, start: int, end: int, parse: string -> Option<int>)
    ensures StatsInRange(a + b, start, end, parse) == StatsInRange(a, start, end, parse) + StatsInRange(b, start, end, parse)
  {
    FilterConcat(a, b, (x: HealthStat) => InRange(x, start, end, parse));
  }

  /** "Checked in today" is exactly "the upsert finds a record to overwrite". */
  lemma CheckedInIffFound(stats: seq<HealthStat>, today: string)
    ensures CheckedInToday(stats, today) <==> FirstDayIndex(stats, today) >= 0
  {
  }

  /** The upsert key is today's date, not `data.date`: when today already
      has a record, a save for any other date still overwrites it and the
      list does not grow. */
  lemma UpsertKeyIsToday(stats: seq<HealthStat>, data: HealthStatInput, today: string, newId: string)
    requires CheckedInToday(stats, today)
    ensures |UpsertToday(stats, data, today, newId)| == |stats|
    ensures UpsertToday(stats, data, today, newId)[FirstDayIndex(stats, today)].date == data.date
  {
  }

  /** A save whose date falls on today leaves the guest checked in today. */
  lemma {:induction false} CheckedInAfterSave(stats: seq<HealthStat>, data: HealthStatInput, today: string, newId: string)
    requires DatePart(data.date) == today
    ensures CheckedInToday(UpsertToday(stats, data, today, newId), today)
  {
    var r := UpsertToday(stats, data, today, newId);
    var i := FirstDayIndex(stats, today);
    if i >= 0 {
      assert OnDay(r[i], today);
    } else {
      assert OnDay(r[|stats|], today);
    }
  }

  /** The number of records on `day`. */
  function CountDay(stats: seq<HealthStat>, day: string): (n: nat)
    ensures n <= |stats|
    ensures n == 0 <==> forall j :: 0 <= j < |stats| ==> !OnDay(stats[j], day)
    decreases |stats|
  {
    if stats == [] then 0
    else
      assert forall j :: 1 <= j < |stats| ==> stats[j] == stats[1..][j - 1];
      (if OnDay(stats[0], day) then 1 else 0) + CountDay(stats[1..], day)
  }

  lemma {:induction false} CountDayConcat(a: seq<HealthStat>, b: seq<HealthStat>, day: string)
    ensures CountDay(a + b, day) == CountDay(a, day) + CountDay(b, day)
    decreases |a|
  {
    if a == [] {
      assert a + b == b;
    } else {
      assert (a + b)[1..] == a[1..] + b;
      CountDayConcat(a[1..], b, day);
    }
  }

  /** Overwriting one record with another record of the same day keeps the
      count of that day. */
  lemma CountDayReplace(stats: seq<HealthStat>, i: nat, x: HealthStat, day: string)
    requires i < |stats| && OnDay(stats[i], day) && OnDay(x, day)
    ensures CountDay(stats[i := x], day) == CountDay(stats, day)
  {
    assert stats == stats[..i] + [stats[i]] + stats[i + 1..];
    assert stats[i := x] == stats[..i] + [x] + stats[i + 1..];
    CountDayConcat(stats[..i] + [stats[i]], stats[i + 1..], day);
    CountDayConcat(stats[..i], [stats[i]], day);
    CountDayConcat(stats[..i] + [x], stats[i + 1..], day);
    CountDayConcat(stats[..i], [x], day);
  }

  /** One check-in per day: from at most one record of today, a save dated
      today leaves exactly one, and it carries the saved values. */
  lemma OneRecordPerDay(stats: seq<HealthStat>, data: HealthStatInput, today: string, newId: string)
    requires CountDay(stats, today) <= 1
    requires DatePart(data.date) == today
    ensures var r := UpsertToday(stats, data, today, newId);
      var i := FirstDayIndex(r, today);
      && CountDay(r, today) == 1
      && 0 <= i && r[i] == WithId(data, r[i].id)
  {
    var r := UpsertToday(stats, data, today, newId);
    var i := FirstDayIndex(stats, today);
    if i >= 0 {
      assert r == stats[i := Overwrite(stats[i], data)];
      CountDayReplace(stats, i, Overwrite(stats[i], data), today);
      assert FirstDayIndex(r, today) == i;
    } else {
      CountDayConcat(stats, [WithId(data, newId)], today);
      assert FirstDayIndex(r, today) == |stats|;
    }
  }

  /** "Checked in today" does not follow from every save: when today's
      only record is overwritten by a save dated another day, no record of
      today is left. */
  lemma SaveForOtherDateClearsToday(stats: seq<HealthStat>, data: HealthStatInput, today: string, newId: string)
    requires CountDay(stats, today) == 1
    requires DatePart(data.date) != today
    ensures CheckedInToday(stats, today)
    ensures !CheckedInToday(UpsertToday(stats, data, today, newId), today)
  {
    var i := FirstDayIndex(stats, today);
    var r := UpsertToday(stats, data, today, newId);
    assert r == stats[i := Overwrite(stats[i], data)];
    assert stats == stats[..i] + [stats[i]] + stats[i + 1..];
    assert r == stats[..i] + [r[i]] + stats[i + 1..];
    CountDayConcat(stats[..i] + [stats[i]], stats[i + 1..], today);
    CountDayConcat(stats[..i], [stats[i]], today);
    CountDayConcat(stats[..i] + [r[i]], stats[i + 1..], today);
    CountDayConcat(stats[..i], [r[i]], today);
    assert CountDay(r, today) == 0;
  }

  /** Saving twice on the same day: the second save overwrites the first,
      so the day holds one record with the second save's values. */
  lemma SecondSaveWins(stats: seq<HealthStat>, first: HealthStatInput, second: HealthStatInput,
                      today: string, id1: string, id2: string)
    requires CountDay(stats, today) <= 1
    requires DatePart(first.date) == today && DatePart(second.date) == today
    ensures var r := UpsertToday(UpsertToday(stats, first, today, id1), second, today, id2);
      var i := FirstDayIndex(r, today);
      && |r| == |UpsertToday(stats, first, today, id1)|
      && CountDay(r, today) == 1
      && 0 <= i && r[i] == WithId(second, r[i].id)
  {
    var s1 := UpsertToday(stats, first, today, id1);
    OneRecordPerDay(stats, first, today, id1);
    OneRecordPerDay(s1, second, today, id2);
  }

  /** The guest namespace of `localStorage` holding health records. */
  class GuestHealthStorage {
    var storage: map<string, seq<HealthStat>>

    constructor ()
      ensures storage == map[]
    {
      storage := map[];
    }

    /** `getGuestHealthStats`: no guest id, or no stored key, gives `[]`. */
    function GetGuestHealthStats(guestId: Option<string>): (r: seq<HealthStat>)
      reads this
      ensures !Present(guestId) ==> r == []
      ensures Present(guestId) && StorageKey(guestId.value) !in storage ==> r == []
      ensures Present(guestId) && StorageKey(guestId.value) in storage ==> r == storage[StorageKey(guestId.value)]
    {
      if !Present(guestId) then []
      else if StorageKey(guestId.value) in storage then storage[StorageKey(guestId.value)]
      else []
    }

    /** `saveGuestHealthStat`: without a guest nothing is written and the
        result is null; otherwise the guest's list is upserted on today's
        date and the result is the new record with its freshly generated id,
        even when that id is not the one stored. No other guest's list
        changes. */
    method SaveGuestHealthStat(guestId: Option<string>, data: HealthStatInput,
                               nowIso: string, randomDigits: string, nowMs: nat)
      returns (r: Option<HealthStat>)
      modifies this
      ensures !Present(guestId) ==> r == None && storage == old(storage)
      ensures Present(guestId) ==>
        var newId := GuestRecordId(randomDigits, nowMs);
        && r == Some(WithId(data, newId))
        && storage == old(storage)[StorageKey(guestId.value) :=
                        UpsertToday(old(GetGuestHealthStats(guestId)), data, DatePart(nowIso), newId)]
      ensures forall g: string :: Some(g) != guestId ==> GetGuestHealthStats(Some(g)) == old(GetGuestHealthStats(Some(g)))
    {
      if !Present(guestId) {
        return None;
      }
      var stats := GetGuestHealthStats(guestId);
      var newStat := WithId(data, GuestRecordId(randomDigits, nowMs));
      var today := DatePart(nowIso);
      var existingTodayIndex := FirstDayIndex(stats, today);
      if existingTodayIndex != -1 {
        stats := stats[existingTodayIndex := Overwrite(stats[existingTodayIndex], data)];
      } else {
        stats := stats + [newStat];
      }
      storage := storage[StorageKey(guestId.value) := stats];
      r := Some(newStat);
      forall g: string | Some(g) != guestId
        ensures GetGuestHealthStats(Some(g)) == old(GetGuestHealthStats(Some(g)))
      {
        StorageKeyInjective(g, guestId.value);
      }
    }

    /** `getGuestHealthStatsForRange`: the stored records with
        `start <= date <= end`, in stored order. */
    function GetGuestHealthStatsForRange(guestId: Option<string>, start: int, end: int,
                                         parse: string -> Option<int>): (r: seq<HealthStat>)
      reads this
      ensures forall x :: x in r <==> x in GetGuestHealthStats(guestId) && InRange(x, start, end, parse)
    {
      StatsInRange(GetGuestHealthStats(guestId), start, end, parse)
    }

    /** `hasGuestCheckedInToday`: some stored record's date part is today. */
    function HasGuestCheckedInToday(guestId: Option<string>, nowIso: string): (b: bool)
      reads this
      ensures b <==> exists i :: 0 <= i < |GetGuestHealthStats(guestId)|
                                 && DatePart(GetGuestHealthStats(guestId)[i].date) == DatePart(nowIso)
    {
      CheckedInToday(GetGuestHealthStats(guestId), DatePart(nowIso))
    }

    /** `clearGuestData`: removes this guest's key and nothing else. */
    method ClearGuestData(guestId: Option<string>)
      modifies this
      ensures !Present(guestId) ==> storage == old(storage)
      ensures Present(guestId) ==> storage == old(storage) - {StorageKey(guestId.value)}
      ensures GetGuestHealthStats(guestId) == []
    {
      if !Present(guestId) {
        return;
      }
      storage := storage - {StorageKey(guestId.value)};
    }
  }
}
