/**
 * Profile scheduling for an SDR device: which profile should run now, and
 * when the next decision is due.
 *
 * Datetimes are whole seconds (UTC); a time of day is a number of seconds
 * since midnight. The current time `now` is a parameter wherever the
 * scheduler would read the clock.
 */
module Schedule {
  import opened Wrappers
  import Text

  /** Seconds in a day. */
  const DAY: int := 86400

  /** A time of day, in seconds since midnight. */
  type TimeOfDay = t: int | 0 <= t < DAY

  type Profile = string

  /** The time-of-day part of a datetime. */
  function TimeOf(dt: int): TimeOfDay {
    dt % DAY
  }

  /**
   * A schedule entry: a daily time range (which may run past midnight), an
   * absolute datetime range, or a rotation slot that is active from its
   * creation until its end.
   */
  datatype Entry =
    | TimeEntry(startOfDay: TimeOfDay, endOfDay: TimeOfDay, profile: Profile)
    | DatetimeEntry(startAt: int, endAt: int, profile: Profile)
    | RotationEntry(startAt: int, endAt: int, profile: Profile)

  /** Whether entry `e` is active at datetime `dt`; every range includes its start and excludes its end. */
  predicate IsCurrent(e: Entry, dt: int) {
    match e
    case TimeEntry(s, en, _) =>
      var t := TimeOf(dt);
      if s < en then s <= t < en else s <= t || t < en
    case DatetimeEntry(s, en, _) => s <= dt < en
    case RotationEntry(s, en, _) => s <= dt < en
  }

  /** A daily range whose start equals its end covers the whole day. */
  lemma FullDayRange(s: TimeOfDay, p: Profile, dt: int)
    ensures IsCurrent(TimeEntry(s, s, p), dt)
  {
  }

  /**
   * A range that wraps past midnight is exactly the complement of the
   * ordinary range with the bounds swapped: `s..e` is current iff `e..s` is not.
   */
  lemma WrappedRangeIsComplement(s: TimeOfDay, e: TimeOfDay, p: Profile, dt: int)
    requires s != e
    ensures IsCurrent(TimeEntry(s, e, p), dt) <==> !IsCurrent(TimeEntry(e, s, p), dt)
  {
  }

  // ---------------------------------------------------------------------------
  // Rolling a time of day forward to a datetime

  /** The first datetime at or after `now` whose time of day is `tod`. */
  function NextAtOrAfter(now: int, tod: TimeOfDay): (r: int)
    ensures now <= r < now + DAY
    ensures TimeOf(r) == tod
  {
    var m := now - TimeOf(now) + tod;
    if m < now then m + DAY else m
  }

  /** Only one datetime within a day from `now` has a given time of day. */
  lemma NextAtOrAfterUnique(now: int, tod: TimeOfDay, r: int)
    requires now <= r < now + DAY && TimeOf(r) == tod
    ensures r == NextAtOrAfter(now, tod)
  {
    var q := NextAtOrAfter(now, tod);
    assert r - r % DAY == (r / DAY) * DAY;
    assert q - q % DAY == (q / DAY) * DAY;
    assert -DAY < r - q < DAY;
    assert r - q == (r / DAY - q / DAY) * DAY;
  }

  /**
   * Today's datetime at `tod`, moved on by whole days until it is no longer
   * before `now`.
   */
  method RollForward(now: int, tod: TimeOfDay) returns (r: int)
    ensures r == NextAtOrAfter(now, tod)
  {
    r := now - TimeOf(now) + tod;
    while r < now
      invariant TimeOf(r) == tod
      invariant r < now + DAY
      decreases now - r
    {
      r := r + DAY;
    }
    NextAtOrAfterUnique(now, tod, r);
  }

  /** When the entry stops being current, seen from `now`. */
  function ScheduledEnd(e: Entry, now: int): (r: int)
    ensures e.TimeEntry? ==> now <= r < now + DAY && TimeOf(r) == e.endOfDay
    ensures !e.TimeEntry? ==> r == e.endAt
  {
    match e
    case TimeEntry(_, en, _) => NextAtOrAfter(now, en)
    case _ => e.endAt
  }

  /** When the entry next becomes active, seen from `now`; a rotation slot reports its end. */
  function NextActivation(e: Entry, now: int): (r: int)
    ensures e.TimeEntry? ==> now <= r < now + DAY && TimeOf(r) == e.startOfDay
    ensures e.DatetimeEntry? ==> r == e.startAt
    ensures e.RotationEntry? ==> r == e.endAt
  {
    match e
    case TimeEntry(s, _, _) => NextAtOrAfter(now, s)
    case DatetimeEntry(s, _, _) => s
    case RotationEntry(_, en, _) => en
  }

  method GetScheduledEnd(e: Entry, now: int) returns (r: int)
    ensures r == ScheduledEnd(e, now)
  {
    match e
    case TimeEntry(_, en, _) => r := RollForward(now, en);
    case DatetimeEntry(_, en, _) => r := en;
    case RotationEntry(_, en, _) => r := en;
  }

  method GetNextActivation(e: Entry, now: int) returns (r: int)
    ensures r == NextActivation(e, now)
  {
    match e
    case TimeEntry(s, _, _) => r := RollForward(now, s);
    case DatetimeEntry(s, _, _) => r := s;
    case RotationEntry(_, en, _) => r := en;
  }

  /** Moving a datetime by whole days keeps its time of day. */
  lemma TimeOfShift(m: int, x: int)
    requires TimeOf(m) == 0 && 0 <= x < 2 * DAY
    ensures TimeOf(m + x) == if x < DAY then x else x - DAY
  {
    assert m == (m / DAY) * DAY;
    if x < DAY {
      assert m + x == (m / DAY) * DAY + x;
    } else {
      assert m + x == (m / DAY + 1) * DAY + (x - DAY);
    }
  }

  /**
   * A daily entry that is current at `now` stays current until its scheduled
   * end, and is no longer current at that end (unless it covers the whole
   * day): re-selecting at the scheduled end is neither early nor late.
   */
  lemma {:induction false} CurrentUntilScheduledEnd(e: Entry, now: int, dt: int)
    requires e.TimeEntry? && IsCurrent(e, now)
    requires now <= dt < ScheduledEnd(e, now)
    ensures IsCurrent(e, dt)
    ensures e.startOfDay != e.endOfDay ==> !IsCurrent(e, ScheduledEnd(e, now))
  {
    var s, en, t := e.startOfDay, e.endOfDay, TimeOf(now);
    var m := now - t;
    assert TimeOf(m) == 0 by { assert m == (now / DAY) * DAY; }
    var end := ScheduledEnd(e, now);
    if t < en {
      NextAtOrAfterUnique(now, en, m + en);
      TimeOfShift(m, dt - m);
    } else {
      TimeOfShift(m, DAY + en);
      NextAtOrAfterUnique(now, en, m + DAY + en);
      TimeOfShift(m, dt - m);
    }
  }

  /**
   * A daily entry that is not current at `now` stays inactive until its next
   * activation, and is current at that activation.
   */
  lemma {:induction false} IdleUntilNextActivation(e: Entry, now: int, dt: int)
    requires e.TimeEntry? && !IsCurrent(e, now)
    requires now <= dt < NextActivation(e, now)
    ensures !IsCurrent(e, dt)
    ensures IsCurrent(e, NextActivation(e, now))
  {
    var s, t := e.startOfDay, TimeOf(now);
    var m := now - t;
    assert TimeOf(m) == 0 by { assert m == (now / DAY) * DAY; }
    if t <= s {
      NextAtOrAfterUnique(now, s, m + s);
      TimeOfShift(m, dt - m);
    } else {
      TimeOfShift(m, DAY + s);
      NextAtOrAfterUnique(now, s, m + DAY + s);
      TimeOfShift(m, dt - m);
    }
  }

  // ---------------------------------------------------------------------------
  // Static schedules: "HHMM-HHMM" keys

  /**
   * `strptime(s, "%H%M")` on a four-character string: two digits of hour
   * (00 to 23) and two digits of minute (00 to 59), as a time of day; any
   * other string is a parse error.
   */
  function ParseHHMM(s: string): (r: Option<TimeOfDay>)
    requires |s| == 4
    ensures r.Some? ==> TimeOf(r.value) % 60 == 0
  {
    if !Text.AllDigits(s) then None
    else
      var h, m := Text.DigitsValue(s[..2]), Text.DigitsValue(s[2..]);
      if h < 24 && m < 60 then Some(h * 3600 + m * 60) else None
  }

  function DigitChar(d: nat): char
    requires d < 10
  {
    ('0' as int + d) as char
  }

  /** The "HHMM" spelling of a whole-minute time of day. */
  function FormatHHMM(t: TimeOfDay): (r: string)
    ensures |r| == 4 && Text.AllDigits(r)
  {
    var h, m := t / 3600, (t % 3600) / 60;
    [DigitChar(h / 10), DigitChar(h % 10), DigitChar(m / 10), DigitChar(m % 10)]
  }

  /** Formatting a whole-minute time of day and parsing it back gives it back. */
  lemma ParseFormatRoundTrip(t: TimeOfDay)
    requires t % 60 == 0
    ensures ParseHHMM(FormatHHMM(t)) == Some(t)
  {
    var s := FormatHHMM(t);
    var h, m := t / 3600, (t % 3600) / 60;
    TwoDigits(s[..2], h);
    TwoDigits(s[2..], m);
  }

  /** Parsing a time and formatting it back gives the original string. */
  lemma FormatParseRoundTrip(s: string)
    requires |s| == 4 && ParseHHMM(s).Some?
    ensures FormatHHMM(ParseHHMM(s).value) == s
  {
    var h, m := Text.DigitsValue(s[..2]), Text.DigitsValue(s[2..]);
    TwoDigitsValue(s[..2]);
    TwoDigitsValue(s[2..]);
    var t := h * 3600 + m * 60;
    assert t / 3600 == h;
    assert (t % 3600) / 60 == m;
  }

  lemma TwoDigits(s: string, v: nat)
    requires v < 100 && s == [DigitChar(v / 10), DigitChar(v % 10)]
    ensures Text.AllDigits(s) && Text.DigitsValue(s) == v
  {
    assert s[..1] == [DigitChar(v / 10)];
    assert s[..1][..0] == [];
  }

  lemma TwoDigitsValue(s: string)
    requires |s| == 2 && Text.AllDigits(s)
    ensures Text.DigitsValue(s) == 10 * (s[0] as int - '0' as int) + (s[1] as int - '0' as int)
    ensures Text.DigitsValue(s) / 10 == s[0] as int - '0' as int
    ensures Text.DigitsValue(s) % 10 == s[1] as int - '0' as int
    ensures s == [DigitChar(Text.DigitsValue(s) / 10), DigitChar(Text.DigitsValue(s) % 10)]
  {
    assert s[..1][..0] == [];
  }

  /** A schedule key the static schedule reads: exactly nine characters, "HHMM?HHMM". */
  predicate IsRangeKey(key: string) {
    |key| == 9
  }

  /** A nine-character key whose start or end half does not parse as a time. */
  predicate IsBadRangeKey(key: string) {
    |key| == 9 && (ParseHHMM(key[0..4]).None? || ParseHHMM(key[5..9]).None?)
  }

  /** The schedule items whose key is nine characters long, in order. */
  function RangeItems(items: seq<(string, Profile)>): (r: seq<(string, Profile)>)
    ensures |r| <= |items|
    ensures forall x :: x in r ==> x in items && IsRangeKey(x.0)
    ensures forall x :: x in items && IsRangeKey(x.0) ==> x in r
  {
    if items == [] then []
    else
      var init, last := items[..|items| - 1], items[|items| - 1];
      assert items == init + [last];
      RangeItems(init) + (if IsRangeKey(last.0) then [last] else [])
  }

  /** The entry a good nine-character key gives. */
  function RangeEntry(item: (string, Profile)): Entry
    requires IsRangeKey(item.0) && !IsBadRangeKey(item.0)
  {
    TimeEntry(ParseHHMM(item.0[0..4]).value, ParseHHMM(item.0[5..9]).value, item.1)
  }

  /**
   * The entries a static schedule is built from, in key order; `None` when
   * a nine-character key does not parse (the constructor raises).
   */
  function StaticEntries(items: seq<(string, Profile)>): Option<seq<Entry>> {
    if items == [] then Some([])
    else
      var init, last := items[..|items| - 1], items[|items| - 1];
      match StaticEntries(init)
      case None => None
      case Some(es) =>
        if !IsRangeKey(last.0) then Some(es)
        else if IsBadRangeKey(last.0) then None
        else Some(es + [RangeEntry(last)])
  }

  /** Building fails exactly when some nine-character key does not parse. */
  lemma {:induction false} StaticEntriesFail(items: seq<(string, Profile)>)
    ensures StaticEntries(items).None? <==> exists i :: 0 <= i < |items| && IsBadRangeKey(items[i].0)
  {
    if items != [] {
      var init := items[..|items| - 1];
      StaticEntriesFail(init);
      assert forall i :: 0 <= i < |init| ==> init[i] == items[i];
    }
  }

  /** When building succeeds, the entries are those of the nine-character keys, one each, in order. */
  lemma {:induction false} StaticEntriesContents(items: seq<(string, Profile)>)
    requires StaticEntries(items).Some?
    ensures var es := StaticEntries(items).value;
      && |es| == |RangeItems(items)|
      && forall j :: 0 <= j < |es| ==> !IsBadRangeKey(RangeItems(items)[j].0) && es[j] == RangeEntry(RangeItems(items)[j])
  {
    if items != [] {
      var init, last := items[..|items| - 1], items[|items| - 1];
      StaticEntriesContents(init);
      var es, ri := StaticEntries(init).value, RangeItems(init);
      if IsRangeKey(last.0) {
        assert StaticEntries(items).value == es + [RangeEntry(last)];
        assert RangeItems(items) == ri + [last];
      } else {
        assert StaticEntries(items).value == es;
        assert RangeItems(items) == ri;
      }
    }
  }

  /** A bad key makes every longer item list fail too. */
  lemma BadKeyStaysBad(items: seq<(string, Profile)>, i: nat)
    requires i <= |items| && StaticEntries(items[..i]).None?
    ensures StaticEntries(items).None?
  {
    StaticEntriesFail(items[..i]);
    StaticEntriesFail(items);
    var j :| 0 <= j < i && IsBadRangeKey(items[..i][j].0);
    assert items[j] == items[..i][j];
  }

  /**
   * The static schedule's constructor: skips every key that is not nine
   * characters long and turns every other key into a daily entry, in order.
   */
  method BuildStaticSchedule(items: seq<(string, Profile)>) returns (r: Option<seq<Entry>>)
    ensures r == StaticEntries(items)
  {
    var entries: seq<Entry> := [];
    var i := 0;
    while i < |items|
      invariant 0 <= i <= |items|
      invariant StaticEntries(items[..i]) == Some(entries)
    {
      var (key, profile) := items[i];
      assert items[..i + 1][..i] == items[..i];
      if |key| != 9 {
        i := i + 1;
        continue;
      }
      var start := ParseHHMM(key[0..4]);
      var end := ParseHHMM(key[5..9]);
      if start.None? || end.None? {
        BadKeyStaysBad(items, i + 1);
        return None;
      }
      entries := entries + [TimeEntry(start.value, end.value, profile)];
      i := i + 1;
    }
    assert items[..i] == items;
    r := Some(entries);
  }

  // ---------------------------------------------------------------------------
  // Choosing among time-range entries

  /** The first entry, in list order, that is current at `now`. */
  function CurrentEntry(es: seq<Entry>, now: int): (r: Option<Entry>)
    ensures r.None? <==> forall i :: 0 <= i < |es| ==> !IsCurrent(es[i], now)
    ensures r.Some? ==> exists i :: (0 <= i < |es| && es[i] == r.value && IsCurrent(es[i], now)
      && forall j :: 0 <= j < i ==> !IsCurrent(es[j], now))
  {
    if es == [] then None
    else if IsCurrent(es[0], now) then Some(es[0])
    else
      var r := CurrentEntry(es[1..], now);
      assert forall i :: 1 <= i < |es| ==> es[i] == es[1..][i - 1];
      if r.Some? then
        var i :| 0 <= i < |es[1..]| && es[1..][i] == r.value && IsCurrent(es[1..][i], now)
          && forall j :: 0 <= j < i ==> !IsCurrent(es[1..][j], now);
        assert es[i + 1] == r.value;
        r
      else r
  }

  /**
   * Index of the entry a stable sort by next activation puts first: the
   * earliest activation, and the first such entry in list order on a tie.
   */
  function EarliestIndex(es: seq<Entry>, now: int): (k: nat)
    requires es != []
    ensures k < |es|
    ensures forall j :: 0 <= j < |es| ==> NextActivation(es[k], now) <= NextActivation(es[j], now)
    ensures forall j :: 0 <= j < k ==> NextActivation(es[j], now) > NextActivation(es[k], now)
  {
    if |es| == 1 then 0
    else
      var k := EarliestIndex(es[1..], now) + 1;
      assert forall j :: 1 <= j < |es| ==> es[j] == es[1..][j - 1];
      if NextActivation(es[0], now) <= NextActivation(es[k], now) then 0 else k
  }

  /** The entry that becomes active next: `None` exactly when there are no entries. */
  function NextEntry(es: seq<Entry>, now: int): (r: Option<Entry>)
    ensures r.None? <==> es == []
    ensures r.Some? ==> r.value in es
    ensures r.Some? ==> forall e :: e in es ==> NextActivation(r.value, now) <= NextActivation(e, now)
  {
    if es == [] then None else Some(es[EarliestIndex(es, now)])
  }

  // ---------------------------------------------------------------------------
  // Choosing the scheduler from the device's properties

  /** The schedule dictionary, read by key: the profile ids under "HHMM-HHMM" keys, and the rotation settings. */
  datatype ScheduleDict = ScheduleDict(items: seq<(string, Profile)>, profiles: Option<seq<Profile>>, interval: Option<int>)

  /** The "scheduler" property: an optional "type" and an optional "schedule". */
  datatype SchedulerProps = SchedulerProps(kind: Option<string>, schedule: Option<ScheduleDict>)

  /** The device properties the scheduler reads: "scheduler" and the older top-level "schedule". */
  datatype Props = Props(scheduler: Option<SchedulerProps>, schedule: Option<ScheduleDict>)

  /** What parsing the properties produces. */
  datatype Parsed =
    | NoSchedule                      // no schedule configured, or an unknown scheduler type
    | Static(entries: seq<Entry>)
    | Daylight(dict: ScheduleDict)    // the daylight scheduler is not part of this model
    | Rotation(dict: ScheduleDict)
    | Raised                          // a missing "schedule" key or a bad "HHMM-HHMM" key

  function StaticOf(dict: ScheduleDict): Parsed {
    match StaticEntries(dict.items)
    case None => Raised
    case Some(es) => Static(es)
  }

  /**
   * The scheduler choice: "scheduler" wins over the top-level "schedule";
   * its type defaults to "static".
   */
  function Parse(props: Props): (r: Parsed)
    ensures r.NoSchedule? <==>
      (props.scheduler.None? && props.schedule.None?)
      || (props.scheduler.Some? && props.scheduler.value.kind.GetOr("static") !in {"static", "daylight", "rotation"})
    ensures r.Rotation? <==>
      props.scheduler.Some? && props.scheduler.value.kind.GetOr("static") == "rotation"
      && props.scheduler.value.schedule.Some?
    ensures r.Daylight? ==> props.scheduler.Some? && props.scheduler.value.kind == Some("daylight")
    ensures r.Static? ==>
      var d := if props.scheduler.Some? then props.scheduler.value.schedule else props.schedule;
      d.Some? && StaticEntries(d.value.items) == Some(r.entries)
    ensures props.scheduler.None? && props.schedule.Some? ==> r == StaticOf(props.schedule.value)
    ensures props.scheduler.Some? ==>
      var t, d := props.scheduler.value.kind.GetOr("static"), props.scheduler.value.schedule;
      && (r.Raised? <==> t in {"static", "daylight", "rotation"} && (d.None? || (t == "static" && StaticEntries(d.value.items).None?)))
      && (r.Static? <==> t == "static" && d.Some? && StaticEntries(d.value.items).Some?)
      && (r.Daylight? <==> t == "daylight" && d.Some?)
      && (r.Daylight? || r.Rotation? ==> r.dict == d.value)
  {
    match props.scheduler
    case Some(sc) =>
      var t := sc.kind.GetOr("static");
      if t == "static" then
        if sc.schedule.None? then Raised else StaticOf(sc.schedule.value)
      else if t == "daylight" then
        if sc.schedule.None? then Raised else Daylight(sc.schedule.value)
      else if t == "rotation" then
        if sc.schedule.None? then Raised else Rotation(sc.schedule.value)
      else NoSchedule
    case None =>
      if props.schedule.Some? then StaticOf(props.schedule.value) else NoSchedule
  }

  // ---------------------------------------------------------------------------
  // Rotation through profiles at a fixed interval

  class RotationSchedule {
    const profiles: seq<Profile>
    /** The slot length in seconds. */
    const interval: int
    var currentIndex: nat
    /** End of the current slot; `None` before the first selection. */
    var currentEnd: Option<int>

    ghost predicate Valid()
      reads this
    {
      if profiles == [] then currentIndex == 0 && currentEnd.None? else currentIndex < |profiles|
    }

    /** Reads "profiles" (default: none) and "interval" in minutes (default: 5). */
    constructor (dict: ScheduleDict)
      ensures Valid()
      ensures profiles == dict.profiles.GetOr([]) && interval == dict.interval.GetOr(5) * 60
      ensures currentIndex == 0 && currentEnd == None
    {
      profiles := dict.profiles.GetOr([]);
      interval := dict.interval.GetOr(5) * 60;
      currentIndex := 0;
      currentEnd := None;
    }

    /**
     * The profile to run now. Once the current slot has ended the index
     * advances by one, wrapping round; a new slot then ends one interval
     * from now.
     */
    method GetCurrentEntry(now: int) returns (r: Option<Entry>)
      requires Valid()
      modifies this
      ensures Valid()
      ensures profiles == [] ==> r == None && currentIndex == old(currentIndex) && currentEnd == old(currentEnd)
      ensures profiles != [] ==>
        var expired := old(currentEnd).Some? && now >= old(currentEnd).value;
        && currentIndex == (if expired then (old(currentIndex) + 1) % |profiles| else old(currentIndex))
        && currentEnd == (if expired || old(currentEnd).None? then Some(now + interval) else old(currentEnd))
        && r == Some(RotationEntry(now, currentEnd.value, profiles[currentIndex]))
    {
      if profiles == [] {
        return None;
      }
      if currentEnd.Some? && now >= currentEnd.value {
        currentIndex := (currentIndex + 1) % |profiles|;
        currentEnd := None;
      }
      if currentEnd.None? {
        currentEnd := Some(now + interval);
      }
      r := Some(RotationEntry(now, currentEnd.value, profiles[currentIndex]));
    }

    /**
     * The entry for the following profile, changing nothing: it runs from now
     * until one interval after the current slot ends.
     */
    method GetNextEntry(now: int) returns (r: Option<Entry>)
      requires Valid()
      ensures r.None? <==> profiles == []
      ensures r.Some? ==> r.value.RotationEntry? && r.value.startAt == now
      ensures r.Some? ==> r.value.profile == profiles[(currentIndex + 1) % |profiles|]
      ensures r.Some? ==> r.value.endAt == currentEnd.GetOr(now) + interval
    {
      if profiles == [] {
        return None;
      }
      var nextIndex := (currentIndex + 1) % |profiles|;
      var nextStart := if currentEnd.Some? then currentEnd.value else now;
      r := Some(RotationEntry(now, nextStart + interval, profiles[nextIndex]));
    }
  }

  /**
   * The next entry a rotation announces is the one it selects once the
   * current slot has ended.
   */
  method AnnouncedProfileRunsNext(sched: RotationSchedule, now: int, later: int) returns (announced: Option<Entry>, selected: Option<Entry>)
    requires sched.Valid() && sched.profiles != [] && sched.currentEnd.Some?
    requires later >= sched.currentEnd.value
    modifies sched
    ensures sched.Valid()
    ensures announced.Some? && selected.Some?
    ensures announced.value.profile == selected.value.profile
    ensures selected.value == RotationEntry(later, later + sched.interval, announced.value.profile)
  {
    announced := sched.GetNextEntry(now);
    selected := sched.GetCurrentEntry(later);
  }
}
