/**
 The schedule page's next-run calculator: a cron field turned into a set of
 values, and the search for the next minute an expression fires at.
 */
module Cron {
  import opened Wrappers
  import opened Calendar

  // ---- one field ---------------------------------------------------------

  datatype Base = Star | Range(from: int, to: int) | Single(value: int)

  /** `base/step`, or `base` alone. */
  datatype Part = Part(base: Base, step: Option<int>)

  function StepOf(p: Part): int {
    if p.step.Some? then p.step.value else 1
  }

  function StartOf(p: Part, lo: int): int {
    match p.base
    case Star => lo
    case Range(a, _) => a
    case Single(n) => n
  }

  /** `n/step` runs on to the end of the range, except that `n/1` is just `n`. */
  function EndOf(p: Part, hi: int): int {
    match p.base
    case Star => hi
    case Range(_, b) => b
    case Single(n) => if StepOf(p) != 1 then hi else n
  }

  /** `v` is among the first `n` values of the progression. */
  ghost predicate Hit(start: int, step: int, n: int, v: int) {
    exists k :: 0 <= k < n && v == Nth(start, step, k)
  }

  function Nth(start: int, step: int, k: int): int {
    start + k * step
  }

  /** Before the exclusive bound, on the side the step comes from. */
  predicate Within(v: int, stop: int, step: int) {
    if step > 0 then v < stop else v > stop
  }

  predicate At(start: int, step: int, stop: int, k: int, v: int) {
    0 <= k && v == Nth(start, step, k) && Within(v, stop, step)
  }

  /** `v` is in `range(start, stop, step)`. */
  ghost predicate InSteps(start: int, step: int, stop: int, v: int) {
    exists k :: At(start, step, stop, k, v)
  }

  ghost predicate Selects(p: Part, lo: int, hi: int, v: int) {
    lo <= v <= hi && InSteps(StartOf(p, lo), StepOf(p), EndOf(p, hi) + 1, v)
  }

  ghost predicate Picks(parts: seq<Part>, lo: int, hi: int, v: int) {
    exists p :: p in parts && Selects(p, lo, hi, v)
  }

  ghost function Selected(parts: seq<Part>, lo: int, hi: int): set<int> {
    set v | lo <= v <= hi && Picks(parts, lo, hi, v)
  }

  lemma NthMoves(start: int, step: int, j: int, k: int)
    requires j <= k
    ensures step > 0 ==> Nth(start, step, j) <= Nth(start, step, k)
    ensures step < 0 ==> Nth(start, step, j) >= Nth(start, step, k)
    ensures Nth(start, step, j + 1) == Nth(start, step, j) + step
  {
    assert (k - j) * step == k * step - j * step;
    assert (j + 1) * step == j * step + step;
    if step > 0 {
      assert (k - j) * step >= 0;
    } else if step < 0 {
      assert (k - j) * -step >= 0;
    }
  }

  method ParsePart(p: Part, lo: int, hi: int) returns (values: set<int>)
    requires StepOf(p) != 0
    ensures forall v :: v in values <==> Selects(p, lo, hi, v)
  {
    var start, step, stop := StartOf(p, lo), StepOf(p), EndOf(p, hi) + 1;
    values := {};
    var v := start;
    ghost var n := 0;
    assert Nth(start, step, 0) == start;
    while Within(v, stop, step)
      invariant 0 <= n && v == Nth(start, step, n)
      invariant forall u :: u in values <==> lo <= u <= hi && Hit(start, step, n, u)
      invariant forall k | 0 <= k < n :: Within(Nth(start, step, k), stop, step)
      decreases if step > 0 then stop - v else v - stop
    {
      if lo <= v <= hi {
        values := values + {v};
      }
      forall u ensures Hit(start, step, n + 1, u) <==> Hit(start, step, n, u) || u == v {
        if u == v {
          assert 0 <= n < n + 1 && u == Nth(start, step, n);
        }
      }
      NthMoves(start, step, n, n);
      v := v + step;
      n := n + 1;
    }
    forall u | u in values ensures Selects(p, lo, hi, u) {
      var k :| 0 <= k < n && u == Nth(start, step, k);
      assert At(start, step, stop, k, u);
    }
    forall u | Selects(p, lo, hi, u) ensures u in values {
      var k :| At(start, step, stop, k, u);
      if k >= n {
        NthMoves(start, step, n, k);
        assert false;
      }
    }
  }

  /** One cron field: every value some part selects; a zero step is an error. */
  method ParseField(parts: seq<Part>, lo: int, hi: int) returns (r: Result<set<int>>)
    ensures r.Ok? <==> forall p | p in parts :: StepOf(p) != 0
    ensures r.Ok? ==> r.value == Selected(parts, lo, hi)
  {
    var values: set<int> := {};
    for i := 0 to |parts|
      invariant forall p | p in parts[..i] :: StepOf(p) != 0
      invariant values == Selected(parts[..i], lo, hi)
    {
      var p := parts[i];
      if StepOf(p) == 0 {
        return Err("range() arg 3 must not be zero");
      }
      var more := ParsePart(p, lo, hi);
      assert forall q :: q in parts[..i + 1] <==> q in parts[..i] || q == p;
      values := values + more;
    }
    assert parts[..|parts|] == parts;
    return Ok(values);
  }

  /** What the usual spellings mean: `*` everything, `a-b` and `n` themselves,
      `a-b/s` every s-th from a. */
  lemma Spellings(lo: int, hi: int, a: int, b: int, v: int)
    requires lo <= v <= hi
    ensures Selects(Part(Star, None), lo, hi, v)
    ensures Selects(Part(Range(a, b), None), lo, hi, v) <==> a <= v <= b
    ensures Selects(Part(Single(a), None), lo, hi, v) <==> v == a
  {
    OneByOne(lo, hi + 1, v);
    OneByOne(a, b + 1, v);
    OneByOne(a, a + 1, v);
  }

  lemma OneByOne(start: int, stop: int, v: int)
    ensures InSteps(start, 1, stop, v) <==> start <= v < stop
  {
    if start <= v < stop {
      assert At(start, 1, stop, v - start, v);
    }
  }

  lemma EveryNth(start: int, s: int, stop: int, v: int)
    requires s > 0
    ensures InSteps(start, s, stop, v) <==> start <= v < stop && (v - start) % s == 0
  {
    if InSteps(start, s, stop, v) {
      var k :| At(start, s, stop, k, v);
      Multiple(v - start, s, k);
      NthMoves(start, s, 0, k);
      assert Nth(start, s, 0) == start;
    }
    if start <= v < stop && (v - start) % s == 0 {
      var k := (v - start) / s;
      assert v - start == k * s;
      assert At(start, s, stop, k, v);
    }
  }

  /** Star with a step, `a-b/s` and `n/s` mean every s-th value from the first; `n/1` is
      just `n`. */
  lemma Stepping(lo: int, hi: int, a: int, b: int, s: int, v: int)
    requires lo <= v <= hi && s > 0
    ensures Selects(Part(Star, Some(s)), lo, hi, v) <==> (v - lo) % s == 0
    ensures Selects(Part(Range(a, b), Some(s)), lo, hi, v) <==> a <= v <= b && (v - a) % s == 0
    ensures Selects(Part(Single(a), Some(s)), lo, hi, v) <==> if s == 1 then v == a else a <= v && (v - a) % s == 0
  {
    EveryNth(lo, s, hi + 1, v);
    EveryNth(a, s, b + 1, v);
    EveryNth(a, s, hi + 1, v);
    OneByOne(a, a + 1, v);
  }

  /** A negative step runs down, and stops short of the value after the end. */
  lemma SteppingDown(lo: int, hi: int, a: int, b: int, s: int, v: int)
    requires lo <= v <= hi && s > 0
    ensures Selects(Part(Range(a, b), Some(-s)), lo, hi, v) <==> b + 1 < v <= a && (a - v) % s == 0
  {
    var p := Part(Range(a, b), Some(-s));
    if Selects(p, lo, hi, v) {
      var k :| At(a, -s, b + 1, k, v);
      assert a - v == k * s;
      Multiple(a - v, s, k);
      NthMoves(a, -s, 0, k);
      assert Nth(a, -s, 0) == a;
    }
    if b + 1 < v <= a && (a - v) % s == 0 {
      var k := (a - v) / s;
      assert a - v == k * s && k * -s == -(k * s);
      assert At(a, -s, b + 1, k, v);
    }
  }

  lemma AtLeastOne(x: int, s: int)
    requires x >= 1 && s > 0
    ensures x * s >= s
  {
    assert x * s == (x - 1) * s + s;
    assert (x - 1) * s >= 0;
  }

  lemma Multiple(n: int, s: int, k: int)
    requires s > 0 && n == k * s
    ensures n % s == 0
  {
    var q, r := n / s, n % s;
    assert n == q * s + r;
    assert (k - q) * s == r;
    if k > q {
      AtLeastOne(k - q, s);
    } else if k < q {
      assert (q - k) * s == -((k - q) * s);
      AtLeastOne(q - k, s);
    }
  }

  // ---- firing ------------------------------------------------------------

  datatype Fields = Fields(
    minutes: set<int>, hours: set<int>, doms: set<int>, months: set<int>, dows: set<int>,
    domStar: bool, dowStar: bool)

  /** An expression's five fields, already split at spaces and commas. */
  method ParseCron(expr: seq<seq<Part>>) returns (r: Result<Fields>)
    ensures r.Ok? <==> |expr| == 5 && forall i, p | 0 <= i < 5 && p in expr[i] :: StepOf(p) != 0
    ensures r.Ok? ==> InRange(r.value)
    ensures r.Ok? ==>
              && r.value.minutes == Selected(expr[0], 0, 59) && r.value.hours == Selected(expr[1], 0, 23)
              && r.value.doms == Selected(expr[2], 1, 31) && r.value.months == Selected(expr[3], 1, 12)
              && r.value.dows == Selected(expr[4], 0, 6)
              && (r.value.domStar <==> expr[2] == [Part(Star, None)])
              && (r.value.dowStar <==> expr[4] == [Part(Star, None)])
  {
    if |expr| != 5 {
      return Err("cron expression must have 5 fields");
    }
    var minutes := ParseField(expr[0], 0, 59);
    var hours := ParseField(expr[1], 0, 23);
    var doms := ParseField(expr[2], 1, 31);
    var months := ParseField(expr[3], 1, 12);
    var dows := ParseField(expr[4], 0, 6);
    if minutes.Err? || hours.Err? || doms.Err? || months.Err? || dows.Err? {
      return Err("range() arg 3 must not be zero");
    }
    return Ok(Fields(minutes.value, hours.value, doms.value, months.value, dows.value,
                     expr[2] == [Part(Star, None)], expr[4] == [Part(Star, None)]));
  }

  datatype Time = Time(date: Date, hour: int, minute: int)

  /** A time with its seconds and microseconds. */
  datatype Moment = Moment(time: Time, micros: int)

  predicate ValidTime(t: Time) {
    Valid(t.date) && 0 <= t.hour < 24 && 0 <= t.minute < 60
  }

  predicate ValidMoment(m: Moment) {
    ValidTime(m.time) && 0 <= m.micros < 60000000
  }

  predicate InRange(f: Fields) {
    && (forall m | m in f.minutes :: 0 <= m < 60) && (forall h | h in f.hours :: 0 <= h < 24)
    && (forall d | d in f.doms :: 1 <= d <= 31) && (forall m | m in f.months :: 1 <= m <= 12)
    && (forall w | w in f.dows :: 0 <= w < 7)
  }

  /** Minutes since the start of day 0, and microseconds. */
  function MinuteOf(t: Time): int
    requires ValidTime(t)
  {
    Ord(t.date) * 1440 + t.hour * 60 + t.minute
  }

  function Micros(m: Moment): int
    requires ValidMoment(m)
  {
    MinuteOf(m.time) * 60000000 + m.micros
  }

  lemma MinuteOrders(a: Time, b: Time)
    requires ValidTime(a) && ValidTime(b)
    ensures a == b <==> MinuteOf(a) == MinuteOf(b)
  {
    OrdOrders(a.date, b.date);
  }

  /** Sunday is 0; day 1 was a Monday. */
  function CronDow(d: Date): int
    requires Valid(d)
  {
    ((Ord(d) + 6) % 7 + 1) % 7
  }

  /** Two restricted day fields match either one; a `*` never constrains. */
  predicate DayMatches(f: Fields, d: Date)
    requires Valid(d)
  {
    if f.domStar && f.dowStar then true
    else if f.domStar then CronDow(d) in f.dows
    else if f.dowStar then d.day in f.doms
    else d.day in f.doms || CronDow(d) in f.dows
  }

  predicate FiresOn(f: Fields, d: Date)
    requires Valid(d)
  {
    d.month in f.months && DayMatches(f, d)
  }

  predicate Fires(f: Fields, t: Time)
    requires ValidTime(t)
  {
    FiresOn(f, t.date) && t.hour in f.hours && t.minute in f.minutes
  }

  // Which day is which.

  /** A Sunday. */
  const SUNDAY := Date(2026, 1, 4)

  lemma SundayIsZero()
    ensures Valid(SUNDAY) && CronDow(SUNDAY) == 0
  {
    assert BeforeYear(2026) == 739616;
  }

  /** The weekday counts the days since a Sunday. */
  lemma DaysSinceSunday(d: Date)
    requires Valid(d)
    ensures Valid(SUNDAY) && CronDow(d) == (Ord(d) - Ord(SUNDAY)) % 7
  {
    assert Ord(SUNDAY) == 739620;
    SevenApart(Ord(d));
  }

  lemma SevenApart(n: int)
    ensures ((n + 6) % 7 + 1) % 7 == (n - 739620) % 7
  {
    assert 739620 == 7 * 105660;
  }

  /** Weekdays follow each other, Sunday after Saturday. */
  lemma WeekdayFollows(d: Date)
    requires Valid(d)
    ensures Valid(NextDay(d)) && CronDow(NextDay(d)) == (CronDow(d) + 1) % 7
  {
    hide Ord, CronDow, NextDay;
    NextDayIsNext(d);
    DaysSinceSunday(d);
    DaysSinceSunday(NextDay(d));
    OneMoreDay(Ord(d) - Ord(SUNDAY));
  }

  lemma OneMoreDay(n: int)
    ensures (n + 1) % 7 == (n % 7 + 1) % 7
  {
    var k := n / 7;
    assert n == 7 * k + n % 7;
  }

  /** A day matches when its month does and, of the day fields that are not `*`,
      one does, a weekday counted from a Sunday; with both `*` every day does. */
  lemma FiresWhen(f: Fields, d: Date)
    requires Valid(d)
    ensures Valid(SUNDAY)
    ensures FiresOn(f, d) <==>
              d.month in f.months
              && (|| (f.domStar && f.dowStar)
                  || (!f.domStar && d.day in f.doms)
                  || (!f.dowStar && (Ord(d) - Ord(SUNDAY)) % 7 in f.dows))
  {
    DaysSinceSunday(d);
  }

  /** With only a weekday given, a date of an allowed month fires exactly when it is
      that many days after a Sunday. */
  lemma WeekdayFires(f: Fields, d: Date, w: int)
    requires Valid(d) && f.domStar && !f.dowStar && f.dows == {w} && 0 <= w < 7 && d.month in f.months
    ensures Valid(SUNDAY)
    ensures FiresOn(f, d) <==> (Ord(d) - Ord(SUNDAY) - w) % 7 == 0
  {
    FiresWhen(f, d);
    SameResidue(Ord(d) - Ord(SUNDAY), w);
  }

  lemma SameResidue(n: int, w: int)
    requires 0 <= w < 7
    ensures n % 7 == w <==> (n - w) % 7 == 0
  {
    var k := n / 7;
    assert n == 7 * k + n % 7;
  }

  /** A minute the expression fires at, strictly after a moment. */
  ghost predicate Due(f: Fields, after: Moment, t: Time)
    requires ValidMoment(after)
  {
    ValidTime(t) && Fires(f, t) && MinuteOf(t) * 60000000 > Micros(after)
  }

  ghost predicate IsNext(f: Fields, after: Moment, t: Time)
    requires ValidMoment(after)
  {
    Due(f, after, t) && forall u :: Due(f, after, u) ==> MinuteOf(t) <= MinuteOf(u)
  }

  /** `0 8 * * 1`, asked on a Sunday: the next run is on Monday, the day after, at
      eight. */
  lemma MondayAfterSunday(f: Fields, after: Moment)
    requires f.minutes == {0} && f.hours == {8} && f.dows == {1} && f.domStar && !f.dowStar && 1 in f.months
    requires ValidMoment(after) && after.time.date == SUNDAY
    ensures IsNext(f, after, Time(Date(2026, 1, 5), 8, 0))
  {
    var t := Time(Date(2026, 1, 5), 8, 0);
    DaysSinceSunday(t.date);
    forall u | Due(f, after, u) ensures MinuteOf(t) <= MinuteOf(u) {
      SundayIsZero();
      OrdOrders(u.date, SUNDAY);
    }
  }

  /** A minute added, seconds dropped: the first minute that is later. */
  function FirstMinute(after: Moment): (t: Time)
    requires ValidMoment(after)
    ensures ValidTime(t) && MinuteOf(t) == MinuteOf(after.time) + 1
  {
    var u := after.time;
    NextDayIsNext(u.date);
    if u.minute < 59 then Time(u.date, u.hour, u.minute + 1)
    else if u.hour < 23 then Time(u.date, u.hour + 1, 0)
    else Time(NextDay(u.date), 0, 0)
  }

  // ---- the search --------------------------------------------------------

  /** The values of a set, each once, in ascending order. */
  ghost predicate Lists(q: seq<int>, s: set<int>) {
    && (forall v :: v in q <==> v in s)
    && (forall i, j | 0 <= i < j < |q| :: q[i] < q[j])
  }

  /** `sorted` of a set between two bounds. */
  method Ascending(s: set<int>, lo: int, hi: int) returns (q: seq<int>)
    requires forall v | v in s :: lo <= v < hi
    ensures Lists(q, s)
  {
    q := [];
    var v := lo;
    while v < hi
      invariant forall u :: u in q <==> u in s && u < v
      invariant forall i, j | 0 <= i < j < |q| :: q[i] < q[j]
    {
      if v in s {
        assert forall i | 0 <= i < |q| :: q[i] in q;
        q := q + [v];
      }
      v := v + 1;
    }
  }

  predicate Fits(f: Fields, t: Time, h: int, m: int) {
    h in f.hours && m in f.minutes && h * 60 + m >= t.hour * 60 + t.minute
  }

  /** The first hour and minute of a matching day that is not before `t`. */
  method FirstOnDay(f: Fields, t: Time) returns (r: Option<(int, int)>)
    requires InRange(f)
    ensures r.Some? ==> Fits(f, t, r.value.0, r.value.1)
    ensures r.Some? ==> forall h, m | Fits(f, t, h, m) :: r.value.0 * 60 + r.value.1 <= h * 60 + m
    ensures r.None? ==> forall h, m :: !Fits(f, t, h, m)
  {
    var hours := Ascending(f.hours, 0, 24);
    var minutes := Ascending(f.minutes, 0, 60);
    for i := 0 to |hours|
      invariant NoneBefore(f, t, hours[..i])
    {
      for j := 0 to |minutes|
        invariant NoneAt(f, t, hours[i], minutes[..j])
      {
        if hours[i] * 60 + minutes[j] >= t.hour * 60 + t.minute {
          forall h, m | Fits(f, t, h, m) ensures hours[i] * 60 + minutes[j] <= h * 60 + m {
            LeastPair(f, t, hours, minutes, i, j, h, m);
          }
          return Some((hours[i], minutes[j]));
        }
      }
    }
    return None;
  }

  ghost predicate NoneBefore(f: Fields, t: Time, hours: seq<int>) {
    forall h, m | h in hours :: !Fits(f, t, h, m)
  }

  ghost predicate NoneAt(f: Fields, t: Time, h: int, minutes: seq<int>) {
    forall m | m in minutes :: !Fits(f, t, h, m)
  }

  lemma LeastPair(f: Fields, t: Time, hours: seq<int>, minutes: seq<int>, i: nat, j: nat, h: int, m: int)
    requires InRange(f) && Lists(hours, f.hours) && Lists(minutes, f.minutes)
    requires i < |hours| && j < |minutes| && Fits(f, t, h, m)
    requires NoneBefore(f, t, hours[..i]) && NoneAt(f, t, hours[i], minutes[..j])
    ensures hours[i] * 60 + minutes[j] <= h * 60 + m
  {
    var a :| 0 <= a < |hours| && hours[a] == h;
    var b :| 0 <= b < |minutes| && minutes[b] == m;
    assert minutes[j] in f.minutes && m in f.minutes;
    if a < i {
      assert false;
    } else if a == i && b < j {
      assert false;
    }
  }

  /** The next run: the least minute after `after` that fires, if one falls
      within the days searched; nothing exactly when none does. */
  method NextRun(f: Fields, after: Moment, maxDays: int) returns (r: Option<Time>)
    requires ValidMoment(after) && InRange(f)
    ensures r.Some? ==> IsNext(f, after, r.value) && Ord(r.value.date) <= Ord(FirstMinute(after).date) + maxDays
    ensures r.None? ==> forall t :: Due(f, after, t) ==> Ord(t.date) > Ord(FirstMinute(after).date) + maxDays
  {
    ghost var start := FirstMinute(after);
    var t := FirstMinute(after);
    var i := 0;
    while i < maxDays + 1
      invariant 0 <= i && (i <= maxDays + 1 || i == 0)
      invariant ValidTime(t) && Ord(t.date) == Ord(start.date) + i
      invariant i == 0 ==> t == start
      invariant i > 0 ==> t.hour == 0 && t.minute == 0
      invariant forall u :: Due(f, after, u) ==> Ord(u.date) >= Ord(t.date)
    {
      if FiresOn(f, t.date) {
        var found := FirstOnDay(f, t);
        if found.Some? {
          var c := Time(t.date, found.value.0, found.value.1);
          forall u | Due(f, after, u) ensures MinuteOf(c) <= MinuteOf(u) {
            OrdOrders(u.date, t.date);
            if u.date == t.date {
              DueFits(f, after, u, t, start);
            }
          }
          return Some(c);
        }
      }
      forall u | Due(f, after, u) ensures Ord(u.date) > Ord(t.date) {
        OrdOrders(u.date, t.date);
        if u.date == t.date {
          DueFits(f, after, u, t, start);
        }
      }
      NextDayIsNext(t.date);
      t := Time(NextDay(t.date), 0, 0);
      i := i + 1;
    }
    return None;
  }

  lemma DueFits(f: Fields, after: Moment, u: Time, t: Time, start: Time)
    requires ValidMoment(after) && Due(f, after, u) && start == FirstMinute(after)
    requires ValidTime(t) && u.date == t.date && (t == start || (t.hour == 0 && t.minute == 0))
    ensures Fits(f, t, u.hour, u.minute)
  {
  }

  // ---- iterating ---------------------------------------------------------

  /** Each run is the next one after the run before it. */
  ghost predicate Chain(f: Fields, after: Moment, runs: seq<Time>)
    requires ValidMoment(after)
    decreases |runs|
  {
    runs == [] || (IsNext(f, after, runs[0]) && Chain(f, Moment(runs[0], 0), runs[1..]))
  }

  /** Asking again from each answer enumerates every firing, with no gap. */
  lemma {:induction false} NoGap(f: Fields, after: Moment, runs: seq<Time>, t: Time)
    requires ValidMoment(after) && Chain(f, after, runs) && runs != []
    requires forall i | 0 <= i < |runs| :: ValidTime(runs[i])
    requires Due(f, after, t) && MinuteOf(t) <= MinuteOf(runs[|runs| - 1])
    ensures t in runs
    decreases |runs|
  {
    var head := runs[0];
    assert MinuteOf(head) <= MinuteOf(t);
    MinuteOrders(head, t);
    if t != head {
      assert Due(f, Moment(head, 0), t);
      NoGap(f, Moment(head, 0), runs[1..], t);
      assert t in runs[1..];
    }
  }

  lemma NextIsUnique(f: Fields, after: Moment, a: Time, b: Time)
    requires ValidMoment(after) && IsNext(f, after, a) && IsNext(f, after, b)
    ensures a == b
  {
    MinuteOrders(a, b);
  }

  // ---- the default bound -------------------------------------------------

  const DEFAULT_MAX_DAYS := 4 * 366

  function LongestMonth(m: int): int {
    if m == 2 then 29 else if m in {4, 6, 9, 11} then 30 else 31
  }

  /** Some month has a day the fields allow: read off the fields alone. */
  ghost predicate CanFire(f: Fields) {
    && f.minutes != {} && f.hours != {} && f.months != {}
    && (|| (f.domStar && f.dowStar)
        || (!f.dowStar && f.dows != {})
        || (!f.domStar && exists m, d :: m in f.months && d in f.doms && d <= LongestMonth(m)))
  }

  lemma FiringNeeds(f: Fields, d: Date)
    requires Valid(d) && InRange(f) && FiresOn(f, d) && f.minutes != {} && f.hours != {}
    ensures CanFire(f)
  {
    assert d.day <= LongestMonth(d.month);
  }

  /** Every month of every year has each weekday among its first seven days. */
  lemma WeekdayIn(y: int, m: int, w: int) returns (d: Date)
    requires y >= 1 && 1 <= m <= 12 && 0 <= w < 7
    ensures Valid(d) && d.year == y && d.month == m && CronDow(d) == w
  {
    var first := Date(y, m, 1);
    d := Date(y, m, 1 + (w - Ord(first)) % 7);
    assert Ord(d) == Ord(first) + (w - Ord(first)) % 7;
    SevenDays(Ord(first), w);
  }

  lemma SevenDays(n: int, w: int)
    requires 0 <= w < 7
    ensures ((n + (w - n) % 7 + 6) % 7 + 1) % 7 == w
  {
    var k := (w - n) / 7;
    assert n + (w - n) % 7 == w - 7 * k;
  }

  lemma NextYearIsNear(a: Date, b: Date)
    requires Valid(a) && Valid(b) && b.year == a.year + 1
    ensures Ord(a) < Ord(b) <= Ord(a) + 732
  {
    InYear(a);
    InYear(b);
    YearStep(a.year);
    YearStep(b.year);
  }

  // 29 February within the bound.

  predicate LeapDay(d: Date) {
    Valid(d) && d.month == 2 && d.day == 29
  }

  /** The century year at or after a year. */
  function CenturyAt(y: int): int {
    (y + 99) / 100 * 100
  }

  /** From 29 February four years before a century that is no leap year to 24
      February of that century. */
  predicate InLeapGap(a: Date) {
    var c := CenturyAt(a.year);
    c % 400 != 0 && !Earlier(a, Date(c - 4, 2, 29)) && !Earlier(Date(c, 2, 24), a)
  }

  ghost predicate Reached(a: Date, b: Date)
    requires Valid(a) && Valid(b)
  {
    Ord(a) < Ord(b) <= Ord(a) + DEFAULT_MAX_DAYS
  }

  lemma FourYears(y: int)
    requires y % 4 == 0
    ensures BeforeYear(y + 4) == BeforeYear(y) + YearLen(y) + 1095
  {
    hide BeforeYear;
    YearStep(y);
    YearStep(y + 1);
    YearStep(y + 2);
    YearStep(y + 3);
  }

  /** Four years lie between 29 February of a leap year, or 25 February of a
      century that is none, and the next 29 February. */
  lemma LeapYearToNext(a: Date, z: int)
    requires Valid(a) && a.year % 4 == 0 && z == a.year + 4 && Leap(z)
    requires !Earlier(a, if Leap(a.year) then Date(a.year, 2, 29) else Date(a.year, 2, 25))
    ensures LeapDay(Date(z, 2, 29)) && Reached(a, Date(z, 2, 29))
  {
    var low := if Leap(a.year) then Date(a.year, 2, 29) else Date(a.year, 2, 25);
    OrdOrders(a, low);
    FourYears(a.year);
    OrdOrders(a, Date(z, 2, 29));
  }

  lemma LeapUnlessGap(a: Date, z: int)
    requires Valid(a) && !InLeapGap(a) && z == a.year + 4 - a.year % 4
    requires !(Leap(a.year) && Earlier(a, Date(a.year, 2, 29)))
    ensures Leap(z)
    ensures a.year % 4 == 0 ==> !Earlier(a, if Leap(a.year) then Date(a.year, 2, 29) else Date(a.year, 2, 25))
  {
    hide Leap, CenturyAt, Valid;
    if !Leap(z) {
      CenturyAhead(a.year, z);
      assert false;
    }
    if a.year % 4 == 0 && !Leap(a.year) {
      CenturyItself(a.year);
    }
  }

  lemma CenturyOf(n: int, y: int)
    requires 100 * n - 100 < y <= 100 * n
    ensures CenturyAt(y) == 100 * n
  {
    assert (y + 99) / 100 == n;
  }

  /** A multiple of four that is no leap year is a century, and the year four
      before it is a leap year. */
  lemma CommonCentury(y: int)
    requires y % 4 == 0 && !Leap(y)
    ensures y == 100 * (y / 100) && y % 400 != 0
  {
  }

  lemma FourTimes(k: int)
    ensures 4 * k % 4 == 0
  {
  }

  lemma HundredTimes(k: int)
    ensures (100 * k + 96) % 100 == 96
  {
  }

  lemma FourBefore(n: int)
    ensures Leap(100 * n - 4)
  {
    FourTimes(25 * n - 1);
    HundredTimes(n - 1);
    var y := 100 * n - 4;
    assert y == 4 * (25 * n - 1) && y == 100 * (n - 1) + 96;
  }

  lemma CenturyItself(y: int)
    requires y % 4 == 0 && !Leap(y)
    ensures CenturyAt(y) == y && y % 400 != 0
  {
    hide CenturyAt, Leap;
    CommonCentury(y);
    CenturyOf(y / 100, y);
  }

  lemma CenturyAhead(y: int, z: int)
    requires z == y + 4 - y % 4 && !Leap(z)
    ensures CenturyAt(y) == z && z % 400 != 0 && z - 4 <= y < z && (y == z - 4 ==> Leap(y))
  {
    hide CenturyAt, Leap;
    FourAhead(y);
    CommonCentury(z);
    CenturyOf(z / 100, y);
    FourBefore(z / 100);
  }

  lemma FourAhead(y: int)
    ensures (y + 4 - y % 4) % 4 == 0
  {
  }

  lemma CommonYearToNext(a: Date, z: int)
    requires Valid(a) && a.year % 4 != 0 && z == a.year + 4 - a.year % 4 && Leap(z)
    ensures LeapDay(Date(z, 2, 29)) && Reached(a, Date(z, 2, 29))
  {
    var low := Date(z - 4, 1, 1);
    FourYears(z - 4);
    InYear(a);
    YearsApart(z - 3, a.year);
    YearStep(z - 4);
    OrdOrders(a, Date(z, 2, 29));
  }

  /** Outside the gap the next 29 February is within the bound. */
  lemma NextLeapDay(a: Date) returns (b: Date)
    requires Valid(a) && !InLeapGap(a)
    ensures LeapDay(b) && Reached(a, b)
  {
    var y := a.year;
    var z := y + 4 - y % 4;
    b := Date(z, 2, 29);
    if Leap(y) && Earlier(a, Date(y, 2, 29)) {
      b := Date(y, 2, 29);
      OrdOrders(a, b);
      InYear(a);
      YearStep(y);
    } else {
      LeapUnlessGap(a, z);
      if y % 4 == 0 {
        LeapYearToNext(a, z);
      } else {
        CommonYearToNext(a, z);
      }
    }
  }

  /** In the gap there is none. */
  lemma NoLeapDay(a: Date, b: Date)
    requires Valid(a) && LeapDay(b) && InLeapGap(a)
    ensures !Reached(a, b)
  {
    hide Ord;
    var c := CenturyAt(a.year);
    assert c >= 100 && c % 100 == 0;
    GapLength(c);
    var first, last, next := Date(c - 4, 2, 29), Date(c, 2, 24), Date(c + 4, 2, 29);
    OrdOrders(a, first);
    OrdOrders(last, a);
    if b.year <= c - 4 {
      OrdOrders(first, b);
    } else {
      NoneNear(c, b.year);
      OrdOrders(b, next);
    }
  }

  lemma NoneNear(c: int, y: int)
    requires c % 100 == 0 && c % 400 != 0 && Leap(y) && y > c - 4
    ensures y >= c + 4
  {
    assert c % 4 == 0;
  }

  lemma GapLength(c: int)
    requires c >= 100 && c % 100 == 0 && c % 400 != 0
    ensures Valid(Date(c, 2, 24)) && LeapDay(Date(c + 4, 2, 29))
    ensures Ord(Date(c + 4, 2, 29)) == Ord(Date(c, 2, 24)) + DEFAULT_MAX_DAYS + 1
  {
    hide BeforeYear;
    FourYears(c);
  }

  /** The bound reaches a later 29 February exactly outside the gap. */
  lemma LeapDayReached(a: Date)
    requires Valid(a)
    ensures (exists b :: LeapDay(b) && Reached(a, b)) <==> !InLeapGap(a)
  {
    if InLeapGap(a) {
      forall b | LeapDay(b) ensures !Reached(a, b) {
        NoLeapDay(a, b);
      }
    } else {
      var b := NextLeapDay(a);
    }
  }

  lemma DayInYear(y: int, m: int, d: int)
    requires 1 <= m <= 12 && 1 <= d <= LongestMonth(m) && (m != 2 || d != 29) && y >= 1
    ensures Valid(Date(y, m, d))
  {
  }

  lemma AnyOf(s: set<int>) returns (v: int)
    requires s != {}
    ensures v in s
  {
    if forall u :: u !in s {
      assert false;
    }
    v :| v in s;
  }

  // What a default search finds.

  predicate Common(m: int, d: int) {
    d <= LongestMonth(m) && !(m == 2 && d == 29)
  }

  /** Some day other than 29 February matches, in every year. */
  ghost predicate FiresYearly(f: Fields) {
    || (f.domStar && f.dowStar)
    || (!f.dowStar && f.dows != {})
    || (!f.domStar && exists m, d :: m in f.months && d in f.doms && Common(m, d))
  }

  /** A matching day of the next year, which the bound reaches. */
  lemma NextYearFires(f: Fields, a: Date) returns (b: Date)
    requires InRange(f) && CanFire(f) && FiresYearly(f) && Valid(a)
    ensures Valid(b) && FiresOn(f, b) && Reached(a, b)
  {
    if f.domStar && f.dowStar {
      var m := AnyOf(f.months);
      b := Date(a.year + 1, m, 1);
    } else if !f.dowStar && f.dows != {} {
      var m := AnyOf(f.months);
      var w := AnyOf(f.dows);
      b := WeekdayIn(a.year + 1, m, w);
    } else {
      var m, d :| m in f.months && d in f.doms && Common(m, d);
      DayInYear(a.year + 1, m, d);
      b := Date(a.year + 1, m, d);
    }
    NextYearIsNear(a, b);
  }

  /** Fields that do not fire in every year fire on 29 February alone. */
  lemma OnlyLeapDays(f: Fields, b: Date)
    requires InRange(f) && CanFire(f) && !FiresYearly(f) && Valid(b)
    ensures FiresOn(f, b) <==> LeapDay(b)
  {
    var m, d :| m in f.months && d in f.doms && d <= LongestMonth(m);
    assert !Common(m, d);
    if FiresOn(f, b) {
      assert b.day <= LongestMonth(b.month) && !Common(b.month, b.day);
    }
  }

  /** The search starts on a day that fires, with an hour and minute to come. */
  ghost predicate FiresToday(f: Fields, start: Time)
    requires ValidTime(start)
  {
    FiresOn(f, start.date) && exists h, m :: Fits(f, start, h, m)
  }

  /** A later matching day within the bound. */
  ghost predicate FiresWithin(f: Fields, a: Date)
    requires Valid(a)
  {
    exists b :: Valid(b) && FiresOn(f, b) && Reached(a, b)
  }

  /** There is a later matching day within the bound exactly when the fields fire
      in every year or the bound reaches a 29 February. */
  lemma WithinExactly(f: Fields, a: Date)
    requires InRange(f) && CanFire(f) && Valid(a)
    ensures FiresWithin(f, a) <==> FiresYearly(f) || !InLeapGap(a)
  {
    if FiresYearly(f) {
      var b := NextYearFires(f, a);
    } else {
      LeapDayReached(a);
      if b :| Valid(b) && FiresOn(f, b) && Reached(a, b) {
        OnlyLeapDays(f, b);
      } else if b :| LeapDay(b) && Reached(a, b) {
        OnlyLeapDays(f, b);
      }
    }
  }

  lemma DueToday(f: Fields, after: Moment, start: Time)
    requires ValidMoment(after) && InRange(f) && start == FirstMinute(after) && FiresToday(f, start)
    ensures exists t :: Due(f, after, t) && t.date == start.date
  {
    var h, m :| Fits(f, start, h, m);
    assert Due(f, after, Time(start.date, h, m));
  }

  lemma DueLater(f: Fields, after: Moment, start: Time, b: Date)
    requires ValidMoment(after) && InRange(f) && start == FirstMinute(after) && CanFire(f)
    requires Valid(b) && FiresOn(f, b) && Ord(start.date) < Ord(b)
    ensures exists t :: Due(f, after, t) && t.date == b
  {
    var h := AnyOf(f.hours);
    var m := AnyOf(f.minutes);
    assert Due(f, after, Time(b, h, m));
  }

  lemma DueWhen(f: Fields, after: Moment, t: Time)
    requires ValidMoment(after) && InRange(f) && Due(f, after, t)
    requires Ord(t.date) <= Ord(FirstMinute(after).date) + DEFAULT_MAX_DAYS
    ensures CanFire(f)
    ensures FiresToday(f, FirstMinute(after)) || FiresWithin(f, FirstMinute(after).date)
  {
    var start := FirstMinute(after);
    FiringNeeds(f, t.date);
    OrdOrders(t.date, start.date);
    if t.date == start.date {
      DueFits(f, after, t, start, start);
    } else {
      assert Reached(start.date, t.date);
    }
  }

  /** With the default bound, from any start: a run is found exactly when the
      fields fire at all and they fire still today, or in every year, or the
      start is outside the gap around a century that is no leap year. */
  method NextRunDefault(f: Fields, after: Moment) returns (r: Option<Time>)
    requires ValidMoment(after) && InRange(f)
    ensures r.Some? ==> IsNext(f, after, r.value)
    ensures r.Some? <==> CanFire(f) && (|| FiresToday(f, FirstMinute(after)) || FiresYearly(f)
                                        || !InLeapGap(FirstMinute(after).date))
  {
    r := NextRun(f, after, DEFAULT_MAX_DAYS);
    ghost var start := FirstMinute(after);
    if r.Some? {
      DueWhen(f, after, r.value);
      WithinExactly(f, start.date);
    } else if CanFire(f) {
      WithinExactly(f, start.date);
      if FiresToday(f, start) {
        DueToday(f, after, start);
        assert false;
      } else if FiresWithin(f, start.date) {
        var b :| Valid(b) && FiresOn(f, b) && Reached(start.date, b);
        DueLater(f, after, start, b);
        assert false;
      }
    }
  }

  /** The fields of `0 0 29 2 *`. */
  function LeapMidnight(): Fields {
    Fields({0}, {0}, {29}, {2}, {0, 1, 2, 3, 4, 5, 6}, false, true)
  }

  /** Fields that fire every four years or so, and a search that finds nothing:
      started on 1 March 2096 the next run is in 2104. */
  method CenturyOutOfReach() returns (r: Option<Time>)
    ensures CanFire(LeapMidnight()) && r.None?
    ensures Due(LeapMidnight(), Moment(Time(Date(2096, 3, 1), 0, 0), 0), Time(Date(2104, 2, 29), 0, 0))
  {
    var f, after := LeapMidnight(), Moment(Time(Date(2096, 3, 1), 0, 0), 0);
    assert 29 in f.doms && 2 in f.months;
    assert !FiresYearly(f);
    DueIn2104();
    r := NextRunDefault(f, after);
  }

  lemma DueIn2104()
    ensures Due(LeapMidnight(), Moment(Time(Date(2096, 3, 1), 0, 0), 0), Time(Date(2104, 2, 29), 0, 0))
  {
    OrdOrders(Date(2096, 3, 1), Date(2104, 2, 29));
  }
}
