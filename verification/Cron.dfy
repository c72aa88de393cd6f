/**
 Schedules: presets of the visual builder written as cron expressions and read back. Five-field syntax of the
 crontab utility of POSIX.1-2017, with 7 also for Sunday.
 */
module Cron {
  import opened Options
  import opened Text

  datatype Frequency = Minute | Hourly | Daily | Weekly | Monthly | Custom

  datatype Preset = Preset(frequency: Frequency, minute: nat, hour: nat, weekdays: seq<nat>, dayOfMonth: nat)

  const DEFAULT_PRESET := Preset(Daily, 0, 0, [1], 1)

  // ---------- Printing ----------

  function Insert(x: nat, s: seq<nat>): seq<nat> {
    if s == [] || x < s[0] then [x] + s else [s[0]] + Insert(x, s[1..])
  }

  function Sort(s: seq<nat>): seq<nat> {
    if s == [] then [] else Insert(s[|s| - 1], Sort(s[..|s| - 1]))
  }

  function Decimals(s: seq<nat>): (r: seq<string>)
    ensures |r| == |s| && forall i :: 0 <= i < |s| ==> r[i] == Decimal(s[i])
  {
    seq(|s|, i requires 0 <= i < |s| => Decimal(s[i]))
  }

  function Days(p: Preset): (days: seq<nat>)
    ensures days != []
  {
    if p.weekdays == [] then [0] else p.weekdays
  }

  /** The five fields: minute, hour, day of the month, month, day of the week. */
  function PresetFields(p: Preset): (fields: seq<string>)
    ensures |fields| == if p.frequency.Custom? then 0 else 5
  {
    match p.frequency
    case Minute => ["*", "*", "*", "*", "*"]
    case Hourly => [Decimal(p.minute), "*", "*", "*", "*"]
    case Daily => [Decimal(p.minute), Decimal(p.hour), "*", "*", "*"]
    case Weekly => [Decimal(p.minute), Decimal(p.hour), "*", "*", Join(Decimals(Sort(Days(p))), ',')]
    case Monthly => [Decimal(p.minute), Decimal(p.hour), Decimal(p.dayOfMonth), "*", "*"]
    case Custom => []
  }

  function BuildCron(p: Preset): string {
    Join(PresetFields(p), ' ')
  }

  // ---------- Parsing ----------

  predicate IsNumber(field: string) { field != "" && AllDigits(field) }

  function IntField(field: string, min: nat, max: nat): Option<nat> {
    if !IsNumber(field) then None
    else if min <= Value(field) <= max then Some(Value(field)) else None
  }

  function WeekdayNum(value: string): (r: Option<nat>)
    ensures r.Some? ==> r.value < 7
  {
    if !IsNumber(value) || Value(value) > 7 then None
    else Some(if Value(value) == 7 then 0 else Value(value))
  }

  function Interval(a: nat, b: nat): (s: set<nat>)
    ensures forall d :: d in s <==> a <= d <= b
    decreases b
  {
    if b < a then {} else if b == 0 then {0} else Interval(a, b - 1) + {b}
  }

  /** The days of one element of the list. */
  function PartDays(part: string): (r: Option<set<nat>>)
    ensures r.Some? ==> r.value != {} && forall d <- r.value :: d < 7
  {
    var range := Split(part, '-');
    if |range| == 1 then
      var n := WeekdayNum(range[0]);
      if n.None? then None else Some({n.value})
    else if |range| == 2 then
      var a, b := WeekdayNum(range[0]), WeekdayNum(range[1]);
      if a.None? || b.None? || a.value > b.value then None
      else
        assert a.value in Interval(a.value, b.value);
        Some(Interval(a.value, b.value))
    else None
  }

  function PartsDays(parts: seq<string>): Option<set<nat>> {
    if parts == [] then Some({})
    else
      var before, last := PartsDays(parts[..|parts| - 1]), PartDays(parts[|parts| - 1]);
      if before.None? || last.None? then None else Some(before.value + last.value)
  }

  /** The days of a set in ascending order, up to and without `end`. */
  function Ascending(days: set<nat>, end: nat): (r: seq<nat>)
    ensures forall d :: d in r <==> d in days && d < end
    ensures forall i, j :: 0 <= i < j < |r| ==> r[i] < r[j]
  {
    if end == 0 then []
    else
      var before := Ascending(days, end - 1);
      assert forall i :: 0 <= i < |before| ==> before[i] in before;
      before + if end - 1 in days then [end - 1] else []
  }

  function Weekdays(field: string): Option<seq<nat>> {
    var days := PartsDays(Split(field, ','));
    if days.None? then None else Some(Ascending(days.value, 7))
  }

  method AddRange(before: set<nat>, a: nat, b: nat) returns (out: set<nat>)
    requires a <= b
    ensures out == before + Interval(a, b)
  {
    out := before;
    for i := a to b + 1
      invariant forall d :: d in out <==> d in before || a <= d < i
    {
      out := out + {i};
    }
  }

  method ParseWeekdays(field: string) returns (r: Option<seq<nat>>)
    ensures r == Weekdays(field)
  {
    var out: set<nat> := {};
    var parts := Split(field, ',');
    for k := 0 to |parts|
      invariant PartsDays(parts[..k]) == Some(out)
    {
      assert parts[..k + 1][..k] == parts[..k];
      var range := Split(parts[k], '-');
      if |range| == 1 {
        var n := WeekdayNum(range[0]);
        if n.None? { OneBadPart(parts, k); return None; }
        out := out + {n.value};
      } else if |range| == 2 {
        var a, b := WeekdayNum(range[0]), WeekdayNum(range[1]);
        if a.None? || b.None? || a.value > b.value { OneBadPart(parts, k); return None; }
        out := AddRange(out, a.value, b.value);
      } else {
        OneBadPart(parts, k);
        return None;
      }
    }
    assert parts[..|parts|] == parts;
    SomeDay(parts);
    r := if |out| > 0 then Some(Ascending(out, 7)) else None;
  }

  lemma {:induction false} PartsAccepted(parts: seq<string>)
    ensures PartsDays(parts).Some? <==> forall i :: 0 <= i < |parts| ==> PartDays(parts[i]).Some?
  {
    if parts != [] {
      var init := parts[..|parts| - 1];
      PartsAccepted(init);
      assert forall i :: 0 <= i < |init| ==> init[i] == parts[i];
    }
  }

  predicate ReadHas(part: string, d: nat) {
    PartDays(part).Some? && d in PartDays(part).value
  }

  ghost predicate SomeReads(parts: seq<string>, d: nat) {
    exists i :: 0 <= i < |parts| && ReadHas(parts[i], d)
  }

  lemma OneMoreReads(parts: seq<string>, last: string, d: nat)
    ensures SomeReads(parts + [last], d) <==> SomeReads(parts, d) || ReadHas(last, d)
  {
    var all := parts + [last];
    assert all[|parts|] == last;
    if i :| 0 <= i < |parts| && ReadHas(parts[i], d) {
      assert ReadHas(all[i], d);
    }
    if i :| 0 <= i < |all| && ReadHas(all[i], d) {
      assert i < |parts| ==> ReadHas(parts[i], d);
    }
  }

  lemma {:induction false} PartsHave(parts: seq<string>, d: nat)
    requires PartsDays(parts).Some?
    ensures d in PartsDays(parts).value <==> SomeReads(parts, d)
  {
    if parts != [] {
      var n := |parts| - 1;
      PartsHave(parts[..n], d);
      OneMoreReads(parts[..n], parts[n], d);
      assert parts == parts[..n] + [parts[n]];
    }
  }

  /** A list is accepted exactly when each element is, and has the days of all of them. */
  lemma PartsDaysExact(parts: seq<string>)
    ensures PartsDays(parts).Some? <==> forall i :: 0 <= i < |parts| ==> PartDays(parts[i]).Some?
    ensures PartsDays(parts).Some? ==> forall d: nat :: d in PartsDays(parts).value <==> SomeReads(parts, d)
  {
    PartsAccepted(parts);
    forall d: nat | PartsDays(parts).Some? ensures d in PartsDays(parts).value <==> SomeReads(parts, d) {
      PartsHave(parts, d);
    }
  }

  lemma OneBadPart(parts: seq<string>, k: nat)
    requires k < |parts| && PartDays(parts[k]).None?
    ensures PartsDays(parts).None?
  {
    PartsDaysExact(parts);
  }

  lemma SomeDay(parts: seq<string>)
    requires parts != [] && PartsDays(parts).Some?
    ensures PartsDays(parts).value != {}
  {
  }

  /** Where the first white space is. */
  function FirstSpace(s: string): (i: nat)
    ensures i <= |s| && (i < |s| ==> IsSpace(s[i]))
    ensures forall j :: 0 <= j < i ==> !IsSpace(s[j])
  {
    if s == "" || IsSpace(s[0]) then 0 else FirstSpace(s[1..]) + 1
  }

  function SplitSpaces(s: string): (fields: seq<string>)
    ensures fields != []
    decreases |s|
  {
    var i := FirstSpace(s);
    if i == |s| then [s]
    else
      TrimStartShorter(s[i..]);
      [s[..i]] + SplitSpaces(TrimStart(s[i..]))
  }

  lemma {:induction false} TrimStartShorter(s: string)
    ensures |TrimStart(s)| <= |s| && (s != "" && IsSpace(s[0]) ==> |TrimStart(s)| < |s|)
  {
    if s != "" && IsSpace(s[0]) {
      TrimStartShorter(s[1..]);
    }
  }

  function Fields(expr: string): seq<string> {
    SplitSpaces(Trim(expr))
  }

  function ParseCron(expr: string): Option<Preset> {
    var parts := Fields(expr);
    if |parts| != 5 then None else ParseFields(parts[0], parts[1], parts[2], parts[3], parts[4])
  }

  function ParseFields(min: string, hour: string, dom: string, month: string, dow: string): Option<Preset> {
    if min == "" || hour == "" || dom == "" || month == "" || dow == "" || month != "*" then None
    else if min == "*" && hour == "*" && dom == "*" && dow == "*" then Some(DEFAULT_PRESET.(frequency := Minute))
    else
      var m := IntField(min, 0, 59);
      if m.Some? && hour == "*" && dom == "*" && dow == "*" then
        Some(DEFAULT_PRESET.(frequency := Hourly, minute := m.value))
      else
        var h := IntField(hour, 0, 23);
        if m.None? || h.None? then None
        else if dom == "*" && dow == "*" then
          Some(DEFAULT_PRESET.(frequency := Daily, minute := m.value, hour := h.value))
        else if dom == "*" && dow != "*" then
          var weekdays := Weekdays(dow);
          if weekdays.None? then None
          else Some(DEFAULT_PRESET.(frequency := Weekly, minute := m.value, hour := h.value, weekdays := weekdays.value))
        else if dow == "*" && dom != "*" then
          var d := IntField(dom, 1, 31);
          if d.None? then None
          else Some(DEFAULT_PRESET.(frequency := Monthly, minute := m.value, hour := h.value, dayOfMonth := d.value))
        else None
  }

  // ---------- Fields of a printed line ----------

  /** A field: not empty, no white space. */
  predicate IsField(f: string) {
    f != "" && forall i :: 0 <= i < |f| ==> !IsSpace(f[i])
  }

  lemma FirstField(f: string, rest: string)
    requires IsField(f) && (rest != "" ==> !IsSpace(rest[0]))
    ensures SplitSpaces(f + " " + rest) == [f] + SplitSpaces(rest)
  {
    var s := f + " " + rest;
    assert s[|f|] == ' ' && forall j :: 0 <= j < |f| ==> s[j] == f[j];
    assert FirstSpace(s) == |f|;
    assert s[..|f|] == f;
    assert s[|f|..][1..] == rest;
    assert TrimStart(s[|f|..]) == rest;
  }

  lemma LastField(f: string)
    requires IsField(f)
    ensures SplitSpaces(f) == [f]
  {
  }

  /** No white space at the ends. */
  predicate IsTrimmed(s: string) {
    s != "" && !IsSpace(s[0]) && !IsSpace(s[|s| - 1])
  }

  lemma TwoFields(f: string, rest: string)
    requires IsField(f) && IsTrimmed(rest)
    ensures IsTrimmed(f + " " + rest) && SplitSpaces(f + " " + rest) == [f] + SplitSpaces(rest)
  {
    var s := f + " " + rest;
    assert s[0] == f[0] && s[|s| - 1] == rest[|rest| - 1];
    FirstField(f, rest);
  }

  ghost predicate AllFields(fields: seq<string>) {
    forall i :: 0 <= i < |fields| ==> IsField(fields[i])
  }

  lemma {:induction false} FieldsOfLine(fields: seq<string>)
    requires fields != [] && AllFields(fields)
    ensures IsTrimmed(Join(fields, ' ')) && SplitSpaces(Join(fields, ' ')) == fields
  {
    if |fields| == 1 {
      LastField(fields[0]);
    } else {
      FieldsOfLine(fields[1..]);
      TwoFields(fields[0], Join(fields[1..], ' '));
    }
  }

  lemma ParseLine(fields: seq<string>)
    requires |fields| == 5 && AllFields(fields)
    ensures Fields(Join(fields, ' ')) == fields
    ensures ParseCron(Join(fields, ' ')) == ParseFields(fields[0], fields[1], fields[2], fields[3], fields[4])
  {
    FieldsOfLine(fields);
    assert Trim(Join(fields, ' ')) == Join(fields, ' ');
  }

  lemma DecimalIsField(n: nat)
    ensures IsField(Decimal(n)) && IsNumber(Decimal(n)) && Value(Decimal(n)) == n
  {
    ValueOfDecimal(n);
  }

  lemma {:induction false} JoinIsField(parts: seq<string>)
    requires parts != [] && forall i :: 0 <= i < |parts| ==> IsField(parts[i])
    ensures IsField(Join(parts, ','))
  {
    if |parts| > 1 {
      JoinIsField(parts[1..]);
    }
  }

  // ---------- Round trips ----------

  predicate InRange(p: Preset) {
    && p.minute <= 59 && p.hour <= 23 && 1 <= p.dayOfMonth <= 31
    && forall i :: 0 <= i < |p.weekdays| ==> p.weekdays[i] < 7
  }

  function ToSet(s: seq<nat>): set<nat> { set d | d in s }

  /** The preset with the fields that its frequency does not use at their defaults, and its weekdays sorted,
      without duplicates, and Sunday when there are none. */
  function Normal(p: Preset): Preset {
    match p.frequency
    case Minute => DEFAULT_PRESET.(frequency := Minute)
    case Hourly => DEFAULT_PRESET.(frequency := Hourly, minute := p.minute)
    case Daily => DEFAULT_PRESET.(frequency := Daily, minute := p.minute, hour := p.hour)
    case Weekly =>
      DEFAULT_PRESET.(frequency := Weekly, minute := p.minute, hour := p.hour, weekdays := Ascending(ToSet(Days(p)), 7))
    case Monthly =>
      DEFAULT_PRESET.(frequency := Monthly, minute := p.minute, hour := p.hour, dayOfMonth := p.dayOfMonth)
    case Custom => p
  }

  lemma {:induction false} InsertMembers(x: nat, s: seq<nat>)
    ensures |Insert(x, s)| == |s| + 1
    ensures forall d :: d in Insert(x, s) <==> d == x || d in s
  {
    if s != [] && x >= s[0] {
      InsertMembers(x, s[1..]);
      assert s == [s[0]] + s[1..];
    }
  }

  lemma {:induction false} SortMembers(s: seq<nat>)
    ensures |Sort(s)| == |s| && forall d :: d in Sort(s) <==> d in s
  {
    if s != [] {
      SortMembers(s[..|s| - 1]);
      InsertMembers(s[|s| - 1], Sort(s[..|s| - 1]));
      assert s == s[..|s| - 1] + [s[|s| - 1]];
    }
  }

  predicate IsSorted(s: seq<nat>) {
    forall i, j :: 0 <= i < j < |s| ==> s[i] <= s[j]
  }

  lemma PutFirst(x: nat, s: seq<nat>)
    requires IsSorted(s) && forall d <- s :: x <= d
    ensures IsSorted([x] + s) && multiset([x] + s) == multiset(s) + multiset{x}
  {
    assert forall i :: 0 <= i < |s| ==> s[i] in s;
  }

  lemma {:induction false} InsertSorts(x: nat, s: seq<nat>)
    requires IsSorted(s)
    ensures IsSorted(Insert(x, s)) && multiset(Insert(x, s)) == multiset(s) + multiset{x}
  {
    if s == [] || x < s[0] {
      PutFirst(x, s);
    } else {
      var tail := s[1..];
      assert s == [s[0]] + tail;
      InsertSorts(x, tail);
      InsertMembers(x, tail);
      PutFirst(s[0], tail);
      PutFirst(s[0], Insert(x, tail));
    }
  }

  /** The printed days are those of the preset in ascending order. */
  lemma {:induction false} SortSorts(s: seq<nat>)
    ensures IsSorted(Sort(s)) && multiset(Sort(s)) == multiset(s)
  {
    if s != [] {
      SortSorts(s[..|s| - 1]);
      InsertSorts(s[|s| - 1], Sort(s[..|s| - 1]));
      assert s == s[..|s| - 1] + [s[|s| - 1]];
    }
  }

  lemma DecimalPart(n: nat)
    requires n < 7
    ensures Split(Decimal(n), '-') == [Decimal(n)] && PartDays(Decimal(n)) == Some({n})
  {
    DecimalIsField(n);
    DigitsLack(Decimal(n), '-');
    SplitOfNone(Decimal(n), '-');
  }

  /** A printed list of days. */
  lemma SplitOfDays(days: seq<nat>)
    requires days != []
    ensures IsField(Join(Decimals(days), ',')) && Split(Join(Decimals(days), ','), ',') == Decimals(days)
  {
    var parts := Decimals(days);
    forall i | 0 <= i < |days| ensures IsField(parts[i]) && ',' !in parts[i] {
      DecimalIsField(days[i]);
      DigitsLack(parts[i], ',');
    }
    JoinIsField(parts);
    SplitOfJoin(parts, ',');
  }

  lemma WeekdaysReadBack(days: seq<nat>)
    requires days != [] && forall i :: 0 <= i < |days| ==> days[i] < 7
    ensures Weekdays(Join(Decimals(days), ',')) == Some(Ascending(ToSet(days), 7))
  {
    var parts := Decimals(days);
    SplitOfDays(days);
    forall i | 0 <= i < |days| ensures PartDays(parts[i]) == Some({days[i]}) {
      DecimalPart(days[i]);
    }
    PartsDaysExact(parts);
    forall d: nat ensures d in PartsDays(parts).value <==> d in ToSet(days) {
      if d in days {
        var i :| 0 <= i < |days| && days[i] == d;
        assert d in PartDays(parts[i]).value;
      }
    }
    assert PartsDays(parts).value == ToSet(days);
  }

  lemma DaysSorted(p: Preset)
    requires InRange(p)
    ensures Sort(Days(p)) != [] && forall i :: 0 <= i < |Sort(Days(p))| ==> Sort(Days(p))[i] < 7
    ensures ToSet(Sort(Days(p))) == ToSet(Days(p))
  {
    SortMembers(Days(p));
    forall i | 0 <= i < |Sort(Days(p))| ensures Sort(Days(p))[i] < 7 {
      assert Sort(Days(p))[i] in Days(p);
    }
  }

  lemma StarIsNoDay()
    ensures Weekdays("*").None?
  {
    SplitOfNone("*", ',');
    SplitOfNone("*", '-');
    assert !IsNumber("*");
    var none: seq<string> := [];
    assert ["*"][..0] == none;
    assert PartDays("*").None?;
  }

  lemma WeeklyReadsBack(p: Preset)
    requires InRange(p) && p.frequency.Weekly?
    ensures Weekdays(PresetFields(p)[4]) == Some(Ascending(ToSet(Days(p)), 7)) && IsField(PresetFields(p)[4])
  {
    DaysSorted(p);
    SplitOfDays(Sort(Days(p)));
    WeekdaysReadBack(Sort(Days(p)));
  }

  predicate Reads(field: string, n: nat, min: nat, max: nat) {
    field != "*" && field != "" && IntField(field, min, max) == Some(n)
  }

  lemma HourlyFields(min: string, m: nat)
    requires Reads(min, m, 0, 59)
    ensures ParseFields(min, "*", "*", "*", "*") == Some(DEFAULT_PRESET.(frequency := Hourly, minute := m))
  {
  }

  lemma DailyFields(min: string, m: nat, hour: string, h: nat)
    requires Reads(min, m, 0, 59) && Reads(hour, h, 0, 23)
    ensures ParseFields(min, hour, "*", "*", "*") == Some(DEFAULT_PRESET.(frequency := Daily, minute := m, hour := h))
  {
  }

  lemma MonthlyFields(min: string, m: nat, hour: string, h: nat, dom: string, d: nat)
    requires Reads(min, m, 0, 59) && Reads(hour, h, 0, 23) && Reads(dom, d, 1, 31)
    ensures ParseFields(min, hour, dom, "*", "*")
            == Some(DEFAULT_PRESET.(frequency := Monthly, minute := m, hour := h, dayOfMonth := d))
  {
  }

  lemma WeeklyFields(min: string, m: nat, hour: string, h: nat, dow: string, days: seq<nat>)
    requires Reads(min, m, 0, 59) && Reads(hour, h, 0, 23) && dow != "" && Weekdays(dow) == Some(days)
    ensures ParseFields(min, hour, "*", "*", dow)
            == Some(DEFAULT_PRESET.(frequency := Weekly, minute := m, hour := h, weekdays := days))
  {
    StarIsNoDay();
  }

  lemma DecimalReads(n: nat, min: nat, max: nat)
    requires min <= n <= max
    ensures Reads(Decimal(n), n, min, max) && IsField(Decimal(n))
  {
    DecimalIsField(n);
    assert !IsDigit('*');
  }

  lemma FieldsReadBack(p: Preset)
    requires InRange(p) && !p.frequency.Custom?
    ensures var f := PresetFields(p);
            AllFields(f) && ParseFields(f[0], f[1], f[2], f[3], f[4]) == Some(Normal(p))
  {
    var m, h, d := Decimal(p.minute), Decimal(p.hour), Decimal(p.dayOfMonth);
    DecimalReads(p.minute, 0, 59);
    DecimalReads(p.hour, 0, 23);
    DecimalReads(p.dayOfMonth, 1, 31);
    match p.frequency
    case Minute =>
    case Hourly => HourlyFields(m, p.minute);
    case Daily => DailyFields(m, p.minute, h, p.hour);
    case Weekly =>
      WeeklyReadsBack(p);
      WeeklyFields(m, p.minute, h, p.hour, PresetFields(p)[4], Ascending(ToSet(Days(p)), 7));
    case Monthly => MonthlyFields(m, p.minute, h, p.hour, d, p.dayOfMonth);
  }

  /** Printing and reading back. */
  lemma ParseUndoesBuild(p: Preset)
    requires InRange(p) && !p.frequency.Custom?
    ensures Fields(BuildCron(p)) == PresetFields(p) && ParseCron(BuildCron(p)) == Some(Normal(p))
  {
    FieldsReadBack(p);
    ParseLine(PresetFields(p));
  }

  // ---------- What an expression means ----------

  datatype Time = Time(minute: nat, hour: nat, dayOfMonth: nat, month: nat, weekday: nat)

  predicate IsTime(t: Time) {
    t.minute <= 59 && t.hour <= 23 && 1 <= t.dayOfMonth <= 31 && 1 <= t.month <= 12 && t.weekday < 7
  }

  /** A number, or two numbers with a hyphen and all between them. */
  predicate PartHas(part: string, v: nat) {
    var range := Split(part, '-');
    if |range| == 1 then IsNumber(range[0]) && Value(range[0]) == v
    else |range| == 2 && IsNumber(range[0]) && IsNumber(range[1]) && Value(range[0]) <= v <= Value(range[1])
  }

  /** A star, or a list of elements. */
  predicate FieldHas(field: string, v: nat) {
    field == "*" || exists i :: 0 <= i < |Split(field, ',')| && PartHas(Split(field, ',')[i], v)
  }

  predicate PartHasDay(part: string, d: nat) {
    PartHas(part, d) || (d == 0 && PartHas(part, 7))
  }

  predicate HasDay(field: string, d: nat) {
    FieldHas(field, d) || (d == 0 && FieldHas(field, 7))
  }

  /** The day matches by the month or by the week when both are restricted, and by both otherwise. */
  predicate Matches(f: seq<string>, t: Time)
    requires |f| == 5
  {
    && FieldHas(f[0], t.minute) && FieldHas(f[1], t.hour) && FieldHas(f[3], t.month)
    && (if f[2] != "*" && f[4] != "*" then FieldHas(f[2], t.dayOfMonth) || HasDay(f[4], t.weekday)
        else FieldHas(f[2], t.dayOfMonth) && HasDay(f[4], t.weekday))
  }

  predicate CronMatches(expr: string, t: Time) {
    |Fields(expr)| == 5 && Matches(Fields(expr), t)
  }

  predicate PresetMatches(p: Preset, t: Time) {
    match p.frequency
    case Minute => true
    case Hourly => t.minute == p.minute
    case Daily => t.minute == p.minute && t.hour == p.hour
    case Weekly =>
      t.minute == p.minute && t.hour == p.hour
      && if p.weekdays == [] then t.weekday == 0 else t.weekday in p.weekdays
    case Monthly => t.minute == p.minute && t.hour == p.hour && t.dayOfMonth == p.dayOfMonth
    case Custom => false
  }

  lemma NumberHas(field: string, v: nat)
    requires IsNumber(field)
    ensures field != "*" && (FieldHas(field, v) <==> Value(field) == v)
  {
    DigitsLack(field, ',');
    DigitsLack(field, '-');
    SplitOfNone(field, ',');
    SplitOfNone(field, '-');
    assert !IsDigit('*');
    assert Split(field, ',')[0] == field;
  }

  /** A range with 7 as one of its bounds, not both. */
  predicate OneSeven(part: string) {
    var range := Split(part, '-');
    && |range| == 2 && IsNumber(range[0]) && IsNumber(range[1])
    && (Value(range[0]) == 7) != (Value(range[1]) == 7)
  }

  predicate DaysMeant(part: string, days: set<nat>) {
    forall d :: 0 <= d < 7 ==> (d in days <==> PartHasDay(part, d))
  }

  /** An element is read as what it means exactly when it is no range with 7 at one end. */
  lemma PartReadAsMeantIff(part: string)
    requires PartDays(part).Some?
    ensures DaysMeant(part, PartDays(part).value) <==> !OneSeven(part)
  {
    var days := PartDays(part).value;
    if OneSeven(part) {
      if Value(Split(part, '-')[0]) == 7 {
        assert 0 in days && !PartHasDay(part, 0);
      } else {
        assert 1 !in days && PartHasDay(part, 1);
      }
    }
  }

  ghost predicate NoSeven(field: string) {
    forall i :: 0 <= i < |Split(field, ',')| ==> !OneSeven(Split(field, ',')[i])
  }

  lemma WeekdaysMean(field: string, d: nat)
    requires Weekdays(field).Some? && NoSeven(field) && d < 7
    ensures field != "*" && (d in Weekdays(field).value <==> HasDay(field, d))
  {
    var parts := Split(field, ',');
    StarIsNoDay();
    PartsDaysExact(parts);
    forall i | 0 <= i < |parts| ensures d in PartDays(parts[i]).value <==> PartHasDay(parts[i], d) {
      PartReadAsMeantIff(parts[i]);
    }
    HasDayByPart(field, parts, d);
  }

  lemma HasDayByPart(field: string, parts: seq<string>, d: nat)
    requires field != "*" && parts == Split(field, ',')
    ensures HasDay(field, d) <==> exists i :: 0 <= i < |parts| && PartHasDay(parts[i], d)
  {
    forall i | 0 <= i < |parts| && PartHasDay(parts[i], d) ensures HasDay(field, d) {
      if PartHas(parts[i], d) {
        assert FieldHas(field, d);
      } else {
        assert PartHas(parts[i], 7) && FieldHas(field, 7);
      }
    }
    if FieldHas(field, d) {
      var i :| 0 <= i < |parts| && PartHas(parts[i], d);
      assert PartHasDay(parts[i], d);
      assert exists j :: 0 <= j < |parts| && PartHasDay(parts[j], d);
    } else if HasDay(field, d) {
      var i :| 0 <= i < |parts| && PartHas(parts[i], 7);
      assert PartHasDay(parts[i], d);
      assert exists j :: 0 <= j < |parts| && PartHasDay(parts[j], d);
    }
  }

  predicate IsNumeral(field: string, n: nat) {
    field != "*" && IsNumber(field) && Value(field) == n
  }

  predicate IsDayList(field: string, days: seq<nat>) {
    field != "*" && Weekdays(field) == Some(days)
  }

  /** The fields that are read as the preset. */
  predicate Shape(p: Preset, f: seq<string>)
    requires |f| == 5
  {
    && f[3] == "*"
    && (if p.frequency.Minute? then f[0] == "*" else IsNumeral(f[0], p.minute))
    && (if p.frequency.Minute? || p.frequency.Hourly? then f[1] == "*" else IsNumeral(f[1], p.hour))
    && (if p.frequency.Monthly? then IsNumeral(f[2], p.dayOfMonth) else f[2] == "*")
    && (if p.frequency.Weekly? then IsDayList(f[4], p.weekdays) else f[4] == "*")
  }

  lemma ParseShape(f: seq<string>)
    requires |f| == 5 && ParseFields(f[0], f[1], f[2], f[3], f[4]).Some?
    ensures var p := ParseFields(f[0], f[1], f[2], f[3], f[4]).value; Shape(p, f) && !p.frequency.Custom?
  {
    assert !IsDigit('*');
  }

  lemma NumeralHas(field: string, v: nat)
    ensures field == "*" ==> FieldHas(field, v)
    ensures forall n :: IsNumeral(field, n) ==> (FieldHas(field, v) <==> v == n)
  {
    if IsNumber(field) { NumberHas(field, v); }
  }

  lemma DayListHas(field: string, d: nat)
    requires NoSeven(field) && d < 7
    ensures field == "*" ==> HasDay(field, d)
    ensures forall days :: IsDayList(field, days) ==> (HasDay(field, d) <==> d in days)
  {
    if Weekdays(field).Some? { WeekdaysMean(field, d); }
  }

  lemma ShapeMeans(p: Preset, f: seq<string>, t: Time)
    requires |f| == 5 && Shape(p, f) && !p.frequency.Custom? && IsTime(t) && NoSeven(f[4])
    requires p.frequency.Weekly? ==> p.weekdays != []
    ensures Matches(f, t) <==> PresetMatches(p, t)
  {
    NumeralHas(f[0], t.minute);
    NumeralHas(f[1], t.hour);
    NumeralHas(f[2], t.dayOfMonth);
    NumeralHas(f[3], t.month);
    DayListHas(f[4], t.weekday);
  }

  /** The expression that is read as a preset means what the preset does, with no 7 at one end of a range. */
  lemma ParseKeepsMeaning(expr: string, t: Time)
    requires ParseCron(expr).Some? && IsTime(t) && NoSeven(Fields(expr)[4])
    ensures CronMatches(expr, t) <==> PresetMatches(ParseCron(expr).value, t)
  {
    ParseShape(Fields(expr));
    if ParseCron(expr).value.frequency.Weekly? {
      AscendingAgain(Fields(expr)[4]);
    }
    ShapeMeans(ParseCron(expr).value, Fields(expr), t);
  }

  lemma ParsedIsNormal(expr: string)
    requires ParseCron(expr).Some?
    ensures var p := ParseCron(expr).value; InRange(p) && !p.frequency.Custom? && Normal(p) == p
  {
    var p := ParseCron(expr).value;
    if p.frequency.Weekly? {
      var days := PartsDays(Split(Fields(expr)[4], ',')).value;
      assert forall i :: 0 <= i < |p.weekdays| ==> p.weekdays[i] in p.weekdays;
      SomeDay(Split(Fields(expr)[4], ','));
      AscendingAgain(Fields(expr)[4]);
    }
  }

  lemma AscendingOf(days: set<nat>)
    requires days != {} && forall d <- days :: d < 7
    ensures Ascending(days, 7) != [] && ToSet(Ascending(days, 7)) == days
  {
    forall d: nat ensures d in ToSet(Ascending(days, 7)) <==> d in days {
      assert d in Ascending(days, 7) <==> d in days;
    }
    assert ToSet(Ascending(days, 7)) == days;
    assert ToSet([]) == {};
  }

  lemma AscendingAgain(field: string)
    requires Weekdays(field).Some?
    ensures Weekdays(field).value != [] && Ascending(ToSet(Weekdays(field).value), 7) == Weekdays(field).value
  {
    var parts := Split(field, ',');
    var days := PartsDays(parts).value;
    PartsDaysExact(parts);
    SomeDay(parts);
    assert forall d <- days :: d < 7;
    AscendingOf(days);
  }

  /** Reading and printing back: the same preset again, and the same times unless a range has 7 at one end. */
  lemma BuildUndoesParse(expr: string, t: Time)
    requires ParseCron(expr).Some? && IsTime(t)
    ensures var p := ParseCron(expr).value;
            && ParseCron(BuildCron(p)) == Some(p)
            && (CronMatches(BuildCron(p), t) <==> PresetMatches(p, t))
            && (NoSeven(Fields(expr)[4]) ==> (CronMatches(BuildCron(p), t) <==> CronMatches(expr, t)))
  {
    var p := ParseCron(expr).value;
    ParsedIsNormal(expr);
    ParseUndoesBuild(p);
    BuiltHasNoSeven(p);
    ParseKeepsMeaning(BuildCron(p), t);
    if NoSeven(Fields(expr)[4]) {
      ParseKeepsMeaning(expr, t);
    }
  }

  lemma BuiltHasNoSeven(p: Preset)
    requires InRange(p) && !p.frequency.Custom?
    ensures NoSeven(PresetFields(p)[4])
  {
    if p.frequency.Weekly? {
      var days := Sort(Days(p));
      DaysSorted(p);
      SplitOfDays(days);
      forall i | 0 <= i < |days| ensures !OneSeven(Decimals(days)[i]) {
        DecimalPart(days[i]);
      }
    } else {
      SplitOfNone("*", ',');
      SplitOfNone("*", '-');
    }
  }

  /** The printed expression means the preset it was printed from. */
  lemma BuildKeepsMeaning(p: Preset, t: Time)
    requires InRange(p) && !p.frequency.Custom? && IsTime(t)
    ensures CronMatches(BuildCron(p), t) <==> PresetMatches(p, t)
  {
    ParseUndoesBuild(p);
    BuiltHasNoSeven(p);
    ParseKeepsMeaning(BuildCron(p), t);
    NormalMeans(p, t);
  }

  lemma NormalMeans(p: Preset, t: Time)
    requires InRange(p) && IsTime(t)
    ensures PresetMatches(Normal(p), t) <==> PresetMatches(p, t)
  {
    if p.frequency.Weekly? {
      forall d <- ToSet(Days(p)) ensures d < 7 {
        var i :| 0 <= i < |Days(p)| && Days(p)[i] == d;
      }
      assert Days(p)[0] in ToSet(Days(p));
      AscendingOf(ToSet(Days(p)));
    }
  }

  // ---------- Ranges with 7 at one end ----------

  ghost predicate SameTimes(e: string, o: string) {
    forall t :: IsTime(t) ==> (CronMatches(e, t) <==> CronMatches(o, t))
  }

  lemma WeeklyMeans(expr: string, t: Time)
    requires ParseCron(expr).Some? && ParseCron(expr).value.frequency.Weekly?
    ensures var p := ParseCron(expr).value;
            CronMatches(expr, t) <==> t.minute == p.minute && t.hour == p.hour && HasDay(Fields(expr)[4], t.weekday)
  {
    var f := Fields(expr);
    NumberHas(f[0], t.minute);
    NumberHas(f[1], t.hour);
  }

  predicate RightSeven(part: string) {
    OneSeven(part) && Value(Split(part, '-')[1]) == 7
  }

  predicate LeftSeven(part: string) {
    OneSeven(part) && Value(Split(part, '-')[0]) == 7
  }

  /** How an element is read, and what it means. */
  lemma ReadAgainstMeant(part: string, d: nat)
    requires PartDays(part).Some? && d < 7
    ensures RightSeven(part) ==> PartHasDay(part, d) && (ReadHas(part, d) <==> d == 0)
    ensures LeftSeven(part) ==> !PartHasDay(part, d) && ReadHas(part, 0)
    ensures !OneSeven(part) ==> (ReadHas(part, d) <==> PartHasDay(part, d))
  {
    if !OneSeven(part) { PartReadAsMeantIff(part); }
  }

  ghost predicate SomeMeans(parts: seq<string>, d: nat) {
    exists i :: 0 <= i < |parts| && PartHasDay(parts[i], d)
  }

  /** Without an element like "7-3", the day is read from the list all the same. */
  ghost predicate ReadElsewhere(parts: seq<string>, d: nat) {
    exists i :: 0 <= i < |parts| && !OneSeven(parts[i]) && ReadHas(parts[i], d)
  }

  /** Ranges with 7 at one end do no harm to the list: with an element like "0-7", which means every day, the others
      are read as all days but Sunday; and otherwise each day that is read from an element like "7-3", which means no
      day, is a day of an element without such a 7. */
  ghost predicate SevensHarmless(parts: seq<string>) {
    if exists i :: 0 <= i < |parts| && RightSeven(parts[i]) then
      forall d :: 1 <= d < 7 ==> SomeReads(parts, d)
    else
      forall i, d: nat :: 0 <= i < |parts| && LeftSeven(parts[i]) && ReadHas(parts[i], d) ==> ReadElsewhere(parts, d)
  }

  ghost predicate AllPartsRead(parts: seq<string>) {
    forall i :: 0 <= i < |parts| ==> PartDays(parts[i]).Some?
  }

  lemma WithRightSeven(parts: seq<string>, i: nat)
    requires AllPartsRead(parts) && i < |parts| && RightSeven(parts[i])
    ensures SomeReads(parts, 0) && forall d: nat :: d < 7 ==> SomeMeans(parts, d)
  {
    ReadAgainstMeant(parts[i], 0);
    forall d: nat | d < 7 ensures SomeMeans(parts, d) {
      ReadAgainstMeant(parts[i], d);
    }
  }

  lemma WithoutRightSeven(parts: seq<string>, d: nat)
    requires AllPartsRead(parts) && d < 7 && forall i :: 0 <= i < |parts| ==> !RightSeven(parts[i])
    ensures SomeMeans(parts, d) <==> ReadElsewhere(parts, d)
  {
    forall i | 0 <= i < |parts|
      ensures PartHasDay(parts[i], d) <==> !OneSeven(parts[i]) && ReadHas(parts[i], d)
    {
      ReadAgainstMeant(parts[i], d);
    }
    if i :| 0 <= i < |parts| && PartHasDay(parts[i], d) {
      assert !OneSeven(parts[i]) && ReadHas(parts[i], d);
    }
    if i :| 0 <= i < |parts| && !OneSeven(parts[i]) && ReadHas(parts[i], d) {
      assert PartHasDay(parts[i], d);
    }
  }

  ghost predicate ReadAsMeant(parts: seq<string>) {
    forall d: nat :: d < 7 ==> (SomeReads(parts, d) <==> SomeMeans(parts, d))
  }

  /** A list is read as it is meant exactly when its ranges with 7 at one end do no harm. */
  lemma ReadAsMeantIff(parts: seq<string>)
    requires AllPartsRead(parts)
    ensures ReadAsMeant(parts) <==> SevensHarmless(parts)
  {
    if i :| 0 <= i < |parts| && RightSeven(parts[i]) {
      WithRightSeven(parts, i);
    } else {
      forall d: nat | d < 7 ensures SomeMeans(parts, d) <==> ReadElsewhere(parts, d) {
        WithoutRightSeven(parts, d);
      }
      ReadElsewhereIff(parts);
    }
  }

  lemma ReadElsewhereIff(parts: seq<string>)
    requires AllPartsRead(parts) && forall i :: 0 <= i < |parts| ==> !RightSeven(parts[i])
    ensures (forall d: nat :: d < 7 ==> (SomeReads(parts, d) <==> ReadElsewhere(parts, d))) <==> SevensHarmless(parts)
  {
    forall d: nat | ReadElsewhere(parts, d) ensures SomeReads(parts, d) {
      var i :| 0 <= i < |parts| && !OneSeven(parts[i]) && ReadHas(parts[i], d);
    }
    if SevensHarmless(parts) {
      forall d: nat | SomeReads(parts, d) ensures ReadElsewhere(parts, d) {
        var i :| 0 <= i < |parts| && ReadHas(parts[i], d);
        assert OneSeven(parts[i]) ==> LeftSeven(parts[i]);
      }
    }
    forall i, d: nat | 0 <= i < |parts| && ReadHas(parts[i], d) ensures d < 7 && SomeReads(parts, d) {}
  }

  lemma WeeklyRead(expr: string)
    requires ParseCron(expr).Some? && ParseCron(expr).value.frequency.Weekly?
    ensures var p := ParseCron(expr).value;
            Weekdays(Fields(expr)[4]) == Some(p.weekdays) && p.weekdays != [] && p.minute <= 59 && p.hour <= 23
  {
    AscendingAgain(Fields(expr)[4]);
  }

  lemma WeekdaysAndParts(field: string, d: nat)
    requires Weekdays(field).Some? && d < 7
    ensures AllPartsRead(Split(field, ','))
    ensures d in Weekdays(field).value <==> SomeReads(Split(field, ','), d)
    ensures HasDay(field, d) <==> SomeMeans(Split(field, ','), d)
  {
    var parts := Split(field, ',');
    StarIsNoDay();
    PartsDaysExact(parts);
    HasDayByPart(field, parts, d);
  }

  /** At a time of the right minute and hour the expression and its rebuilt form go by the day. */
  lemma SameAtIff(expr: string, t: Time)
    requires ParseCron(expr).Some? && ParseCron(expr).value.frequency.Weekly? && IsTime(t)
    ensures var p, parts := ParseCron(expr).value, Split(Fields(expr)[4], ',');
            (CronMatches(BuildCron(p), t) <==> CronMatches(expr, t)) <==>
              (t.minute == p.minute && t.hour == p.hour ==> (SomeReads(parts, t.weekday) <==> SomeMeans(parts, t.weekday)))
  {
    WeeklyRead(expr);
    BuildUndoesParse(expr, t);
    WeeklyMeans(expr, t);
    WeekdaysAndParts(Fields(expr)[4], t.weekday);
  }

  lemma SameOnDay(expr: string, d: nat)
    requires ParseCron(expr).Some? && ParseCron(expr).value.frequency.Weekly? && d < 7
    requires SameTimes(BuildCron(ParseCron(expr).value), expr)
    ensures SomeReads(Split(Fields(expr)[4], ','), d) <==> SomeMeans(Split(Fields(expr)[4], ','), d)
  {
    var p := ParseCron(expr).value;
    var t := Time(p.minute, p.hour, 1, 1, d);
    WeeklyRead(expr);
    assert IsTime(t);
    SameAtIff(expr, t);
  }

  lemma SameReadsAsMeant(expr: string)
    requires ParseCron(expr).Some? && ParseCron(expr).value.frequency.Weekly?
    ensures SameTimes(BuildCron(ParseCron(expr).value), expr) ==> ReadAsMeant(Split(Fields(expr)[4], ','))
  {
    var p, parts := ParseCron(expr).value, Split(Fields(expr)[4], ',');
    WeeklyRead(expr);
    if SameTimes(BuildCron(p), expr) {
      forall d: nat | d < 7 ensures SomeReads(parts, d) <==> SomeMeans(parts, d) {
        SameOnDay(expr, d);
      }
    }
  }

  lemma ReadAsMeantIsSame(expr: string)
    requires ParseCron(expr).Some? && ParseCron(expr).value.frequency.Weekly?
    ensures ReadAsMeant(Split(Fields(expr)[4], ',')) ==> SameTimes(BuildCron(ParseCron(expr).value), expr)
  {
    var built := BuildCron(ParseCron(expr).value);
    forall t | IsTime(t) && ReadAsMeant(Split(Fields(expr)[4], ','))
      ensures CronMatches(built, t) <==> CronMatches(expr, t)
    {
      SameAtIff(expr, t);
    }
  }

  /** For every accepted weekly expression: reading and printing back keeps the times exactly when the ranges with 7 at
      one end do no harm. */
  lemma WeeklyKeptIff(expr: string)
    requires ParseCron(expr).Some? && ParseCron(expr).value.frequency.Weekly?
    ensures SameTimes(BuildCron(ParseCron(expr).value), expr) <==> SevensHarmless(Split(Fields(expr)[4], ','))
  {
    WeeklyRead(expr);
    WeekdaysAndParts(Fields(expr)[4], 0);
    ReadAsMeantIff(Split(Fields(expr)[4], ','));
    SameReadsAsMeant(expr);
    ReadAsMeantIsSame(expr);
  }

  /** And for every other accepted expression it always does. */
  lemma OthersAreKept(expr: string)
    requires ParseCron(expr).Some? && !ParseCron(expr).value.frequency.Weekly?
    ensures SameTimes(BuildCron(ParseCron(expr).value), expr)
  {
    ParseShape(Fields(expr));
    SplitOfNone("*", ',');
    SplitOfNone("*", '-');
    forall t | IsTime(t) ensures CronMatches(BuildCron(ParseCron(expr).value), t) <==> CronMatches(expr, t) {
      BuildUndoesParse(expr, t);
    }
  }

  /** "0-7" is every day, and is read as Sunday only. */
  lemma SevenIsReadAsSunday()
    ensures PartDays("0-7") == Some({0}) && forall d :: 0 <= d < 7 ==> PartHasDay("0-7", d)
  {
    SplitAtFirst("0", '-', "7");
    SplitOfNone("7", '-');
    assert "0" + ['-'] + "7" == "0-7";
    assert "0"[..0] == "" && "7"[..0] == "";
    assert Value("0") == 0 && Value("7") == 7;
  }

  // ---------- Exactly what is read ----------

  /** A day by its number, where 7 is Sunday as well as 0. */
  predicate IsDayNumber(text: string, d: nat) {
    IsNumber(text) && Value(text) <= 7 && d == Value(text) % 7
  }

  ghost predicate IsDayRange(part: string, days: set<nat>) {
    exists a: string, b: string, c: nat, d: nat :: RangeOf(part, a, b, c, d) && FromTo(days, c, d)
  }

  /** These days and all between. */
  ghost predicate FromTo(days: set<nat>, c: nat, d: nat) {
    forall x: nat :: x in days <==> c <= x <= d
  }

  ghost predicate IsOneDay(part: string, days: set<nat>) {
    exists d: nat :: IsDayNumber(part, d) && days == {d}
  }

  predicate RangeOf(part: string, a: string, b: string, c: nat, d: nat) {
    part == a + "-" + b && IsDayNumber(a, c) && IsDayNumber(b, d) && c <= d
  }

  lemma DayNumberIs(text: string, d: nat)
    ensures WeekdayNum(text) == Some(d) <==> IsDayNumber(text, d)
  {
  }

  lemma OneDay(part: string, days: set<nat>)
    requires '-' !in part
    ensures PartDays(part) == Some(days) <==> IsOneDay(part, days)
  {
    SplitOfNone(part, '-');
    if WeekdayNum(part).Some? { DayNumberIs(part, WeekdayNum(part).value); }
    forall d: nat | IsDayNumber(part, d) ensures WeekdayNum(part) == Some(d) { DayNumberIs(part, d); }
  }

  lemma DayRange(part: string, a: string, b: string, c: nat, d: nat)
    requires RangeOf(part, a, b, c, d)
    ensures PartDays(part).Some? && FromTo(PartDays(part).value, c, d)
  {
    DigitsLack(a, '-');
    DigitsLack(b, '-');
    SplitAtFirst(a, '-', b);
    SplitOfNone(b, '-');
    DayNumberIs(a, c);
    DayNumberIs(b, d);
  }

  /** An element is accepted exactly when it is a number up to 7, or two of them with a hyphen, the second not before the
      first as days from Sunday on; and it is read as that day, or as these and all between. */
  lemma PartAcceptedIff(part: string, days: set<nat>)
    ensures PartDays(part) == Some(days) <==>
            IsOneDay(part, days) || IsDayRange(part, days)
  {
    forall a: string, b: string, c: nat, d: nat | RangeOf(part, a, b, c, d) ensures '-' in part {
      assert part[|a|] == '-';
    }
    if '-' in part {
      forall d: nat ensures !IsDayNumber(part, d) { if IsNumber(part) { DigitsLack(part, '-'); } }
      if PartDays(part) == Some(days) {
        var range := Split(part, '-');
        JoinOfSplit(part, '-');
        var c, d := WeekdayNum(range[0]).value, WeekdayNum(range[1]).value;
        DayNumberIs(range[0], c);
        DayNumberIs(range[1], d);
        assert RangeOf(part, range[0], range[1], c, d);
        DayRange(part, range[0], range[1], c, d);
      }
      if a: string, b: string, c: nat, d: nat :| RangeOf(part, a, b, c, d) && FromTo(days, c, d) {
        DayRange(part, a, b, c, d);
        assert PartDays(part).value == days;
      }
    } else {
      OneDay(part, days);
    }
  }

  /** The fields with white space between them. */
  ghost function Line(fields: seq<string>, gaps: seq<string>): string
    requires |fields| == |gaps| + 1
  {
    if gaps == [] then fields[0] else fields[0] + (gaps[0] + Line(fields[1..], gaps[1..]))
  }

  ghost predicate AreGaps(gaps: seq<string>) {
    forall i :: 0 <= i < |gaps| ==> gaps[i] != "" && AllSpace(gaps[i])
  }

  lemma FieldAndGap(f: string, gap: string, rest: string)
    requires IsField(f) && gap != "" && AllSpace(gap) && IsTrimmed(rest)
    ensures IsTrimmed(f + (gap + rest)) && SplitSpaces(f + (gap + rest)) == [f] + SplitSpaces(rest)
  {
    var s := f + (gap + rest);
    assert s[0] == f[0] && s[|s| - 1] == rest[|rest| - 1] && IsSpace(s[|f|]);
    assert forall j :: 0 <= j < |f| ==> s[j] == f[j];
    assert FirstSpace(s) == |f| && s[..|f|] == f && s[|f|..] == gap + rest;
    TrimStartOf(gap, rest);
  }

  lemma {:induction false} LineSplits(fields: seq<string>, gaps: seq<string>)
    requires |fields| == |gaps| + 1 && AllFields(fields) && AreGaps(gaps)
    ensures IsTrimmed(Line(fields, gaps)) && SplitSpaces(Line(fields, gaps)) == fields
  {
    if gaps == [] {
      LastField(fields[0]);
    } else {
      LineSplits(fields[1..], gaps[1..]);
      FieldAndGap(fields[0], gaps[0], Line(fields[1..], gaps[1..]));
    }
  }

  /** Fields are what stands between white space of any kind and length. */
  lemma FieldsExact(expr: string, fields: seq<string>, before: string, gaps: seq<string>, after: string)
    requires |fields| == |gaps| + 1 && AllFields(fields) && AreGaps(gaps) && AllSpace(before) && AllSpace(after)
    requires expr == before + (Line(fields, gaps) + after)
    ensures Fields(expr) == fields
  {
    LineSplits(fields, gaps);
    TrimExact(expr, Line(fields, gaps));
  }

  /** The fields that stand for a preset, which has everything it does not use at its default. */
  predicate StandsFor(f: seq<string>, p: Preset) {
    && |f| == 5 && InRange(p) && !p.frequency.Custom? && Normal(p) == p
    && Shape(p, f)
  }

  lemma ShapeIsRead(f: seq<string>, p: Preset)
    requires StandsFor(f, p)
    ensures ParseFields(f[0], f[1], f[2], f[3], f[4]) == Some(p)
  {
    assert !IsDigit('*');
    match p.frequency
    case Minute =>
    case Hourly => HourlyFields(f[0], p.minute);
    case Daily => DailyFields(f[0], p.minute, f[1], p.hour);
    case Weekly =>
      SplitOfNone("", ',');
      SplitOfNone("", '-');
      WeeklyFields(f[0], p.minute, f[1], p.hour, f[4], p.weekdays);
    case Monthly => MonthlyFields(f[0], p.minute, f[1], p.hour, f[2], p.dayOfMonth);
  }

  /** An expression is read as a preset exactly when its fields stand for it. */
  lemma ParseExact(expr: string, p: Preset)
    ensures ParseCron(expr) == Some(p) <==> StandsFor(Fields(expr), p)
  {
    var f := Fields(expr);
    if ParseCron(expr) == Some(p) {
      ParseShape(f);
      ParsedIsNormal(expr);
    }
    if StandsFor(f, p) { ShapeIsRead(f, p); }
  }
}
