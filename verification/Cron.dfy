/** The cron printer and parser of the application manager: PeriodicToCronString turns the periodic
    attributes of a request into a crontab line, CronStringToCyclePeriodicRespAttr reads one back. */
module Cron {
  import opened Text

  newtype uint32 = x: int | 0 <= x < 0x1_0000_0000

  /** The weekday switches of a request, Sunday first; crontab numbers Sunday 0. */
  datatype Sched = Sched(days: seq<bool>) {
    predicate Valid() { |days| == 7 }
    predicate Any() requires Valid() { exists d :: 0 <= d < 7 && days[d] }
  }

  datatype Request = Request(interval: uint32, minHour: uint32, maxHour: uint32, sched: Sched)

  datatype Response = Response(interval: uint32, minHour: uint32, maxHour: uint32, workingDays: seq<string>)

  /** What the parser does with a line: a value, a returned error, or an index out of range. */
  datatype Parsed = Parsed(value: Response) | ParseError | Panic

  const WEEKDAYS: seq<string> := ["Sunday", "Monday", "Tuesday", "Wednesday", "Thursday", "Friday", "Saturday"]

  // ----- Hours -----

  function Range(lo: int, hi: int): (r: seq<int>)
    ensures |r| == if lo < hi then hi - lo else 0
    ensures forall k :: 0 <= k < |r| ==> r[k] == lo + k
    decreases hi - lo
  {
    if lo < hi then [lo] + Range(lo + 1, hi) else []
  }

  /** The clock the wrap loop runs on: it restarts at 0 after 23, and a uint32 restarts after its last value. */
  function NextHour(h: uint32): uint32 {
    if h == 23 || h == 0xFFFF_FFFF then 0 else h + 1
  }

  /** The last hour reached before the clock restarts. */
  function LastBefore(min: uint32): int { if min <= 23 then 23 else 0xFFFF_FFFF }

  /** The hours a wrapping interval stands for: from min to the restart, then from 0 to max. */
  function WrappedHours(min: uint32, max: uint32): seq<int> {
    Range(min as int, LastBefore(min) + 1) + Range(0, max as int + 1)
  }

  function Printed(hours: seq<int>): seq<string> { seq(|hours|, k requires 0 <= k < |hours| => Itoa(hours[k])) }

  function After(h: uint32, steps: nat): uint32
    decreases steps
  {
    if steps == 0 then h else NextHour(After(h, steps - 1))
  }

  /** The wrap loop ends exactly when the last hour is on the 24-hour clock. */
  lemma WrapLoopEnds(min: uint32, max: uint32)
    requires min > max
    ensures max <= 23 <==> exists steps: nat :: After(min, steps) == max
  {
    if max <= 23 {
      var steps: nat := if min <= 23 then 24 - min as int + max as int else UINT32 - min as int + max as int;
      ReachesMax(min, max, steps);
      assert After(min, steps) == max;
    } else {
      forall steps: nat ensures After(min, steps) != max {
        NeverReaches(min, max, steps);
      }
    }
  }

  lemma {:induction false} Climbs(h: uint32, steps: nat)
    requires h as int + steps <= LastBefore(h)
    ensures After(h, steps) as int == h as int + steps
  {
    if steps > 0 {
      Climbs(h, steps - 1);
    }
  }

  lemma {:induction false} AfterSum(h: uint32, a: nat, b: nat)
    ensures After(h, a + b) == After(After(h, a), b)
  {
    if b > 0 {
      AfterSum(h, a, b - 1);
    }
  }

  lemma ReachesMax(min: uint32, max: uint32, steps: nat)
    requires min > max && max <= 23
    requires steps == LastBefore(min) + 1 - min as int + max as int
    ensures After(min, steps) == max
  {
    var first := LastBefore(min) - min as int;
    Climbs(min, first);
    assert After(min, first + 1) == 0;
    AfterSum(min, first + 1, max as int);
    Climbs(0, max as int);
  }

  lemma {:induction false} NeverReaches(min: uint32, max: uint32, steps: nat)
    requires min > max > 23
    ensures After(min, steps) >= min || After(min, steps) <= 23
  {
    if steps > 0 {
      NeverReaches(min, max, steps - 1);
    }
  }

  /** The hours of a wrapping interval on the 24-hour clock: each hour of the circular interval is listed
      once, in clock order, and no other hour is. */
  lemma WrappedHoursMeaning(min: uint32, max: uint32)
    requires max < min <= 23
    ensures forall h :: h in WrappedHours(min, max) <==> (min as int <= h <= 23 || 0 <= h <= max as int)
    ensures forall j, k :: 0 <= j < k < |WrappedHours(min, max)|
              ==> WrappedHours(min, max)[j] != WrappedHours(min, max)[k]
    ensures forall k :: 0 <= k < |WrappedHours(min, max)| - 1
              ==> WrappedHours(min, max)[k + 1] == (WrappedHours(min, max)[k] + 1) % 24
  {
    var a, b := Range(min as int, 24), Range(0, max as int + 1);
    forall h ensures h in a + b <==> (min as int <= h <= 23 || 0 <= h <= max as int) {
      if min as int <= h <= 23 { assert a[h - min as int] == h; }
      if 0 <= h <= max as int { assert b[h] == h; }
    }
  }

  /** The hours listed when the loop has reached this one. */
  function Listed(min: uint32, next: uint32): seq<int> {
    if next >= min then Range(min as int, next as int + 1)
    else Range(min as int, LastBefore(min) + 1) + Range(0, next as int + 1)
  }

  lemma RangeNext(lo: int, hi: int)
    requires lo <= hi
    ensures Range(lo, hi + 1) == Range(lo, hi) + [hi]
  {
  }

  /** Until the last hour is reached the loop stays on the interval, and each step lists one more hour. */
  lemma ListedNext(min: uint32, max: uint32, next: uint32)
    requires max < min && max <= 23 && next != max
    requires (min <= next && next as int <= LastBefore(min)) || next < max
    ensures var n := NextHour(next);
            && ((min <= n && n as int <= LastBefore(min)) || n <= max)
            && Listed(min, n) == Listed(min, next) + [n as int]
  {
    var n := NextHour(next);
    if next >= min && next as int == LastBefore(min) {
      RangeNext(0, 0);
      assert n == 0 && Listed(min, n) == Range(min as int, LastBefore(min) + 1) + [0];
    } else if next >= min {
      RangeNext(min as int, next as int + 1);
      assert n as int == next as int + 1;
    } else {
      RangeNext(0, next as int + 1);
      assert n as int == next as int + 1;
      Regroup(Range(min as int, LastBefore(min) + 1), Range(0, next as int + 1), n as int);
    }
  }

  lemma Regroup(a: seq<int>, b: seq<int>, x: int)
    ensures a + (b + [x]) == a + b + [x]
  {
  }

  function Distance(min: uint32, max: uint32, next: uint32): int {
    if next >= min then UINT32 + UINT32 - next as int else max as int - next as int
  }

  lemma DistanceShrinks(min: uint32, max: uint32, next: uint32)
    requires max < min && max <= 23 && next != max
    requires (min <= next && next as int <= LastBefore(min)) || next < max
    ensures 0 <= Distance(min, max, NextHour(next)) < Distance(min, max, next)
  {
  }

  method WrapHours(min: uint32, max: uint32) returns (hours: seq<string>)
    requires min > max && max <= 23
    ensures hours == Printed(WrappedHours(min, max))
  {
    hours := [Itoa(min as int)];
    var next := min;
    RangeNext(min as int, min as int);
    assert hours == Printed(Listed(min, next));
    while next != max
      invariant (min <= next && next as int <= LastBefore(min)) || next <= max
      invariant hours == Printed(Listed(min, next))
      decreases Distance(min, max, next)
    {
      ListedNext(min, max, next);
      DistanceShrinks(min, max, next);
      if next == 23 {
        next := 0;
      } else {
        next := if next == 0xFFFF_FFFF then 0 else next + 1;
      }
      hours := hours + [Itoa(next as int)];
    }
  }

  // ----- Printing -----

  /** The days before day d that are switched on, as crontab numbers in Sunday-to-Saturday order. */
  function DayNumbers(days: seq<bool>, d: nat): seq<string>
    requires d <= |days| == 7
  {
    if d == 0 then []
    else DayNumbers(days, d - 1) + if days[d - 1] then [Itoa(d - 1)] else []
  }

  function DayNames(days: seq<bool>, d: nat): seq<string>
    requires d <= |days| == 7
  {
    if d == 0 then []
    else DayNames(days, d - 1) + if days[d - 1] then [WEEKDAYS[d - 1]] else []
  }

  function HourField(r: Request): string {
    if r.minHour > r.maxHour then Join(Printed(WrappedHours(r.minHour, r.maxHour)), ',')
    else Itoa(r.minHour as int) + "-" + Itoa(r.maxHour as int)
  }

  /** The line up to the weekday field; the minute field is a step and two fields are always open. */
  function Head(interval: string, hours: string): string { "*/" + interval + " " + hours + " * * " }

  function CronLine(r: Request): string
    requires r.sched.Valid()
  {
    Head(Itoa(r.interval as int), HourField(r)) + Join(DayNumbers(r.sched.days, 7), ',')
  }

  method WeekDays(s: Sched) returns (weekDays: seq<string>)
    requires s.Valid()
    ensures weekDays == DayNumbers(s.days, 7)
  {
    weekDays := [];
    for d := 0 to 7
      invariant weekDays == DayNumbers(s.days, d)
    {
      if s.days[d] {
        weekDays := weekDays + [Itoa(d)];
      }
    }
  }

  method PeriodicToCronString(r: Request) returns (cron: string)
    requires r.sched.Valid()
    requires r.minHour > r.maxHour ==> r.maxHour <= 23
    ensures cron == CronLine(r)
  {
    if r.minHour > r.maxHour {
      var hours := WrapHours(r.minHour, r.maxHour);
      cron := Head(Itoa(r.interval as int), Join(hours, ','));
    } else {
      cron := Head(Itoa(r.interval as int), Itoa(r.minHour as int) + "-" + Itoa(r.maxHour as int));
    }
    var weekDays := WeekDays(r.sched);
    cron := cron + Join(weekDays, ',');
  }

  // ----- Parsing -----

  function ToUint32(n: int): uint32 { (n % UINT32) as uint32 }

  function DayName(d: string): seq<string> {
    if d == "0" then [WEEKDAYS[0]]
    else if d == "1" then [WEEKDAYS[1]]
    else if d == "2" then [WEEKDAYS[2]]
    else if d == "3" then [WEEKDAYS[3]]
    else if d == "4" then [WEEKDAYS[4]]
    else if d == "5" then [WEEKDAYS[5]]
    else if d == "6" then [WEEKDAYS[6]]
    else []
  }

  /** The names of the known day numbers in a list; anything else is skipped. */
  function NamesOf(list: seq<string>): seq<string> {
    if list == [] then [] else NamesOf(list[..|list| - 1]) + DayName(list[|list| - 1])
  }

  /** The first and last hour of the hour field: the ends of a range, or of a comma list. */
  function HourEnds(field: string): Option<(int, int)> {
    var parts := if '-' in field then Split(field, '-') else Split(field, ',');
    var last := if '-' in field then (if |parts| > 1 then parts[1] else []) else parts[|parts| - 1];
    match (Atoi(parts[0]), Atoi(last))
    case (Some(lo), Some(hi)) => Some((lo, hi))
    case _ => None
  }

  /** The meaning of a line, in the order the parser discovers it. */
  function Meaning(cron: string): Parsed { MeaningOf(Fields(cron)) }

  function MeaningOf(f: seq<string>): Parsed {
    if |f| == 0 || |Split(f[0], '/')| < 2 then Panic
    else
      match Atoi(Split(f[0], '/')[1])
      case None => ParseError
      case Some(interval) => if |f| < 2 then Panic else Assembled(f, interval, HourEnds(f[1]))
  }

  function Assembled(f: seq<string>, interval: int, ends: Option<(int, int)>): Parsed {
    match ends
    case None => ParseError
    case Some((lo, hi)) =>
      if |f| < 5 then Panic
      else Parsed(Response(ToUint32(interval), ToUint32(lo), ToUint32(hi), NamesOf(Split(f[4], ','))))
  }

  lemma {:induction false} SplitAtSeparator(s: string, sep: char)
    requires sep in s
    ensures |Split(s, sep)| >= 2
  {
    if s[0] != sep {
      SplitAtSeparator(s[1..], sep);
    }
  }

  method CronStringToCyclePeriodicRespAttr(cron: string) returns (p: Parsed)
    ensures p == Meaning(cron)
  {
    var f := Fields(cron);
    if |f| == 0 { return Panic; }
    var im := Split(f[0], '/');
    if |im| < 2 { return Panic; }
    var interval := Atoi(im[1]);
    if interval.None? { return ParseError; }
    if |f| < 2 { return Panic; }
    var lo, hi;
    if '-' in f[1] {
      var range := Split(f[1], '-');
      SplitAtSeparator(f[1], '-');
      lo := Atoi(range[0]);
      if lo.None? { return ParseError; }
      hi := Atoi(range[1]);
      if hi.None? { return ParseError; }
    } else {
      var hours := Split(f[1], ',');
      lo := Atoi(hours[0]);
      if lo.None? { return ParseError; }
      hi := Atoi(hours[|hours| - 1]);
      if hi.None? { return ParseError; }
    }
    if |f| < 5 { return Panic; }
    var days := Split(f[4], ',');
    var workingDays: seq<string> := [];
    for k := 0 to |days|
      invariant workingDays == NamesOf(days[..k])
    {
      assert days[..k + 1][..k] == days[..k];
      workingDays := workingDays + DayName(days[k]);
    }
    assert days[..|days|] == days;
    p := Parsed(Response(ToUint32(interval.value), ToUint32(lo.value), ToUint32(hi.value), workingDays));
  }

  // ----- Round trip -----

  predicate Plain(s: string) {
    s != [] && forall i :: 0 <= i < |s| ==> IsDigit(s[i])
  }

  lemma PlainIsWord(s: string)
    requires Plain(s)
    ensures Word(s) && '-' !in s && ',' !in s && '/' !in s
  {
  }

  lemma {:induction false} JoinIsWord(parts: seq<string>, sep: char)
    requires parts != [] && !IsSpace(sep)
    requires forall i :: 0 <= i < |parts| ==> Plain(parts[i])
    ensures Word(Join(parts, sep))
    ensures sep != '-' ==> '-' !in Join(parts, sep)
  {
    if |parts| > 1 {
      JoinIsWord(parts[1..], sep);
    }
  }

  lemma {:induction false} DayNumbersArePlain(days: seq<bool>, d: nat)
    requires d <= |days| == 7
    ensures forall i :: 0 <= i < |DayNumbers(days, d)| ==> Plain(DayNumbers(days, d)[i])
    ensures DayNumbers(days, d) == [] <==> forall k :: 0 <= k < d ==> !days[k]
  {
    if d > 0 {
      DayNumbersArePlain(days, d - 1);
    }
  }

  lemma DayNameOfNumber(d: nat)
    requires d < 7
    ensures DayName(Itoa(d)) == [WEEKDAYS[d]]
  {
    assert Itoa(d) == [Digit(d)];
  }

  lemma {:induction false} NamesOfNumbers(days: seq<bool>, d: nat)
    requires d <= |days| == 7
    ensures NamesOf(DayNumbers(days, d)) == DayNames(days, d)
  {
    if d > 0 {
      NamesOfNumbers(days, d - 1);
      if days[d - 1] {
        var list := DayNumbers(days, d);
        assert list[..|list| - 1] == DayNumbers(days, d - 1) && list[|list| - 1] == Itoa(d - 1);
        assert NamesOf(list) == NamesOf(list[..|list| - 1]) + DayName(list[|list| - 1]);
        DayNameOfNumber(d - 1);
      } else {
        assert DayNumbers(days, d) == DayNumbers(days, d - 1);
      }
    }
  }

  lemma PrintedArePlain(hours: seq<int>)
    requires forall k :: 0 <= k < |hours| ==> hours[k] >= 0
    ensures forall k :: 0 <= k < |hours| ==> Plain(Printed(hours)[k]) && ',' !in Printed(hours)[k]
  {
    forall k | 0 <= k < |hours| ensures Plain(Printed(hours)[k]) && ',' !in Printed(hours)[k] {
      assert Printed(hours)[k] == Digits(hours[k]);
      PlainIsWord(Digits(hours[k]));
    }
  }

  /** The first and the last of the listed parts are read. */
  lemma EndsOfList(parts: seq<string>, lo: int, hi: int)
    requires parts != [] && Atoi(parts[0]) == Some(lo) && Atoi(parts[|parts| - 1]) == Some(hi)
    requires Split(Join(parts, ','), ',') == parts && '-' !in Join(parts, ',')
    ensures HourEnds(Join(parts, ',')) == Some((lo, hi))
  {
  }

  lemma ListFieldParses(hours: seq<int>, lo: uint32, hi: uint32)
    requires hours != [] && hours[0] == lo as int && hours[|hours| - 1] == hi as int
    requires forall k :: 0 <= k < |hours| ==> hours[k] >= 0
    ensures Word(Join(Printed(hours), ','))
    ensures HourEnds(Join(Printed(hours), ',')) == Some((lo as int, hi as int))
  {
    var parts := Printed(hours);
    PrintedArePlain(hours);
    JoinIsWord(parts, ',');
    SplitJoin(parts, ',');
    AtoiItoa(lo as int);
    AtoiItoa(hi as int);
    EndsOfList(parts, lo as int, hi as int);
  }

  lemma RangeFieldParses(lo: uint32, hi: uint32)
    ensures Word(Itoa(lo as int) + "-" + Itoa(hi as int))
    ensures HourEnds(Itoa(lo as int) + "-" + Itoa(hi as int)) == Some((lo as int, hi as int))
  {
    var parts := [Itoa(lo as int), Itoa(hi as int)];
    var field := parts[0] + "-" + parts[1];
    assert field == Join(parts, '-');
    assert field[|parts[0]|] == '-';
    JoinIsWord(parts, '-');
    PlainIsWord(parts[0]);
    PlainIsWord(parts[1]);
    SplitJoin(parts, '-');
    AtoiItoa(lo as int);
    AtoiItoa(hi as int);
  }

  lemma HourFieldParses(r: Request)
    requires r.minHour > r.maxHour ==> r.maxHour <= 23
    ensures Word(HourField(r))
    ensures HourEnds(HourField(r)) == Some((r.minHour as int, r.maxHour as int))
  {
    if r.minHour > r.maxHour {
      ListFieldParses(WrappedHours(r.minHour, r.maxHour), r.minHour, r.maxHour);
    } else {
      RangeFieldParses(r.minHour, r.maxHour);
    }
  }

  lemma FiveWords(im: string, hours: string, days: string)
    ensures Join([im, hours, "*", "*", days], ' ') == im + " " + hours + " * * " + days
  {
    var words := [im, hours, "*", "*", days];
    assert words[1..] == [hours, "*", "*", days];
    assert words[1..][1..] == ["*", "*", days];
    assert words[1..][1..][1..] == ["*", days];
    assert ["*", days][1..] == [days];
    assert Join(["*", days], ' ') == "* " + days;
    assert Join(["*", "*", days], ' ') == "* * " + days;
  }

  lemma LineFields(interval: string, hours: string, days: string)
    requires Plain(interval) && Word(hours) && Word(days)
    ensures Fields(Head(interval, hours) + days) == ["*/" + interval, hours, "*", "*", days]
  {
    var im := "*/" + interval;
    FiveWords(im, hours, days);
    assert Head(interval, hours) + days == im + " " + hours + " * * " + days;
    assert Word(im);
    FieldsJoin([im, hours, "*", "*", days]);
  }

  lemma IntervalField(interval: string)
    requires Plain(interval)
    ensures Split("*/" + interval, '/') == ["*", interval]
  {
    PlainIsWord(interval);
    SplitJoin(["*", interval], '/');
    assert "*/" + interval == Join(["*", interval], '/');
  }

  lemma MeaningOfFields(f: seq<string>, first: seq<string>, n: int, ends: Option<(int, int)>)
    requires 4 <= |f| <= 5
    requires Split(f[0], '/') == first && |first| == 2 && Atoi(first[1]) == Some(n) && HourEnds(f[1]) == ends
    ensures MeaningOf(f) == Assembled(f, n, ends)
  {
  }

  lemma AssembledWithDays(f: seq<string>, n: uint32, lo: uint32, hi: uint32)
    requires |f| == 5
    ensures Assembled(f, n as int, Some((lo as int, hi as int)))
            == Parsed(Response(n, lo, hi, NamesOf(Split(f[4], ','))))
  {
  }

  /** Parsing a line that ends in a weekday field. */
  lemma LineMeaning(n: uint32, interval: string, hours: string, lo: uint32, hi: uint32, days: string)
    requires Plain(interval) && Atoi(interval) == Some(n as int)
    requires Word(hours) && HourEnds(hours) == Some((lo as int, hi as int))
    requires Word(days)
    ensures Meaning(Head(interval, hours) + days) == Parsed(Response(n, lo, hi, NamesOf(Split(days, ','))))
  {
    LineFields(interval, hours, days);
    IntervalField(interval);
    var f := ["*/" + interval, hours, "*", "*", days];
    MeaningOfFields(f, ["*", interval], n as int, Some((lo as int, hi as int)));
    AssembledWithDays(f, n, lo, hi);
  }

  lemma DayListParses(numbers: seq<string>)
    requires numbers != [] && forall i :: 0 <= i < |numbers| ==> Plain(numbers[i])
    ensures Word(Join(numbers, ',')) && Split(Join(numbers, ','), ',') == numbers
  {
    JoinIsWord(numbers, ',');
    forall i | 0 <= i < |numbers| ensures ',' !in numbers[i] { PlainIsWord(numbers[i]); }
    SplitJoin(numbers, ',');
  }

  lemma LineWithoutDays(n: uint32, interval: string, hours: string, lo: uint32, hi: uint32)
    requires Plain(interval) && Atoi(interval) == Some(n as int)
    requires Word(hours) && HourEnds(hours) == Some((lo as int, hi as int))
    ensures Meaning(Head(interval, hours)) == Panic
  {
    NoDaysFields("*/" + interval, hours);
    IntervalField(interval);
    MeaningOfFields(["*/" + interval, hours, "*", "*"], ["*", interval], n as int, Some((lo as int, hi as int)));
  }

  /** Reading the printed line gives back the interval, both hours and the days in Sunday-to-Saturday order,
      whenever some weekday is on; with no weekday the parser indexes past the end of the line. */
  lemma RoundTrip(r: Request)
    requires r.sched.Valid()
    requires r.minHour > r.maxHour ==> r.maxHour <= 23
    ensures r.sched.Any() ==>
              Meaning(CronLine(r)) == Parsed(Response(r.interval, r.minHour, r.maxHour, DayNames(r.sched.days, 7)))
    ensures !r.sched.Any() ==> Meaning(CronLine(r)) == Panic
  {
    var numbers := DayNumbers(r.sched.days, 7);
    HourFieldParses(r);
    AtoiItoa(r.interval as int);
    DayNumbersArePlain(r.sched.days, 7);
    if r.sched.Any() {
      assert numbers != [];
      DayListParses(numbers);
      LineMeaning(r.interval, Itoa(r.interval as int), HourField(r), r.minHour, r.maxHour, Join(numbers, ','));
      NamesOfNumbers(r.sched.days, 7);
    } else {
      assert numbers == [];
      var head := Head(Itoa(r.interval as int), HourField(r));
      assert CronLine(r) == head + [] == head;
      LineWithoutDays(r.interval, Itoa(r.interval as int), HourField(r), r.minHour, r.maxHour);
    }
  }

  lemma OpenFields(hours: string)
    ensures FieldsFrom(hours, " * * ") == (if hours == [] then [] else [hours]) + ["*", "*"]
  {
    assert " * * "[1..] == "* * " && "* * "[1..] == " * " && " * "[1..] == "* " && "* "[1..] == " " && " "[1..] == "";
    assert [] + ['*'] == "*";
    assert FieldsFrom("*", " ") == ["*"] + FieldsFrom([], "");
    assert FieldsFrom([], "* ") == FieldsFrom("*", " ");
    assert FieldsFrom("*", " * ") == ["*"] + FieldsFrom([], "* ");
    assert FieldsFrom([], "* * ") == FieldsFrom("*", " * ");
  }

  lemma NoDaysFields(im: string, hours: string)
    requires Word(im) && Word(hours)
    ensures Fields(im + " " + hours + " * * ") == [im, hours, "*", "*"]
  {
    var rest := hours + " * * ";
    OpenFields(hours);
    FieldsOfWord([], hours, " * * ");
    FieldsOfWord([], im, [' '] + rest);
    assert [] + im == im && [] + hours == hours;
    assert im + " " + hours + " * * " == im + ([' '] + rest);
    assert ([' '] + rest)[1..] == rest;
  }

  // ----- By name -----

  /** The days as a request and a response spell them, and as a crontab numbers them. */
  predicate DaysNamed(days: seq<bool>, names: seq<string>)
    requires |days| == 7
  {
    && ("Sunday" in names <==> days[0]) && ("Monday" in names <==> days[1]) && ("Tuesday" in names <==> days[2])
    && ("Wednesday" in names <==> days[3]) && ("Thursday" in names <==> days[4]) && ("Friday" in names <==> days[5])
    && ("Saturday" in names <==> days[6])
  }

  predicate DaysNumbered(days: seq<bool>, numbers: seq<string>)
    requires |days| == 7
  {
    && ("0" in numbers <==> days[0]) && ("1" in numbers <==> days[1]) && ("2" in numbers <==> days[2])
    && ("3" in numbers <==> days[3]) && ("4" in numbers <==> days[4]) && ("5" in numbers <==> days[5])
    && ("6" in numbers <==> days[6])
  }

  lemma {:induction false} NamesHaveDay(days: seq<bool>, d: nat, k: nat)
    requires d <= |days| == 7 && k < 7
    ensures WEEKDAYS[k] in DayNames(days, d) <==> k < d && days[k]
  {
    WeekdaysDiffer();
    if d > 0 {
      NamesHaveDay(days, d - 1, k);
    }
  }

  lemma {:induction false} NumbersHaveDay(days: seq<bool>, d: nat, k: nat)
    requires d <= |days| == 7 && k < 7
    ensures [Digit(k)] in DayNumbers(days, d) <==> k < d && days[k]
  {
    if d > 0 {
      NumbersHaveDay(days, d - 1, k);
      assert Itoa(d - 1) == [Digit(d - 1)];
      assert [Digit(d - 1)][0] == [Digit(k)][0] <==> d - 1 == k;
    }
  }

  lemma WeekdaysDiffer()
    ensures forall i, j :: 0 <= i < j < 7 ==> WEEKDAYS[i] != WEEKDAYS[j]
  {
    assert WEEKDAYS[0][1] == 'u' && WEEKDAYS[1][1] == 'o' && WEEKDAYS[2][1] == 'u' && WEEKDAYS[3][1] == 'e';
    assert WEEKDAYS[4][1] == 'h' && WEEKDAYS[5][1] == 'r' && WEEKDAYS[6][1] == 'a';
    assert WEEKDAYS[0][0] == 'S' && WEEKDAYS[2][0] == 'T';
  }

  /** The weekday field numbers the days that are switched on from Sunday, 0, to Saturday, 6, and reading the line
      back names exactly these days. */
  lemma DaysByName(r: Request)
    requires r.sched.Valid()
    requires r.minHour > r.maxHour ==> r.maxHour <= 23
    ensures DaysNumbered(r.sched.days, DayNumbers(r.sched.days, 7))
    ensures r.sched.Any() ==>
              Meaning(CronLine(r)).Parsed? && DaysNamed(r.sched.days, Meaning(CronLine(r)).value.workingDays)
  {
    RoundTrip(r);
    forall k: nat | k < 7
      ensures WEEKDAYS[k] in DayNames(r.sched.days, 7) <==> r.sched.days[k]
      ensures [Digit(k)] in DayNumbers(r.sched.days, 7) <==> r.sched.days[k]
    {
      NamesHaveDay(r.sched.days, 7, k);
      NumbersHaveDay(r.sched.days, 7, k);
    }
    assert WEEKDAYS[0] == "Sunday" && WEEKDAYS[1] == "Monday" && WEEKDAYS[2] == "Tuesday" && WEEKDAYS[3] == "Wednesday";
    assert WEEKDAYS[4] == "Thursday" && WEEKDAYS[5] == "Friday" && WEEKDAYS[6] == "Saturday";
    assert [Digit(0)] == "0" && [Digit(1)] == "1" && [Digit(2)] == "2" && [Digit(3)] == "3" && [Digit(4)] == "4";
    assert [Digit(5)] == "5" && [Digit(6)] == "6";
  }
}
