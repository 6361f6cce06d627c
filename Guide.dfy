/**
  The programme guide of a channel: classifying a programme against the
  clock, its progress bar, its duration label, and grouping a schedule by
  day with each day in start order.
*/
module Guide {
  import opened Wrappers
  import opened Text
  import opened Catalog

  // ---------------------------------------------------------------------
  // Classification against the clock
  // ---------------------------------------------------------------------

  /** `isProgramLive`: on air from its start to its end, both inclusive; `now` is whole seconds. */
  predicate IsProgramLive(now: int, start: int, end: int)
    ensures IsProgramLive(now, start, end) ==> start <= now <= end && start <= end
  {
    now >= start && now <= end
  }

  /** `isProgramPast`: strictly after its end. */
  predicate IsProgramPast(now: int, end: int)
    ensures IsProgramPast(now, end) ==> forall start :: !IsProgramLive(now, start, end)
  {
    now > end
  }

  /**
    No programme is both live and past; a well-formed programme is exactly
    one of upcoming, live and past; the end second itself is still live.
  */
  lemma Classification(now: int, start: int, end: int)
    ensures !(IsProgramLive(now, start, end) && IsProgramPast(now, end))
    ensures start <= end ==>
      (now < start) || IsProgramLive(now, start, end) || IsProgramPast(now, end)
    ensures IsProgramLive(end, start, end) <==> start <= end
    ensures !IsProgramPast(end, end)
  {
  }

  /** A programme from 1000 to 2000 is live at 1500 and at 2000, and past at 2001. */
  lemma ClassificationExample()
    ensures IsProgramLive(1500, 1000, 2000) && IsProgramLive(2000, 1000, 2000)
    ensures !IsProgramPast(2000, 2000) && IsProgramPast(2001, 2000) && !IsProgramLive(2001, 1000, 2000)
  {
  }

  /**
    `getProgramProgress`, as a percentage: 0 outside the programme, the
    elapsed fraction times 100 inside it. `None` stands for the not-a-number
    that the zero-length programme divides out to at its only second.
  */
  function ProgramProgress(now: int, start: int, end: int): (p: Option<real>)
    ensures p.None? <==> now == start && end == start
    ensures !IsProgramLive(now, start, end) ==> p == Some(0.0)
  {
    if now < start || now > end then Some(0.0)
    else if end - start == 0 then None
    else Some(((now - start) as real / (end - start) as real) * 100.0)
  }

  lemma FractionAtMostOne(a: real, b: real)
    requires 0.0 <= a <= b && 0.0 < b
    ensures 0.0 <= a / b <= 1.0
  {
  }

  /**
    Progress is 0 outside the programme; for a programme of positive length
    it is a number in [0, 100], 0 at the start and 100 at the end; it is
    undefined only for a zero-length programme at its own second.
  */
  lemma ProgressBounds(now: int, start: int, end: int)
    ensures now < start || now > end ==> ProgramProgress(now, start, end) == Some(0.0)
    ensures start < end ==> ProgramProgress(now, start, end).Some?
    ensures start < end ==> 0.0 <= ProgramProgress(now, start, end).value <= 100.0
    ensures start < end ==> ProgramProgress(start, start, end) == Some(0.0) && ProgramProgress(end, start, end) == Some(100.0)
    ensures ProgramProgress(now, start, end).None? <==> now == start && start == end
  {
    if start < end {
      var len := (end - start) as real;
      assert len / len == 1.0;
      if start <= now <= end {
        FractionAtMostOne((now - start) as real, len);
      }
    }
  }

  // ---------------------------------------------------------------------
  // Duration label
  // ---------------------------------------------------------------------

  /** JavaScript's `duration % 60`: the remainder takes the sign of the dividend. */
  function JsRem60(a: int): (r: int)
    ensures a >= 0 ==> r == a % 60
    ensures a < 0 ==> -60 < r <= 0
    ensures -60 < a < 60 ==> r == a
  {
    if a >= 0 then a % 60 else -((-a) % 60)
  }

  /** Whole minutes between start and end, rounded down. */
  function DurationMinutes(start: int, end: int): int {
    (end - start) / 60
  }

  /** `formatDuration`: `"{h}h {m}m"` from one hour on, `"{m}m"` below. */
  function FormatDuration(start: int, end: int): (text: string)
    ensures 2 <= |text| && text[|text| - 1] == 'm'
  {
    var duration := DurationMinutes(start, end);
    var hours := duration / 60;
    var minutes := JsRem60(duration);
    if hours > 0 then IntToString(hours) + "h " + IntToString(minutes) + "m"
    else IntToString(minutes) + "m"
  }

  /** The two shapes of the label: hours appear exactly from 60 minutes on, and then the minutes are below 60. */
  lemma DurationShape(start: int, end: int)
    ensures var d := DurationMinutes(start, end);
      d >= 60 ==> FormatDuration(start, end) == NatToString(d / 60) + "h " + NatToString(d % 60) + "m" && d % 60 < 60
    ensures var d := DurationMinutes(start, end);
      0 <= d < 60 ==> FormatDuration(start, end) == NatToString(d) + "m"
  {
  }

  /** Reads a duration label back as a number of minutes. */
  function ParseDuration(text: string): Option<int> {
    if |text| == 0 || text[|text| - 1] != 'm' then None
    else
      var body := text[..|text| - 1];
      match CutAt(body, ' ')
      case None => ParseInt(body)
      case Some((hourPart, minutePart)) =>
        if |hourPart| >= 1 && hourPart[|hourPart| - 1] == 'h' then
          var h, m := ParseNat(hourPart[..|hourPart| - 1]), ParseNat(minutePart);
          if h.Some? && m.Some? then Some(h.value * 60 + m.value) else None
        else None
  }

  lemma ParseMinutesOnly(digits: string, d: int)
    requires ParseInt(digits) == Some(d) && ' ' !in digits
    ensures ParseDuration(digits + "m") == Some(d)
  {
    var text := digits + "m";
    assert text[..|text| - 1] == digits;
  }

  /** The long label splits at its one space into the hour field with its `h` and the minute field. */
  lemma HoursLabelCut(hh: string, mm: string)
    requires ' ' !in hh
    ensures var text := hh + "h " + mm + "m";
      |text| >= 1 && text[|text| - 1] == 'm' && CutAt(text[..|text| - 1], ' ') == Some((hh + "h", mm))
  {
    var hourPart := hh + "h";
    var text := hh + "h " + mm + "m";
    assert text[..|text| - 1] == hourPart + [' '] + mm;
    assert ' ' !in hourPart;
    CutAtJoin(hourPart, ' ', mm);
  }

  lemma ParseHoursAndMinutes(hh: string, mm: string, h: nat, m: nat)
    requires ParseNat(hh) == Some(h) && ParseNat(mm) == Some(m)
    requires ' ' !in hh
    ensures ParseDuration(hh + "h " + mm + "m") == Some(h * 60 + m)
  {
    HoursLabelCut(hh, mm);
    var hourPart := hh + "h";
    assert hourPart[..|hourPart| - 1] == hh;
  }

  /**
    The label gives back the whole minutes it was made from, for every
    duration longer than minus one hour (in particular whenever the end is
    not before the start).
  */
  lemma FormatDurationRoundTrip(start: int, end: int)
    requires DurationMinutes(start, end) > -60
    ensures ParseDuration(FormatDuration(start, end)) == Some(DurationMinutes(start, end))
  {
    var d := DurationMinutes(start, end);
    if d >= 60 {
      var h, m := d / 60, d % 60;
      ParseNatToString(h);
      ParseNatToString(m);
      DigitsAvoid(NatToString(h), ' ');
      ParseHoursAndMinutes(NatToString(h), NatToString(m), h, m);
    } else {
      var minutes := JsRem60(d);
      assert minutes == d;
      IntToStringRoundTrip(d);
      if d >= 0 {
        DigitsAvoid(NatToString(d), ' ');
      } else {
        DigitsAvoid(NatToString(-d), ' ');
        assert IntToString(d) == "-" + NatToString(-d);
      }
      ParseMinutesOnly(IntToString(d), d);
    }
  }

  // ---------------------------------------------------------------------
  // Ordering by start
  // ---------------------------------------------------------------------

  predicate SortedByStart(s: seq<EpgItem>) {
    forall i, j :: 0 <= i < j < |s| ==> s[i].start <= s[j].start
  }

  /** Places `x` before the first entry that starts no earlier. */
  function InsertByStart(x: EpgItem, s: seq<EpgItem>): (r: seq<EpgItem>)
    ensures |r| == |s| + 1
    ensures r[0] == x || (s != [] && r[0] == s[0])
  {
    if s == [] then [x]
    else if x.start <= s[0].start then [x] + s
    else [s[0]] + InsertByStart(x, s[1..])
  }

  /** Insertion adds exactly `x`. */
  lemma {:induction false} InsertByStartCount(x: EpgItem, s: seq<EpgItem>)
    ensures multiset(InsertByStart(x, s)) == multiset(s) + multiset{x}
  {
    if s != [] && x.start > s[0].start {
      InsertByStartCount(x, s[1..]);
      assert s == [s[0]] + s[1..];
    }
  }

  /** Insertion keeps a sorted list sorted. */
  lemma {:induction false} InsertByStartSorted(x: EpgItem, s: seq<EpgItem>)
    requires SortedByStart(s)
    ensures SortedByStart(InsertByStart(x, s))
  {
    if s != [] && x.start > s[0].start {
      InsertByStartSorted(x, s[1..]);
      var r := InsertByStart(x, s);
      var rest := InsertByStart(x, s[1..]);
      assert r == [s[0]] + rest;
      assert s[0].start <= rest[0].start;
      forall i, j | 0 <= i < j < |r|
        ensures r[i].start <= r[j].start
      {
        if i == 0 && j > 1 {
          assert rest[0].start <= rest[j - 1].start;
        }
      }
    }
  }

  /** `programs.sort((a, b) => a.start - b.start)`: a stable sort by start. */
  function SortByStart(s: seq<EpgItem>): (r: seq<EpgItem>)
    ensures SortedByStart(r)
    ensures multiset(r) == multiset(s)
  {
    if s == [] then []
    else
      var sorted := SortByStart(s[1..]);
      InsertByStartCount(s[0], sorted);
      InsertByStartSorted(s[0], sorted);
      assert s == [s[0]] + s[1..];
      InsertByStart(s[0], sorted)
  }

  // ---------------------------------------------------------------------
  // Grouping by day
  // ---------------------------------------------------------------------

  /** One day of the schedule: its label and its programmes. */
  datatype DayGroup = DayGroup(date: string, programs: seq<EpgItem>)

  predicate Distinct(ks: seq<string>) {
    forall i, j :: 0 <= i < j < |ks| ==> ks[i] != ks[j]
  }

  /** The day labels of a schedule, each once, in order of first appearance. */
  function Days(ps: seq<EpgItem>, dateLabel: int -> string): seq<string>
    decreases |ps|
  {
    if ps == [] then []
    else
      var days := Days(ps[..|ps| - 1], dateLabel);
      var day := dateLabel(ps[|ps| - 1].start);
      if day in days then days else days + [day]
  }

  /** The programmes whose day label is `day`, in schedule order. */
  function Members(ps: seq<EpgItem>, dateLabel: int -> string, day: string): seq<EpgItem>
    decreases |ps|
  {
    if ps == [] then []
    else Members(ps[..|ps| - 1], dateLabel, day) + (if dateLabel(ps[|ps| - 1].start) == day then [ps[|ps| - 1]] else [])
  }

  lemma MembersSnoc(ps: seq<EpgItem>, x: EpgItem, dateLabel: int -> string, day: string)
    ensures Members(ps + [x], dateLabel, day) == Members(ps, dateLabel, day) + (if dateLabel(x.start) == day then [x] else [])
  {
    assert (ps + [x])[..|ps + [x]| - 1] == ps;
  }

  lemma DaysSnoc(ps: seq<EpgItem>, x: EpgItem, dateLabel: int -> string)
    ensures var days := Days(ps, dateLabel);
      Days(ps + [x], dateLabel) == if dateLabel(x.start) in days then days else days + [dateLabel(x.start)]
  {
    assert (ps + [x])[..|ps + [x]| - 1] == ps;
  }

  /** A day table that agrees with a schedule: its keys are the days in order, each entry the day's programmes. */
  ghost predicate TableAgrees(ps: seq<EpgItem>, dateLabel: int -> string, keys: seq<string>, table: map<string, seq<EpgItem>>) {
    && keys == Days(ps, dateLabel)
    && (forall k :: k in table <==> k in keys)
    && (forall k :: k in table ==> table[k] == Members(ps, dateLabel, k))
  }

  /** The keys after filing a programme under `date`: a new day goes last. */
  function KeysAfterFiling(keys: seq<string>, table: map<string, seq<EpgItem>>, date: string): seq<string> {
    if date in table then keys else keys + [date]
  }

  /** The table after filing `p` under `date`: appended to the day's entry, which starts empty. */
  function TableAfterFiling(table: map<string, seq<EpgItem>>, date: string, p: EpgItem): map<string, seq<EpgItem>> {
    table[date := (if date in table then table[date] else []) + [p]]
  }

  /** Filing one more programme, creating its day's entry first when missing, keeps the table in agreement. */
  lemma FileProgram(ps: seq<EpgItem>, p: EpgItem, dateLabel: int -> string, keys: seq<string>, table: map<string, seq<EpgItem>>)
    requires TableAgrees(ps, dateLabel, keys, table)
    ensures var date := dateLabel(p.start);
      TableAgrees(ps + [p], dateLabel, KeysAfterFiling(keys, table, date), TableAfterFiling(table, date, p))
  {
    var date := dateLabel(p.start);
    var keys' := KeysAfterFiling(keys, table, date);
    var filed := TableAfterFiling(table, date, p);
    DaysSnoc(ps, p, dateLabel);
    DaysSpec(ps, dateLabel, date);
    assert keys' == Days(ps + [p], dateLabel);
    assert forall k :: k in filed <==> k in keys';
    forall k | k in filed
      ensures filed[k] == Members(ps + [p], dateLabel, k)
    {
      MembersSnoc(ps, p, dateLabel, k);
    }
  }

  /** `groupProgramsByDate`: one group per day in order of first appearance, each sorted by start. */
  function GroupByDate(ps: seq<EpgItem>, dateLabel: int -> string): (groups: seq<DayGroup>)
    ensures |groups| == |Days(ps, dateLabel)|
    ensures forall i :: 0 <= i < |groups| ==> groups[i].date == Days(ps, dateLabel)[i]
  {
    GroupsFor(ps, dateLabel, Days(ps, dateLabel))
  }

  /** The groups of the given days, in the given order. */
  function GroupsFor(ps: seq<EpgItem>, dateLabel: int -> string, days: seq<string>): seq<DayGroup> {
    seq(|days|, i requires 0 <= i < |days| => GroupOf(ps, dateLabel, days[i]))
  }

  lemma GroupsForIndex(ps: seq<EpgItem>, dateLabel: int -> string, days: seq<string>, groups: seq<DayGroup>)
    requires |groups| == |days|
    requires forall n :: 0 <= n < |days| ==> groups[n] == GroupOf(ps, dateLabel, days[n])
    ensures groups == GroupsFor(ps, dateLabel, days)
  {
  }

  /** The group of one day: its programmes in start order. */
  function GroupOf(ps: seq<EpgItem>, dateLabel: int -> string, day: string): DayGroup {
    DayGroup(day, SortByStart(Members(ps, dateLabel, day)))
  }

  lemma {:induction false} MembersSpec(ps: seq<EpgItem>, dateLabel: int -> string, day: string, p: EpgItem)
    ensures p in Members(ps, dateLabel, day) <==> p in ps && dateLabel(p.start) == day
    decreases |ps|
  {
    if ps != [] {
      var front := ps[..|ps| - 1];
      MembersSpec(front, dateLabel, day, p);
      assert ps == front + [ps[|ps| - 1]];
    }
  }

  /** The days are distinct, and a day is listed exactly when some programme falls on it. */
  lemma {:induction false} DaysSpec(ps: seq<EpgItem>, dateLabel: int -> string, day: string)
    ensures Distinct(Days(ps, dateLabel))
    ensures day in Days(ps, dateLabel) <==> Members(ps, dateLabel, day) != []
    decreases |ps|
  {
    if ps != [] {
      DaysSpec(ps[..|ps| - 1], dateLabel, day);
      DaysSpec(ps[..|ps| - 1], dateLabel, dateLabel(ps[|ps| - 1].start));
    }
  }

  /** The programmes of the groups for `days`, counted together. */
  function GroupedTotal(ps: seq<EpgItem>, dateLabel: int -> string, days: seq<string>): multiset<EpgItem>
    decreases |days|
  {
    if days == [] then multiset{} else multiset(Members(ps, dateLabel, days[0])) + GroupedTotal(ps, dateLabel, days[1..])
  }

  lemma {:induction false} GroupedTotalEmpty(dateLabel: int -> string, days: seq<string>)
    ensures GroupedTotal([], dateLabel, days) == multiset{}
    decreases |days|
  {
    if days != [] {
      GroupedTotalEmpty(dateLabel, days[1..]);
    }
  }

  lemma {:induction false} GroupedTotalSnoc(ps: seq<EpgItem>, x: EpgItem, dateLabel: int -> string, days: seq<string>)
    requires Distinct(days)
    ensures GroupedTotal(ps + [x], dateLabel, days)
      == GroupedTotal(ps, dateLabel, days) + (if dateLabel(x.start) in days then multiset{x} else multiset{})
    decreases |days|
  {
    if days != [] {
      assert (ps + [x])[..|ps + [x]| - 1] == ps;
      GroupedTotalSnoc(ps, x, dateLabel, days[1..]);
      assert Distinct(days[1..]);
      if dateLabel(x.start) == days[0] {
        assert dateLabel(x.start) !in days[1..];
      }
    }
  }

  /** Splitting a schedule by distinct days covering all of it loses and duplicates nothing. */
  lemma {:induction false} GroupedTotalIsSchedule(ps: seq<EpgItem>, dateLabel: int -> string, days: seq<string>)
    requires Distinct(days)
    requires forall p :: p in ps ==> dateLabel(p.start) in days
    ensures GroupedTotal(ps, dateLabel, days) == multiset(ps)
    decreases |ps|
  {
    if ps == [] {
      GroupedTotalEmpty(dateLabel, days);
    } else {
      var front, x := ps[..|ps| - 1], ps[|ps| - 1];
      assert ps == front + [x];
      GroupedTotalIsSchedule(front, dateLabel, days);
      GroupedTotalSnoc(front, x, dateLabel, days);
    }
  }

  /** All the programmes of a list of groups, group after group. */
  function Flatten(groups: seq<DayGroup>): seq<EpgItem>
    decreases |groups|
  {
    if groups == [] then [] else groups[0].programs + Flatten(groups[1..])
  }

  lemma {:induction false} FlattenGroups(ps: seq<EpgItem>, dateLabel: int -> string, days: seq<string>, groups: seq<DayGroup>)
    requires |groups| == |days|
    requires forall i :: 0 <= i < |days| ==> groups[i].programs == SortByStart(Members(ps, dateLabel, days[i]))
    ensures multiset(Flatten(groups)) == GroupedTotal(ps, dateLabel, days)
    decreases |days|
  {
    if days != [] {
      FlattenGroups(ps, dateLabel, days[1..], groups[1..]);
    }
  }

  /**
    Grouping keeps the schedule: taken together, the groups hold exactly the
    programmes of the schedule, each as often as it occurs there.
  */
  lemma GroupingKeepsPrograms(ps: seq<EpgItem>, dateLabel: int -> string)
    ensures multiset(Flatten(GroupByDate(ps, dateLabel))) == multiset(ps)
  {
    var days := Days(ps, dateLabel);
    var groups := GroupByDate(ps, dateLabel);
    DaysSpec(ps, dateLabel, "");
    forall p | p in ps
      ensures dateLabel(p.start) in days
    {
      MembersSpec(ps, dateLabel, dateLabel(p.start), p);
      DaysSpec(ps, dateLabel, dateLabel(p.start));
    }
    FlattenGroups(ps, dateLabel, days, groups);
    GroupedTotalIsSchedule(ps, dateLabel, days);
  }

  /**
    Every programme of the schedule is in exactly one group, the one keyed by
    its own day label; every group holds only programmes of its day, in start
    order, and no two groups share a label.
  */
  lemma GroupingPlacesEachProgramOnce(ps: seq<EpgItem>, dateLabel: int -> string, p: EpgItem)
    ensures var groups := GroupByDate(ps, dateLabel);
      forall i, j :: 0 <= i < j < |groups| ==> groups[i].date != groups[j].date
    ensures var groups := GroupByDate(ps, dateLabel);
      forall i :: 0 <= i < |groups| ==> SortedByStart(groups[i].programs)
    ensures var groups := GroupByDate(ps, dateLabel);
      forall i :: 0 <= i < |groups| ==> (p in groups[i].programs <==> p in ps && dateLabel(p.start) == groups[i].date)
    ensures var groups := GroupByDate(ps, dateLabel);
      p in ps ==> exists i :: 0 <= i < |groups| && groups[i].date == dateLabel(p.start)
  {
    var groups := GroupByDate(ps, dateLabel);
    var days := Days(ps, dateLabel);
    DaysSpec(ps, dateLabel, dateLabel(p.start));
    forall i | 0 <= i < |groups|
      ensures p in groups[i].programs <==> p in ps && dateLabel(p.start) == groups[i].date
    {
      MembersSpec(ps, dateLabel, days[i], p);
      assert multiset(groups[i].programs) == multiset(Members(ps, dateLabel, days[i]));
      assert p in groups[i].programs <==> p in multiset(groups[i].programs);
    }
    if p in ps {
      MembersSpec(ps, dateLabel, dateLabel(p.start), p);
      var i :| 0 <= i < |days| && days[i] == dateLabel(p.start);
      assert groups[i].date == dateLabel(p.start);
    }
  }

  /** The `forEach` pass: files each programme under its day, creating the day's entry on first sight. */
  method FileByDate(programs: seq<EpgItem>, dateLabel: int -> string) returns (keys: seq<string>, table: map<string, seq<EpgItem>>)
    ensures TableAgrees(programs, dateLabel, keys, table)
  {
    keys, table := [], map[];
    var i := 0;
    while i < |programs|
      invariant 0 <= i <= |programs|
      invariant TableAgrees(programs[..i], dateLabel, keys, table)
    {
      var p := programs[i];
      var date := dateLabel(p.start);
      FileProgram(programs[..i], p, dateLabel, keys, table);
      ghost var filedKeys, filedTable := KeysAfterFiling(keys, table, date), TableAfterFiling(table, date, p);
      if date !in table {
        table := table[date := []];
        keys := keys + [date];
      }
      table := table[date := table[date] + [p]];
      assert keys == filedKeys && table == filedTable;
      assert programs[..i + 1] == programs[..i] + [p];
      i := i + 1;
    }
    assert programs[..i] == programs;
  }

  /** The `Object.entries(...).map` pass: the entries in key insertion order, each sorted by start. */
  method CollectGroups(ghost programs: seq<EpgItem>, dateLabel: int -> string, keys: seq<string>, table: map<string, seq<EpgItem>>)
    returns (groups: seq<DayGroup>)
    requires forall k :: k in keys ==> k in table && table[k] == Members(programs, dateLabel, k)
    ensures groups == GroupsFor(programs, dateLabel, keys)
  {
    groups := [];
    var j := 0;
    while j < |keys|
      invariant 0 <= j <= |keys|
      invariant |groups| == j
      invariant forall n :: 0 <= n < j ==> groups[n] == GroupOf(programs, dateLabel, keys[n])
    {
      var day := keys[j];
      var group := DayGroup(day, SortByStart(table[day]));
      assert group == GroupOf(programs, dateLabel, day);
      var grown := groups + [group];
      forall n | 0 <= n < j + 1
        ensures grown[n] == GroupOf(programs, dateLabel, keys[n])
      {
        if n < j {
          assert grown[n] == groups[n];
        }
      }
      groups := grown;
      j := j + 1;
    }
    GroupsForIndex(programs, dateLabel, keys, groups);
  }

  /**
    The grouping as the guide builds it: the dictionary filled programme by
    programme, then its entries in key insertion order, each sorted by start.
  */
  method GroupProgramsByDate(programs: seq<EpgItem>, dateLabel: int -> string) returns (groups: seq<DayGroup>)
    ensures groups == GroupByDate(programs, dateLabel)
  {
    var keys, table := FileByDate(programs, dateLabel);
    groups := CollectGroups(programs, dateLabel, keys, table);
  }
}
