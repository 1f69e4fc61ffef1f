// ISO 8601 durations, as timers give them: a scanner that adds up minutes, and what it makes of a printed
// duration.

module Duration {

  // The scanner's variables.
  datatype Scanner = Scanner(total: nat, current: nat, reading: bool, inTime: bool)

  const START := Scanner(0, 0, false, false)

  predicate IsDigit(c: char) {
    '0' <= c <= '9'
  }

  // What a number means in front of a letter, in minutes. A month counts as a day, and seconds are rounded.
  function UnitMinutes(n: nat, unit: char, inTime: bool): nat {
    if unit == 'H' then n * 60
    else if unit == 'M' then (if inTime then n else n * 24 * 60)
    else if unit == 'S' then (n + 30) / 60
    else if unit == 'D' then n * 24 * 60
    else 0
  }

  function Scan(s: Scanner, c: char): Scanner {
    if IsDigit(c) then s.(current := s.current * 10 + (c as int - '0' as int), reading := true)
    else if c == 'T' then s.(inTime := true, reading := false)
    else if c == 'P' then s.(reading := false)
    else if s.reading then Scanner(s.total + UnitMinutes(s.current, c, s.inTime), 0, false, s.inTime)
    else s
  }

  function ScanAll(s: Scanner, text: string): Scanner {
    if text == "" then s else Scan(ScanAll(s, text[..|text| - 1]), text[|text| - 1])
  }

  // The minutes a duration stands for; a day when it has none.
  function Minutes(text: string): nat {
    var total := ScanAll(START, text).total;
    if total > 0 then total else 24 * 60
  }

  method ParseISODuration(duration: string) returns (minutes: nat)
    ensures minutes == Minutes(duration)
  {
    var totalMinutes: nat, currentVal: nat, reading, inTime := 0, 0, false, false;
    for i := 0 to |duration|
      invariant Scanner(totalMinutes, currentVal, reading, inTime) == ScanAll(START, duration[..i])
    {
      var c := duration[i];
      assert duration[..i + 1][..i] == duration[..i];
      if '0' <= c <= '9' {
        currentVal := currentVal * 10 + (c as int - '0' as int);
        reading := true;
      } else if c == 'T' {
        inTime := true;
        reading := false;
      } else if c == 'P' {
        reading := false;
      } else if reading {
        match c {
          case 'H' => totalMinutes := totalMinutes + currentVal * 60;
          case 'M' =>
            if inTime {
              totalMinutes := totalMinutes + currentVal;
            } else {
              totalMinutes := totalMinutes + currentVal * 24 * 60;
            }
          case 'S' => totalMinutes := totalMinutes + (currentVal + 30) / 60;
          case 'D' => totalMinutes := totalMinutes + currentVal * 24 * 60;
          case _ =>
        }
        currentVal := 0;
        reading := false;
      }
    }
    assert duration[..|duration|] == duration;
    if totalMinutes > 0 { return totalMinutes; }
    return 24 * 60;
  }

  // ---- Printing ----

  function Digit(d: nat): char
    requires d < 10
  {
    '0' + d as char
  }

  // A number in decimal.
  function Decimal(n: nat): (text: string)
    ensures text != ""
  {
    if n < 10 then [Digit(n)] else Decimal(n / 10) + [Digit(n % 10)]
  }

  datatype Field = Field(n: nat, unit: char)

  function PrintFields(fields: seq<Field>): string {
    if fields == [] then ""
    else
      var last := |fields| - 1;
      PrintFields(fields[..last]) + Decimal(fields[last].n) + [fields[last].unit]
  }

  // A duration with some date fields and some time fields.
  function Print(date: seq<Field>, time: seq<Field>): string {
    "P" + PrintFields(date) + "T" + PrintFields(time)
  }

  function Sum(fields: seq<Field>, inTime: bool): nat {
    if fields == [] then 0
    else
      var last := |fields| - 1;
      Sum(fields[..last], inTime) + UnitMinutes(fields[last].n, fields[last].unit, inTime)
  }

  predicate AreUnits(fields: seq<Field>) {
    forall i :: 0 <= i < |fields| ==> !IsDigit(fields[i].unit) && fields[i].unit != 'T' && fields[i].unit != 'P'
  }

  lemma {:induction false} ScanAppend(s: Scanner, a: string, b: string)
    ensures ScanAll(s, a + b) == ScanAll(ScanAll(s, a), b)
  {
    if b == "" {
      assert a + b == a;
    } else {
      assert (a + b)[..|a + b| - 1] == a + b[..|b| - 1];
      ScanAppend(s, a, b[..|b| - 1]);
    }
  }

  lemma ScanOne(s: Scanner, c: char)
    ensures ScanAll(s, [c]) == Scan(s, c)
  {
    assert [c][..0] == "";
  }

  lemma {:induction false} ScanDecimal(s: Scanner, n: nat)
    requires s.current == 0
    ensures ScanAll(s, Decimal(n)) == s.(current := n, reading := true)
  {
    if n < 10 {
      ScanOne(s, Digit(n));
    } else {
      ScanDecimal(s, n / 10);
      var text := Decimal(n);
      assert text[..|text| - 1] == Decimal(n / 10);
    }
  }

  lemma {:induction false} ScanFields(s: Scanner, fields: seq<Field>)
    requires AreUnits(fields) && s.current == 0 && !s.reading
    ensures ScanAll(s, PrintFields(fields)) == s.(total := s.total + Sum(fields, s.inTime))
  {
    if fields != [] {
      var last := |fields| - 1;
      var f := fields[last];
      ScanFields(s, fields[..last]);
      var s1 := ScanAll(s, PrintFields(fields[..last]));
      ScanAppend(s, PrintFields(fields[..last]) + Decimal(f.n), [f.unit]);
      ScanAppend(s, PrintFields(fields[..last]), Decimal(f.n));
      ScanDecimal(s1, f.n);
      ScanOne(s1.(current := f.n, reading := true), f.unit);
    }
  }

  // Parsing what was printed: the sum of all the fields, or a day when that is nothing.
  lemma PrintThenParse(date: seq<Field>, time: seq<Field>)
    requires AreUnits(date) && AreUnits(time)
    ensures var sum := Sum(date, false) + Sum(time, true);
            Minutes(Print(date, time)) == if sum > 0 then sum else 1440
  {
    hide Scan, PrintFields, Sum, ScanAll;
    ScanFour("P", PrintFields(date), "T", PrintFields(time));
    Markers(START);
    ScanFields(START, date);
    Markers(START.(total := Sum(date, false)));
    ScanFields(START.(total := Sum(date, false), inTime := true), time);
  }

  lemma ScanFour(a: string, b: string, c: string, d: string)
    ensures ScanAll(START, a + b + c + d) == ScanAll(ScanAll(ScanAll(ScanAll(START, a), b), c), d)
  {
    hide ScanAll;
    ScanAppend(START, a + b + c, d);
    ScanAppend(START, a + b, c);
    ScanAppend(START, a, b);
  }

  lemma Markers(s: Scanner)
    requires !s.reading
    ensures ScanAll(s, "P") == s && ScanAll(s, "T") == s.(inTime := true)
  {
    ScanOne(s, 'P');
    ScanOne(s, 'T');
  }

  lemma OneMore(fields: seq<Field>, f: Field, inTime: bool)
    ensures PrintFields(fields + [f]) == PrintFields(fields) + Decimal(f.n) + [f.unit]
    ensures Sum(fields + [f], inTime) == Sum(fields, inTime) + UnitMinutes(f.n, f.unit, inTime)
  {
    hide Decimal, UnitMinutes;
    assert (fields + [f])[..|fields + [f]| - 1] == fields;
  }

  lemma DateText(d: nat) returns (date: seq<Field>)
    ensures AreUnits(date) && PrintFields(date) == Decimal(d) + "D" && Sum(date, false) == 1440 * d
  {
    hide Decimal, PrintFields, Sum;
    NoFields();
    date := [] + [Field(d, 'D')];
    OneMore([], Field(d, 'D'), false);
    assert "" + Decimal(d) == Decimal(d);
  }

  lemma TimeText(h: nat, m: nat, s: nat) returns (time: seq<Field>)
    ensures AreUnits(time) && PrintFields(time) == Decimal(h) + "H" + Decimal(m) + "M" + Decimal(s) + "S"
    ensures Sum(time, true) == 60 * h + m + (s + 30) / 60
  {
    hide Decimal, PrintFields, Sum;
    NoFields();
    OneMore([], Field(h, 'H'), true);
    OneMore([] + [Field(h, 'H')], Field(m, 'M'), true);
    time := [] + [Field(h, 'H')] + [Field(m, 'M')] + [Field(s, 'S')];
    OneMore([] + [Field(h, 'H')] + [Field(m, 'M')], Field(s, 'S'), true);
    assert "" + Decimal(h) == Decimal(h);
  }

  // P<d>DT<h>H<m>M<s>S, the form of RFC 3339, appendix A.
  lemma DaysToSeconds(d: nat, h: nat, m: nat, s: nat)
    ensures var text := "P" + (Decimal(d) + "D") + "T" + (Decimal(h) + "H" + Decimal(m) + "M" + Decimal(s) + "S");
            var sum := 1440 * d + 60 * h + m + (s + 30) / 60;
            Minutes(text) == if sum > 0 then sum else 1440
  {
    hide Minutes, Decimal, PrintFields, Sum;
    var date := DateText(d);
    var time := TimeText(h, m, s);
    PrintThenParse(date, time);
  }

  // A date field alone: a month counts as a day, and weeks, years and anything else as nothing, which makes a day.
  lemma DateAlone(n: nat, unit: char)
    requires unit !in ['T', 'P', 'H', 'S'] && !IsDigit(unit)
    ensures Minutes("P" + Decimal(n) + [unit]) == if unit in ['M', 'D'] && n > 0 then 1440 * n else 1440
  {
    hide ScanAll, Decimal;
    ScanAppend(START, "P" + Decimal(n), [unit]);
    ScanAppend(START, "P", Decimal(n));
    Markers(START);
    ScanDecimal(START, n);
    ScanOne(START.(current := n, reading := true), unit);
  }

  lemma NoFields()
    ensures PrintFields([]) == "" && Sum([], true) == 0 && Sum([], false) == 0
  {
  }

  // ---- 64-bit nanoseconds ----

  const MINUTE := 60_000_000_000
  const MAX := 0x7FFF_FFFF_FFFF_FFFF

  // Two's complement, 64 bits wide.
  function Wrap64(n: int): int {
    var low := n % 0x1_0000_0000_0000_0000;
    if low <= MAX then low else low - 0x1_0000_0000_0000_0000
  }

  // The conversion to nanoseconds is exact if and only if there are at most 153722867 minutes.
  lemma NanosecondsFit(minutes: nat)
    ensures Wrap64(minutes * MINUTE) == minutes * MINUTE <==> minutes <= 153722867
  {
  }
}
