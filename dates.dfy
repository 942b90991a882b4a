/** `parseCustomDate`, which reads a "DD/MM/YYYY, HH:mm" timestamp into a `Date`, and
    `getDateRange`, which scans the orders for the earliest and the latest of them. The
    JavaScript pieces they use are written out: `String.prototype.split`, `Number` of a
    string, and the time value the `Date` constructor computes from its components. */
module Dates {
  import opened JsText
  import opened Orders

  /** Where `sep` first occurs in `s`, or -1. */
  function IndexOf(s: string, sep: string): (r: int)
    requires sep != []
    ensures r == -1 || 0 <= r <= |s| - |sep|
    ensures r >= 0 ==> s[r..r + |sep|] == sep
    decreases |s|
  {
    if |s| < |sep| then -1
    else if s[..|sep|] == sep then 0
    else
      var r := IndexOf(s[1..], sep);
      if r == -1 then -1 else r + 1
  }

  /** `sep` occurs in `s` at position `k`. */
  predicate At(s: string, sep: string, k: int)
  {
    0 <= k <= |s| - |sep| && s[k..k + |sep|] == sep
  }

  /** `IndexOf` is -1 exactly when `sep` occurs nowhere in `s`, and otherwise the first
      position where it occurs. */
  lemma {:induction false} IndexOfIsFirst(s: string, sep: string)
    requires sep != []
    ensures IndexOf(s, sep) == -1 <==> forall k :: !At(s, sep, k)
    ensures IndexOf(s, sep) >= 0 ==>
              At(s, sep, IndexOf(s, sep)) && forall k :: 0 <= k < IndexOf(s, sep) ==> !At(s, sep, k)
    decreases |s|
  {
    if |s| < |sep| {
    } else if s[..|sep|] == sep {
      assert At(s, sep, 0);
    } else {
      IndexOfIsFirst(s[1..], sep);
      assert !At(s, sep, 0);
      forall k | 0 <= k
        ensures At(s, sep, k + 1) <==> At(s[1..], sep, k)
      {
        Shift(s, sep, k);
      }
      if IndexOf(s, sep) == -1 {
        forall k
          ensures !At(s, sep, k)
        {
          if k > 0 {
            Shift(s, sep, k - 1);
          }
        }
      } else {
        forall k | 0 <= k < IndexOf(s, sep)
          ensures !At(s, sep, k)
        {
          if k > 0 {
            Shift(s, sep, k - 1);
          }
        }
      }
    }
  }

  /** An occurrence one position further in `s` is an occurrence in `s[1..]`. */
  lemma Shift(s: string, sep: string, k: int)
    requires s != [] && 0 <= k
    ensures At(s, sep, k + 1) <==> At(s[1..], sep, k)
  {
    if k + 1 <= |s| - |sep| {
      assert s[k + 1..k + 1 + |sep|] == s[1..][k..k + |sep|];
    }
  }

  /** `s.split(sep)`: the pieces between the occurrences of `sep`, from left to right. */
  function Split(s: string, sep: string): (parts: seq<string>)
    requires sep != []
    ensures |parts| >= 1
    decreases |s|
  {
    var i := IndexOf(s, sep);
    if i == -1 then [s] else [s[..i]] + Split(s[i + |sep|..], sep)
  }

  /** `parts.join(sep)`. */
  function Join(parts: seq<string>, sep: string): string
    requires |parts| >= 1
    decreases |parts|
  {
    if |parts| == 1 then parts[0] else parts[0] + sep + Join(parts[1..], sep)
  }

  /** Splitting loses nothing: joining the pieces again gives the string back. */
  lemma {:induction false} SplitJoin(s: string, sep: string)
    requires sep != []
    ensures Join(Split(s, sep), sep) == s
    decreases |s|
  {
    var i := IndexOf(s, sep);
    if i != -1 {
      var rest := s[i + |sep|..];
      var parts := Split(s, sep);
      assert parts == [s[..i]] + Split(rest, sep);
      assert parts[1..] == Split(rest, sep);
      SplitJoin(rest, sep);
      assert Join(parts, sep) == s[..i] + sep + rest;
      assert s == s[..i] + s[i..i + |sep|] + rest;
    }
  }

  /** A string split on a separator whose first character it does not contain is one piece. */
  lemma {:induction false} SplitWithout(a: string, sep: string)
    requires sep != [] && forall i :: 0 <= i < |a| ==> a[i] != sep[0]
    ensures IndexOf(a, sep) == -1
    ensures Split(a, sep) == [a]
    decreases |a|
  {
    if |a| >= |sep| {
      assert a[..|sep|][0] != sep[0];
      SplitWithout(a[1..], sep);
    }
  }

  /** Such a string followed by the separator splits there. */
  lemma {:induction false} IndexOfAfter(a: string, sep: string, b: string)
    requires sep != [] && forall i :: 0 <= i < |a| ==> a[i] != sep[0]
    ensures IndexOf(a + sep + b, sep) == |a|
    decreases |a|
  {
    var s := a + sep + b;
    if a == [] {
      assert s[..|sep|] == sep;
    } else {
      assert s[..|sep|][0] != sep[0];
      assert s[1..] == a[1..] + sep + b;
      IndexOfAfter(a[1..], sep, b);
    }
  }

  lemma SplitAfter(a: string, sep: string, b: string)
    requires sep != [] && forall i :: 0 <= i < |a| ==> a[i] != sep[0]
    ensures Split(a + sep + b, sep) == [a] + Split(b, sep)
  {
    var s := a + sep + b;
    IndexOfAfter(a, sep, b);
    assert s[..|a|] == a;
    assert s[|a| + |sep|..] == b;
  }

  /** Element `i` of a destructured array: absent beyond its end. */
  function Nth(parts: seq<string>, i: nat): (f: Field)
    ensures f.Text? <==> i < |parts|
  {
    if i < |parts| then Text(parts[i]) else Missing
  }

  /** A JavaScript number as `Number`, `-` and the `Date` constructor see it: an integer,
      or NaN. */
  datatype Num = NaN | Int(v: int)

  predicate IsDigit(c: char)
  {
    '0' <= c <= '9'
  }

  predicate IsSign(c: char)
  {
    c == '-' || c == '+'
  }

  predicate IsLetter(c: char)
  {
    'a' <= c <= 'z' || 'A' <= c <= 'Z'
  }

  predicate AllDigits(s: string)
  {
    s != [] && forall i :: 0 <= i < |s| ==> IsDigit(s[i])
  }

  /** The value of a string of decimal digits. */
  function DigitsValue(s: string): (v: int)
    requires forall i :: 0 <= i < |s| ==> IsDigit(s[i])
    ensures v >= 0
    decreases |s|
  {
    if s == [] then 0
    else
      var n := |s| - 1;
      assert IsDigit(s[n]);
      10 * DigitsValue(s[..n]) + (s[n] as int - '0' as int)
  }

  /** `Number(x)` as far as the model covers it: `undefined` is NaN; a string is trimmed,
      the empty string is 0, an optionally signed run of decimal digits is its value (for
      an unsigned one, `NumberOfDigits`), and in the model a text with any character other
      than a digit, beyond one leading sign, is NaN (`NonDigitIsNaN`). JavaScript also reads
      decimals, exponents, hexadecimal and `Infinity`, which the model does not. */
  function NumberOf(f: Field): (n: Num)
    ensures f.Missing? ==> n == NaN
    ensures f.Text? && Trim(f.s) == [] ==> n == Int(0)
  {
    match f
    case Missing => NaN
    case Text(s) =>
      var t := Trim(s);
      if t == [] then Int(0)
      else if AllDigits(t) then Int(DigitsValue(t))
      else if IsSign(t[0]) && AllDigits(t[1..]) then
        (if t[0] == '-' then Int(-DigitsValue(t[1..])) else Int(DigitsValue(t[1..])))
      else NaN
  }

  /** `x - 1`: NaN stays NaN. */
  function MinusOne(n: Num): Num
  {
    match n
    case NaN => NaN
    case Int(v) => Int(v - 1)
  }

  /** A time value: milliseconds since 1 January 1970 UTC, or NaN for an invalid date. */
  datatype TimeValue = Invalid | Valid(ms: int)

  const MsPerMinute: int := 60000
  const MsPerHour: int := 3600000
  const MsPerDay: int := 86400000
  /** The largest distance from the epoch a time value may have. */
  const MaxTime: int := 8640000000000000

  predicate InLeapYear(y: int)
  {
    y % 4 == 0 && (y % 100 != 0 || y % 400 == 0)
  }

  /** The day number of 1 January of year `y` (ECMAScript's DayFromYear, with floor
      division). */
  function DayFromYear(y: int): int
  {
    365 * (y - 1970) + (y - 1969) / 4 - (y - 1901) / 100 + (y - 1601) / 400
  }

  /** The day within the year on which month `m` (0 for January) starts. */
  function MonthStart(m: int, leap: bool): int
    requires 0 <= m < 12
  {
    var days := [0, 31, 59, 90, 120, 151, 181, 212, 243, 273, 304, 334];
    days[m] + if leap && m >= 2 then 1 else 0
  }

  /** ECMAScript MakeDay: months beyond the year carry into the year, days beyond the
      month simply count on. */
  function MakeDay(year: int, month: int, date: int): int
  {
    var ym := year + month / 12;
    var mn := month % 12;
    DayFromYear(ym) + MonthStart(mn, InLeapYear(ym)) + date - 1
  }

  /** The `Date` constructor's reading of a year: 0 to 99 mean 1900 to 1999. */
  function FullYear(y: int): int
  {
    if 0 <= y <= 99 then 1900 + y else y
  }

  function TimeClip(t: int): (r: TimeValue)
    ensures r.Valid? <==> -MaxTime <= t <= MaxTime
  {
    if -MaxTime <= t <= MaxTime then Valid(t) else Invalid
  }

  /** The five numbers passed to `new Date(year, month, day, hour, minute)`. */
  datatype DateFields = DateFields(year: Num, month: Num, day: Num, hour: Num, minute: Num)

  /** `new Date(year, month, day, hour, minute)`: invalid as soon as one component is NaN. */
  function NewDate(f: DateFields): (r: TimeValue)
    ensures f.year == NaN || f.month == NaN || f.day == NaN || f.hour == NaN || f.minute == NaN ==> r == Invalid
  {
    if f.year.NaN? || f.month.NaN? || f.day.NaN? || f.hour.NaN? || f.minute.NaN? then Invalid
    else TimeClip(MakeDay(FullYear(f.year.v), f.month.v, f.day.v) * MsPerDay
                  + f.hour.v * MsPerHour + f.minute.v * MsPerMinute)
  }

  /** What `parseCustomDate` gives: a `Date`, or the `TypeError` raised by calling `split`
      on `undefined`. */
  datatype Parsed = ParseThrows | Parsed(t: TimeValue)

  /** `parseCustomDate(dateStr)`: split on ", " into the date and the time part, the date
      part on "/" into day, month and year, the time part on ":" into hour and minute, and
      build the date with the month counted from 0. */
  function ParseCustomDate(dateStr: Field): Parsed
  {
    match dateStr
    case Missing => ParseThrows
    case Text(s) =>
      var parts := Split(s, ", ");
      if |parts| < 2 then ParseThrows
      else
        Parsed(NewDate(DateOfParts(Split(parts[0], "/"), Split(parts[1], ":"))))
  }

  /** `Number(year), Number(month) - 1, Number(day), Number(hour), Number(minute)` from
      `[day, month, year]` and `[hour, minute]`; a missing part is `undefined`, so NaN. */
  function DateOfParts(dmy: seq<string>, hm: seq<string>): (f: DateFields)
    ensures |dmy| < 3 ==> f.year == NaN
    ensures |hm| < 2 ==> f.minute == NaN
  {
    DateFields(NumberOf(Nth(dmy, 2)), MinusOne(NumberOf(Nth(dmy, 1))), NumberOf(Nth(dmy, 0)),
               NumberOf(Nth(hm, 0)), NumberOf(Nth(hm, 1)))
  }

  /** The parse throws exactly when the value is absent or contains no ", ", because then
      the time part is `undefined`. */
  lemma ParseThrowsExactly(dateStr: Field)
    ensures ParseCustomDate(dateStr).ParseThrows? <==>
              dateStr.Missing? || forall k :: !At(dateStr.s, ", ", k)
  {
    if dateStr.Text? {
      IndexOfIsFirst(dateStr.s, ", ");
    }
  }

  /** A date or time component whose text holds a letter is NaN, and so is the date: the
      parse does not throw, it gives an invalid date. */
  lemma NonNumericComponent(s: string, dmy: seq<string>, hm: seq<string>, c: Field, j: int)
    requires |Split(s, ", ")| >= 2
    requires Split(Split(s, ", ")[0], "/") == dmy && Split(Split(s, ", ")[1], ":") == hm
    requires c in [Nth(dmy, 0), Nth(dmy, 1), Nth(dmy, 2), Nth(hm, 0), Nth(hm, 1)]
    requires c.Text? && 0 <= j < |Trim(c.s)| && IsLetter(Trim(c.s)[j])
    ensures ParseCustomDate(Text(s)) == Parsed(Invalid)
  {
    NonDigitIsNaN(c.s, j);
    NaNComponent(dmy, hm, c);
    ParseOfParts(s);
  }

  /** A text whose trimmed form has a character other than a digit anywhere but in a
      leading sign is not a number. */
  lemma NonDigitIsNaN(s: string, j: int)
    requires 0 <= j < |Trim(s)| && !IsDigit(Trim(s)[j]) && (j > 0 || !IsSign(Trim(s)[j]))
    ensures NumberOf(Text(s)) == NaN
  {
    var t := Trim(s);
    assert !AllDigits(t);
    if j > 0 {
      assert t[1..][j - 1] == t[j];
    }
  }

  /** One NaN component makes the date invalid. */
  lemma NaNComponent(dmy: seq<string>, hm: seq<string>, c: Field)
    requires c == Nth(dmy, 0) || c == Nth(dmy, 1) || c == Nth(dmy, 2) || c == Nth(hm, 0) || c == Nth(hm, 1)
    requires NumberOf(c) == NaN
    ensures NewDate(DateOfParts(dmy, hm)) == Invalid
  {
  }

  /** A text with a ", " is read from the pieces of its first two parts. */
  lemma ParseOfParts(s: string)
    requires |Split(s, ", ")| >= 2
    ensures ParseCustomDate(Text(s))
            == Parsed(NewDate(DateOfParts(Split(Split(s, ", ")[0], "/"), Split(Split(s, ", ")[1], ":"))))
  {
  }

  /** For example, a month written "xx". */
  lemma NonNumericExample()
    ensures ParseCustomDate(Text("04/xx/2025, 14:30")) == Parsed(Invalid)
  {
    ExampleParts();
    ExampleDateParts();
    ExampleMonth();
    NonNumericComponent("04/xx/2025, 14:30", ["04", "xx", "2025"], Split("14:30", ":"), Text("xx"), 0);
  }

  lemma ExampleParts()
    ensures Split("04/xx/2025, 14:30", ", ") == ["04/xx/2025", "14:30"]
  {
    assert "04/xx/2025, 14:30" == "04/xx/2025" + ", " + "14:30";
    SplitOnce("04/xx/2025", ", ", "14:30");
  }

  lemma ExampleDateParts()
    ensures Split("04/xx/2025", "/") == ["04", "xx", "2025"]
  {
    assert "04/xx/2025" == "04" + "/" + ("xx" + "/" + "2025");
    SplitAfter("04", "/", "xx" + "/" + "2025");
    SplitOnce("xx", "/", "2025");
  }

  lemma ExampleMonth()
    ensures Trim("xx") == "xx" && IsLetter(Trim("xx")[0])
  {
    TrimNothing("xx");
  }

  lemma DigitsHaveNo(s: string, c: char)
    requires AllDigits(s) && !IsDigit(c)
    ensures forall i :: 0 <= i < |s| ==> s[i] != c
  {
  }

  /** `Number` of a run of digits is its decimal value. */
  lemma NumberOfDigits(s: string)
    requires AllDigits(s)
    ensures NumberOf(Text(s)) == Int(DigitsValue(s))
  {
    TrimNothing(s);
  }

  /** A text that splits on ", " into a date part and a time part, which split on "/" into
      day, month and year and on ":" into hour and minute, each a run of digits, is read
      component by component, with the month made zero-based. */
  lemma ParseParts(s: string, datePart: string, timePart: string,
                   d: string, m: string, y: string, h: string, mi: string)
    requires AllDigits(d) && AllDigits(m) && AllDigits(y) && AllDigits(h) && AllDigits(mi)
    requires Split(s, ", ") == [datePart, timePart]
    requires Split(datePart, "/") == [d, m, y] && Split(timePart, ":") == [h, mi]
    ensures ParseCustomDate(Text(s))
            == Parsed(NewDate(DateFields(Int(DigitsValue(y)), Int(DigitsValue(m) - 1), Int(DigitsValue(d)),
                                         Int(DigitsValue(h)), Int(DigitsValue(mi)))))
  {
    ParseOfSplits(s, datePart, timePart, [d, m, y], [h, mi]);
    DateOfDigits(d, m, y, h, mi);
  }

  /** The text a timestamp "DD/MM/YYYY, HH:mm" is written as. */
  function Timestamp(d: string, m: string, y: string, h: string, mi: string): string
  {
    d + "/" + m + "/" + y + ", " + h + ":" + mi
  }

  /** A timestamp written from runs of digits is read back component by component. */
  lemma ParseFormatted(d: string, m: string, y: string, h: string, mi: string)
    requires AllDigits(d) && AllDigits(m) && AllDigits(y) && AllDigits(h) && AllDigits(mi)
    ensures ParseCustomDate(Text(Timestamp(d, m, y, h, mi)))
            == Parsed(NewDate(DateFields(Int(DigitsValue(y)), Int(DigitsValue(m) - 1), Int(DigitsValue(d)),
                                         Int(DigitsValue(h)), Int(DigitsValue(mi)))))
  {
    var datePart := d + "/" + m + "/" + y;
    var timePart := h + ":" + mi;
    assert Split(Timestamp(d, m, y, h, mi), ", ") == [datePart, timePart] by {
      SplitTimestamp(d, m, y, h, mi);
    }
    assert Split(datePart, "/") == [d, m, y] by {
      SplitDigitTriple(d, m, y, '/');
    }
    assert Split(timePart, ":") == [h, mi] by {
      SplitDigitPair(h, mi, ':');
    }
    ParseParts(Timestamp(d, m, y, h, mi), datePart, timePart, d, m, y, h, mi);
  }

  /** A timestamp written from runs of digits splits on ", " into its date and its time. */
  lemma SplitTimestamp(d: string, m: string, y: string, h: string, mi: string)
    requires AllDigits(d) && AllDigits(m) && AllDigits(y) && AllDigits(h) && AllDigits(mi)
    ensures Split(Timestamp(d, m, y, h, mi), ", ") == [d + "/" + m + "/" + y, h + ":" + mi]
  {
    var datePart := d + "/" + m + "/" + y;
    var timePart := h + ":" + mi;
    assert Timestamp(d, m, y, h, mi) == datePart + ", " + timePart;
    NoCommaIn(d, m, y, "/");
    NoCommaIn(h, mi, "", ":");
    SplitOnce(datePart, ", ", timePart);
  }

  /** A text that splits on ", " into two parts is read from the splits of those parts. */
  lemma ParseOfSplits(s: string, datePart: string, timePart: string, dmy: seq<string>, hm: seq<string>)
    requires Split(s, ", ") == [datePart, timePart]
    requires Split(datePart, "/") == dmy && Split(timePart, ":") == hm
    ensures ParseCustomDate(Text(s)) == Parsed(NewDate(DateOfParts(dmy, hm)))
  {
  }

  /** Two strings without the separator's first character, joined by it, split into
      those two strings. */
  lemma SplitOnce(a: string, sep: string, b: string)
    requires sep != []
    requires forall i :: 0 <= i < |a| ==> a[i] != sep[0]
    requires forall i :: 0 <= i < |b| ==> b[i] != sep[0]
    ensures Split(a + sep + b, sep) == [a, b]
  {
    SplitAfter(a, sep, b);
    SplitWithout(b, sep);
  }

  /** Digit runs joined by a separator that is not a digit or a comma contain no comma. */
  lemma NoCommaIn(a: string, b: string, c: string, sep: string)
    requires AllDigits(a) && AllDigits(b) && (c == [] || AllDigits(c)) && sep != []
    requires forall i :: 0 <= i < |sep| ==> sep[i] != ','
    ensures var t := if c == [] then a + sep + b else a + sep + b + sep + c;
            forall i :: 0 <= i < |t| ==> t[i] != ','
  {
    var t := if c == [] then a + sep + b else a + sep + b + sep + c;
    forall i | 0 <= i < |t|
      ensures t[i] != ','
    {
      if i < |a| {
        assert t[i] == a[i];
      } else if i < |a| + |sep| {
        assert t[i] == sep[i - |a|];
      } else if i < |a| + |sep| + |b| {
        assert t[i] == b[i - |a| - |sep|];
      } else if i < |a| + |sep| + |b| + |sep| {
        assert t[i] == sep[i - |a| - |sep| - |b|];
      } else {
        assert t[i] == c[i - |a| - 2 * |sep| - |b|];
      }
    }
  }

  /** Two digit runs joined by `sep` split back into the runs. */
  lemma SplitDigitPair(a: string, b: string, sep: char)
    requires AllDigits(a) && AllDigits(b) && !IsDigit(sep)
    ensures Split(a + [sep] + b, [sep]) == [a, b]
  {
    DigitsHaveNo(a, sep);
    DigitsHaveNo(b, sep);
    SplitAfter(a, [sep], b);
    SplitWithout(b, [sep]);
  }

  /** So do three. */
  lemma SplitDigitTriple(a: string, b: string, c: string, sep: char)
    requires AllDigits(a) && AllDigits(b) && AllDigits(c) && !IsDigit(sep)
    ensures Split(a + [sep] + b + [sep] + c, [sep]) == [a, b, c]
  {
    DigitsHaveNo(a, sep);
    assert a + [sep] + b + [sep] + c == a + [sep] + (b + [sep] + c);
    SplitAfter(a, [sep], b + [sep] + c);
    SplitDigitPair(b, c, sep);
  }

  /** The components read from digit runs are their decimal values, the month less one. */
  lemma DateOfDigits(d: string, m: string, y: string, h: string, mi: string)
    requires AllDigits(d) && AllDigits(m) && AllDigits(y) && AllDigits(h) && AllDigits(mi)
    ensures DateOfParts([d, m, y], [h, mi])
            == DateFields(Int(DigitsValue(y)), Int(DigitsValue(m) - 1), Int(DigitsValue(d)),
                          Int(DigitsValue(h)), Int(DigitsValue(mi)))
  {
    PartsInOrder(d, m, y, h, mi);
    NumberOfDigits(d);
    MonthOfDigits(m);
    NumberOfDigits(y);
    NumberOfDigits(h);
    NumberOfDigits(mi);
  }

  /** Which part becomes which component. */
  lemma PartsInOrder(d: string, m: string, y: string, h: string, mi: string)
    ensures DateOfParts([d, m, y], [h, mi])
            == DateFields(NumberOf(Text(y)), MinusOne(NumberOf(Text(m))), NumberOf(Text(d)),
                          NumberOf(Text(h)), NumberOf(Text(mi)))
  {
    var dmy := [d, m, y];
    var hm := [h, mi];
    assert Nth(dmy, 0) == Text(d) && Nth(dmy, 1) == Text(m) && Nth(dmy, 2) == Text(y);
    assert Nth(hm, 0) == Text(h) && Nth(hm, 1) == Text(mi);
  }

  lemma MonthOfDigits(m: string)
    requires AllDigits(m)
    ensures MinusOne(NumberOf(Text(m))) == Int(DigitsValue(m) - 1)
  {
    NumberOfDigits(m);
  }

  /** 4 May 2025, 14:30 is 1746369000000 ms after the epoch (in UTC). */
  lemma ParseExample()
    ensures ParseCustomDate(Text("04/05/2025, 14:30")) == Parsed(Valid(1746369000000))
  {
    ExampleText();
    assert ParseCustomDate(Text("04/05/2025, 14:30"))
           == Parsed(NewDate(DateFields(Int(2025), Int(4), Int(4), Int(14), Int(30)))) by {
      ParseFormatted("04", "05", "2025", "14", "30");
      ExampleDigits();
    }
    ExampleTime();
  }

  lemma ExampleText()
    ensures "04/05/2025, 14:30" == Timestamp("04", "05", "2025", "14", "30")
  {
  }

  lemma ExampleTime()
    ensures NewDate(DateFields(Int(2025), Int(4), Int(4), Int(14), Int(30))) == Valid(1746369000000)
  {
    assert DayFromYear(2025) == 20089;
    assert MakeDay(2025, 4, 4) == 20212;
  }

  lemma ExampleDigits()
    ensures DigitsValue("2025") == 2025 && DigitsValue("05") == 5 && DigitsValue("04") == 4
    ensures DigitsValue("14") == 14 && DigitsValue("30") == 30
  {
    assert "2025"[..3] == "202" && "202"[..2] == "20" && "20"[..1] == "2" && "2"[..0] == "";
    assert "05"[..1] == "0" && "04"[..1] == "0" && "14"[..1] == "1" && "30"[..1] == "3";
    assert "0"[..0] == "" && "1"[..0] == "" && "3"[..0] == "";
  }

  /** A two-digit year is read as a year of the twentieth century. */
  lemma TwoDigitYear(y: int, m: Num, d: Num, h: Num, mi: Num)
    requires 0 <= y <= 99
    ensures NewDate(DateFields(Int(y), m, d, h, mi)) == NewDate(DateFields(Int(1900 + y), m, d, h, mi))
  {
  }

  /** What `getDateRange` was given: something that is not an array, or the orders. */
  datatype Feed = NotAnArray | Records(orders: seq<Order>)

  /** `{earliest: null, latest: null}`, a pair of dates, or the `TypeError` a record
      without a parsable `CreatedAt` raises. */
  datatype DateRange = NullRange | Range(earliest: TimeValue, latest: TimeValue) | RangeThrows

  function TimeOf(o: Order): Parsed
  {
    ParseCustomDate(o.createdAt)
  }

  /** `date < other` on two dates: false when either is invalid. */
  predicate Before(a: TimeValue, b: TimeValue)
  {
    a.Valid? && b.Valid? && a.ms < b.ms
  }

  /** Every record among the first `n` whose date is valid lies between `lo` and `hi`. */
  ghost predicate Bounds<T>(data: seq<T>, date: T -> Parsed, n: int, lo: int, hi: int)
    requires 0 <= n <= |data|
  {
    forall j :: 0 <= j < n && date(data[j]).Parsed? && date(data[j]).t.Valid? ==>
      lo <= date(data[j]).t.ms <= hi
  }

  /** `t` is the date of some record. */
  ghost predicate Occurs<T>(data: seq<T>, date: T -> Parsed, t: TimeValue)
  {
    exists j :: 0 <= j < |data| && date(data[j]) == Parsed(t)
  }

  /** The date of some record throws. */
  ghost predicate SomeThrows<T>(data: seq<T>, date: T -> Parsed)
  {
    exists j :: 0 <= j < |data| && date(data[j]).ParseThrows?
  }

  /** What `getDateRange` promises of a non-empty array: it throws when some date does;
      otherwise, when the first date is invalid both ends stay invalid, and when it is valid
      the two ends are dates of records and every valid date lies between them. */
  ghost predicate RangeOf<T>(data: seq<T>, date: T -> Parsed, r: DateRange)
    requires data != []
  {
    && (SomeThrows(data, date) <==> r == RangeThrows)
    && (r != RangeThrows && date(data[0]) == Parsed(Invalid) ==> r == Range(Invalid, Invalid))
    && (r != RangeThrows && date(data[0]).Parsed? && date(data[0]).t.Valid? ==>
          && r.Range? && r.earliest.Valid? && r.latest.Valid?
          && Bounds(data, date, |data|, r.earliest.ms, r.latest.ms)
          && Occurs(data, date, r.earliest) && Occurs(data, date, r.latest))
  }

  /** The loop of `getDateRange`: both ends start at the first record's date; then every
      record whose date is valid may move an end outwards. */
  method ScanRange<T>(data: seq<T>, date: T -> Parsed) returns (r: DateRange)
    requires data != []
    ensures RangeOf(data, date, r)
  {
    var first := date(data[0]);
    if first.ParseThrows? {
      return RangeThrows;
    }
    var earliestDate := first.t;
    var latestDate := first.t;
    var i := 0;
    while i < |data|
      invariant 0 <= i <= |data|
      invariant forall j :: 0 <= j < i ==> date(data[j]).Parsed?
      invariant first.t.Invalid? ==> earliestDate == Invalid && latestDate == Invalid
      invariant first.t.Valid? ==>
                  && earliestDate.Valid? && latestDate.Valid?
                  && Bounds(data, date, i, earliestDate.ms, latestDate.ms)
                  && Occurs(data, date, earliestDate) && Occurs(data, date, latestDate)
    {
      var parsed := date(data[i]);
      if parsed.ParseThrows? {
        return RangeThrows;
      }
      var current := parsed.t;
      if current.Invalid? {
        i := i + 1;
        continue;
      }
      if Before(current, earliestDate) {
        earliestDate := current;
      }
      if Before(latestDate, current) {
        latestDate := current;
      }
      i := i + 1;
    }
    r := Range(earliestDate, latestDate);
  }

  /** `getDateRange(data)`: null ends for anything but a non-empty array, otherwise the scan
      of the records' `CreatedAt` dates. */
  method GetDateRange(feed: Feed) returns (r: DateRange)
    ensures feed.NotAnArray? || feed.orders == [] ==> r == NullRange
    ensures feed.Records? && feed.orders != [] ==> RangeOf(feed.orders, TimeOf, r)
  {
    if feed.NotAnArray? || feed.orders == [] {
      return NullRange;
    }
    r := ScanRange(feed.orders, TimeOf);
  }
}
