/**
 What cron fields mean, form by form: wildcards, values, ranges, steps, lists and names, and which of them are
 errors; listing the values of a field and parsing the list gives the field back.
 */
module CronFields {
  import opened Envelope
  import opened Calendar
  import opened Cron
  import opened DecimalText

  // ------------------------------------------------------------------ tokens

  /** The token is a known name for `x`, or no name and a number that reads as `x`. */
  predicate Worth(token: string, names: map<string, int>, lex: Lexer, x: int) {
    (token in names && names[token] == x) || (token !in names && lex(token) == Some(x))
  }

  /** Neither a name nor a number. */
  predicate Worthless(token: string, names: map<string, int>, lex: Lexer) {
    token !in names && lex(token) == None
  }

  lemma {:induction false} FirstIndex(a: string, c: char, b: string)
    requires c !in a
    ensures IndexOf(a + [c] + b, c) == |a|
  {
    if a != "" {
      assert (a + [c] + b)[1..] == a[1..] + [c] + b;
      FirstIndex(a[1..], c, b);
    }
  }

  lemma PartitionAt(a: string, c: char, b: string)
    requires c !in a
    ensures Partition(a + [c] + b, c) == (a, b)
  {
    FirstIndex(a, c, b);
    assert (a + [c] + b)[..|a|] == a && (a + [c] + b)[|a| + 1..] == b;
  }

  /** The body of a part and the text behind its slash. */
  function Stepped(body: string, text: string): string { body + "/" + text }

  lemma StepApart(body: string, text: string)
    requires '/' !in body
    ensures Partition(Stepped(body, text), '/') == (body, text) && Partition(body, '/') == (body, "")
  {
    PartitionAt(body, '/', text);
  }

  // ------------------------------------------------------------------- forms

  /** The part parses, and names exactly the values on the steps from `x` to `y`. */
  ghost predicate Names(part: string, lo: int, hi: int, names: map<string, int>, lex: Lexer, x: int, y: int, k: int)
    requires k >= 1
  {
    var m := Meaning(part, lo, hi, names, lex);
    && m.Some? && m.value.2 >= 1
    && forall v :: v in Progression(m.value.0, m.value.1, m.value.2) <==> x <= v <= y && (v - x) % k == 0
  }

  ghost predicate Fails(part: string, lo: int, hi: int, names: map<string, int>, lex: Lexer) {
    Meaning(part, lo, hi, names, lex) == None
  }

  lemma MeansProgression(part: string, lo: int, hi: int, names: map<string, int>, lex: Lexer, x: int, y: int, k: int)
    requires k >= 1 && Meaning(part, lo, hi, names, lex) == Some((x, y, k))
    ensures Names(part, lo, hi, names, lex, x, y, k)
  {
    hide Meaning;
    forall v ensures v in Progression(x, y, k) <==> x <= v <= y && (v - x) % k == 0 {
      assert OnStep(v, x, k) <==> (v - x) % k == 0;
    }
  }

  /** `*` names every value, and `*` with a step every so many-th from the lowest. */
  lemma StarMeans(lo: int, hi: int, names: map<string, int>, lex: Lexer, text: string, k: int)
    requires text != "" && lex(text) == Some(k)
    ensures Names("*", lo, hi, names, lex, lo, hi, 1)
    ensures if k >= 1 then Names("*/" + text, lo, hi, names, lex, lo, hi, k) else Fails("*/" + text, lo, hi, names, lex)
  {
    StepApart("*", text);
    assert Stepped("*", text) == "*/" + text;
    MeansProgression("*", lo, hi, names, lex, lo, hi, 1);
    if k >= 1 {
      MeansProgression("*/" + text, lo, hi, names, lex, lo, hi, k);
    }
  }

  /** A range names everything from its one end to the other, both included, or every so many-th of that. */
  lemma RangeMeans(a: string, b: string, lo: int, hi: int, names: map<string, int>, lex: Lexer, x: int, y: int,
                   text: string, k: int)
    requires '-' !in a && '/' !in a && '/' !in b && Worth(a, names, lex, x) && Worth(b, names, lex, y)
    requires text != "" && lex(text) == Some(k)
    ensures if lo <= x <= y <= hi then Names(a + "-" + b, lo, hi, names, lex, x, y, 1)
            else Fails(a + "-" + b, lo, hi, names, lex)
    ensures if lo <= x <= y <= hi && k >= 1 then Names(Stepped(a + "-" + b, text), lo, hi, names, lex, x, y, k)
            else Fails(Stepped(a + "-" + b, text), lo, hi, names, lex)
  {
    var body := a + "-" + b;
    PartitionAt(a, '-', b);
    StepApart(body, text);
    assert '-' in body by { assert body[|a|] == '-'; }
    hide Progression, Partition;
    if lo <= x <= y <= hi {
      MeansProgression(body, lo, hi, names, lex, x, y, 1);
      if k >= 1 {
        MeansProgression(Stepped(body, text), lo, hi, names, lex, x, y, k);
      }
    }
  }

  /** A single value names itself; with a step it starts a progression to the top, out of bounds or not above. */
  lemma ValueMeans(a: string, lo: int, hi: int, names: map<string, int>, lex: Lexer, x: int, text: string, k: int)
    requires a != "" && a != "*" && '-' !in a && '/' !in a && Worth(a, names, lex, x)
    requires text != "" && lex(text) == Some(k)
    ensures if lo <= x <= hi then Names(a, lo, hi, names, lex, x, x, 1) else Fails(a, lo, hi, names, lex)
    ensures if lo <= x && k >= 1 then Names(Stepped(a, text), lo, hi, names, lex, x, hi, k)
            else Fails(Stepped(a, text), lo, hi, names, lex)
  {
    StepApart(a, text);
    hide Progression, Partition;
    if lo <= x <= hi {
      MeansProgression(a, lo, hi, names, lex, x, x, 1);
    }
    if lo <= x && k >= 1 {
      MeansProgression(Stepped(a, text), lo, hi, names, lex, x, hi, k);
    }
  }

  /** What reads as no number is an error wherever it stands, and so is the empty part. */
  lemma GarbageFails(a: string, b: string, body: string, text: string, lo: int, hi: int, names: map<string, int>, lex: Lexer)
    requires '-' !in a && '/' !in a && '/' !in b && '/' !in body
    ensures Fails("", lo, hi, names, lex)
    ensures Worthless(a, names, lex) || Worthless(b, names, lex) ==> Fails(a + "-" + b, lo, hi, names, lex)
    ensures Worthless(a, names, lex) && a != "*" ==> Fails(a, lo, hi, names, lex)
    ensures text != "" && lex(text) == None ==> Fails(Stepped(body, text), lo, hi, names, lex)
  {
    PartitionAt(a, '-', b);
    StepApart(a + "-" + b, text);
    StepApart(a, text);
    StepApart(body, text);
    assert (a + "-" + b)[|a|] == '-';
  }

  // ------------------------------------------------------------------- lists

  function Commas(parts: seq<string>): string
    requires parts != []
  {
    if |parts| == 1 then parts[0] else parts[0] + "," + Commas(parts[1..])
  }

  /** Splitting undoes joining. */
  lemma {:induction false} SplitCommas(parts: seq<string>)
    requires parts != [] && forall i :: 0 <= i < |parts| ==> ',' !in parts[i]
    ensures Split(Commas(parts), ',') == parts
  {
    if |parts| > 1 {
      FirstIndex(parts[0], ',', Commas(parts[1..]));
      var s := parts[0] + "," + Commas(parts[1..]);
      assert s[..|parts[0]|] == parts[0] && s[|parts[0]| + 1..] == Commas(parts[1..]);
      SplitCommas(parts[1..]);
    }
  }

  // ----------------------------------------------------------------- numbers

  /** Unsigned decimal numbers: the part of `int` that ordinary expressions use. */
  function Digits(s: string): Option<int> {
    if s != "" && AllDigits(s) then Some(Number(s)) else None
  }

  predicate Alphabetic(names: map<string, int>) {
    forall k :: k in names ==> k != "" && !IsDigit(k[0])
  }

  lemma DecimalIsWorth(n: nat, names: map<string, int>)
    requires Alphabetic(names)
    ensures var a := Decimal(n);
            a != "" && a != "*" && '-' !in a && '/' !in a && ',' !in a && Worth(a, names, Digits, n)
  {
    NumberOfDecimal(n);
    assert IsDigit(Decimal(n)[0]);
    assert "*"[0] == '*' && !IsDigit('*');
  }

  // -------------------------------------------------------------- round trip

  function Decimals(vs: seq<nat>): (parts: seq<string>)
    ensures |parts| == |vs| && forall i :: 0 <= i < |vs| ==> parts[i] == Decimal(vs[i])
  {
    seq(|vs|, i requires 0 <= i < |vs| => Decimal(vs[i]))
  }

  lemma {:induction false} ListDenotes(vs: seq<nat>, lo: int, hi: int, names: map<string, int>)
    requires Alphabetic(names) && forall i :: 0 <= i < |vs| ==> lo <= vs[i] <= hi
    ensures Denotation(Decimals(vs), lo, hi, names, Digits).Some?
    ensures forall v: int :: v in Denotation(Decimals(vs), lo, hi, names, Digits).value <==> exists i :: 0 <= i < |vs| && vs[i] == v
  {
    hide Meaning, Progression, Decimal, Alphabetic, Worth;
    if vs != [] {
      var n := |vs| - 1;
      ListDenotes(vs[..n], lo, hi, names);
      assert Decimals(vs)[..n] == Decimals(vs[..n]);
      OneValue(vs[n], lo, hi, names);
      forall v: int
        ensures v in Denotation(Decimals(vs), lo, hi, names, Digits).value <==> exists i :: 0 <= i < |vs| && vs[i] == v
      {
        if i :| 0 <= i < |vs| && vs[i] == v {
          assert i < n ==> vs[..n][i] == v;
        }
      }
    }
  }

  lemma OneValue(x: nat, lo: int, hi: int, names: map<string, int>)
    requires Alphabetic(names) && lo <= x <= hi
    ensures Names(Decimal(x), lo, hi, names, Digits, x, x, 1)
  {
    DecimalIsWorth(x, names);
    NumberOfDecimal(1);
    ValueMeans(Decimal(x), lo, hi, names, Digits, x, Decimal(1), 1);
  }

  /** Listing some values of a field and parsing the list gives exactly these values. */
  lemma FieldRoundTrip(vs: seq<nat>, lo: int, hi: int, names: map<string, int>)
    requires vs != [] && Alphabetic(names) && forall i :: 0 <= i < |vs| ==> lo <= vs[i] <= hi
    ensures var field := Commas(Decimals(vs));
            && Denotation(Split(field, ','), lo, hi, names, Digits).Some?
            && !Nothing(field, lo, hi, names, Digits)
            && forall v: int :: v in Denotation(Split(field, ','), lo, hi, names, Digits).value <==>
                                exists i :: 0 <= i < |vs| && vs[i] == v
  {
    forall i | 0 <= i < |vs| ensures ',' !in Decimals(vs)[i] {
      DecimalIsWorth(vs[i], names);
    }
    SplitCommas(Decimals(vs));
    ListDenotes(vs, lo, hi, names);
    assert vs[0] in Denotation(Decimals(vs), lo, hi, names, Digits).value;
  }

  // -------------------------------------------------------------- five fields

  /** The names number the months from 1, quarter by quarter. */
  lemma FirstQuarter()
    ensures MONTH_NAMES["jan"] == 1 && MONTH_NAMES["feb"] == 2 && MONTH_NAMES["mar"] == 3
  {
  }

  lemma SecondQuarter()
    ensures MONTH_NAMES["apr"] == 4 && MONTH_NAMES["may"] == 5 && MONTH_NAMES["jun"] == 6
  {
  }

  lemma ThirdQuarter()
    ensures MONTH_NAMES["jul"] == 7 && MONTH_NAMES["aug"] == 8 && MONTH_NAMES["sep"] == 9
  {
  }

  lemma FourthQuarter()
    ensures MONTH_NAMES["oct"] == 10 && MONTH_NAMES["nov"] == 11 && MONTH_NAMES["dec"] == 12
  {
  }

  /** There are no other names of months. */
  lemma NoOtherMonths(name: string)
    requires name in MONTH_NAMES
    ensures name in {"jan", "feb", "mar", "apr", "may", "jun", "jul", "aug", "sep", "oct", "nov", "dec"}
  {
  }

  /** Weekdays count from Sunday, as `CronWeekday` does, and there are no others. */
  lemma WeekdayNames()
    ensures DOW_NAMES["sun"] == 0 && DOW_NAMES["mon"] == 1 && DOW_NAMES["tue"] == 2 && DOW_NAMES["wed"] == 3
    ensures DOW_NAMES["thu"] == 4 && DOW_NAMES["fri"] == 5 && DOW_NAMES["sat"] == 6
    ensures DOW_NAMES.Keys == {"sun", "mon", "tue", "wed", "thu", "fri", "sat"}
  {
  }

  lemma NamesAreAlphabetic()
    ensures Alphabetic(MONTH_NAMES) && Alphabetic(DOW_NAMES) && Alphabetic(map[])
  {
  }

  /** 0 and 7 are both Sunday; the other days are themselves. */
  lemma SundayTwice(dow: set<int>, d: int)
    requires 0 <= d <= 6
    ensures d in FoldSunday(dow) <==> d in dow || (d == 0 && 7 in dow)
    ensures 7 !in FoldSunday(dow)
  {
  }

  /** A field `*` restricts nothing; any other marks its field as restricted. */
  lemma StarsRestrictNothing(fields: seq<string>, lex: Lexer, s: CronSpec)
    requires Denotes(fields, lex, s)
    ensures s.domRestricted <==> fields[2] != "*"
    ensures s.dowRestricted <==> fields[4] != "*"
    ensures fields[2] == "*" ==> forall d :: 1 <= d <= 31 ==> d in s.daysOfMonth
    ensures fields[4] == "*" ==> forall d :: 0 <= d <= 6 ==> d in s.daysOfWeek
  {
    hide Denotation, Split, Progression;
    StarIsFull(1, 31, map[], lex);
    StarIsFull(0, 7, DOW_NAMES, lex);
    if fields[4] == "*" {
      forall d | 0 <= d <= 6 ensures d in s.daysOfWeek {
        SundayTwice(Progression(0, 7, 1), d);
      }
    }
  }

  lemma OnePart(part: string, lo: int, hi: int, names: map<string, int>, lex: Lexer, x: int, y: int)
    requires ',' !in part && Names(part, lo, hi, names, lex, x, y, 1)
    ensures Denotation(Split(part, ','), lo, hi, names, lex).Some?
    ensures forall v :: v in Denotation(Split(part, ','), lo, hi, names, lex).value <==> x <= v <= y
  {
    hide Meaning, Progression;
    SplitCommas([part]);
    assert Commas([part]) == part;
    assert [part][..0] == [];
  }

  /** `0 9 * * 1-5`: nine o'clock from Monday to Friday, and at no other time. */
  lemma WorkdaysAtNine(s: CronSpec, t: Local)
    requires Denotes(["0", "9", "*", "*", "1-5"], Digits, s)
    ensures Fires(s, t) <==>
              && IsLocal(t) && t.micros == 0 && t.minute == 0 && t.hour == 9
              && 1 <= CronWeekday(t.date) <= 5
  {
    hide Denotation, Meaning, Split, Names, Ordinal, DaysIn;
    var fields := ["0", "9", "*", "*", "1-5"];
    NamesAreAlphabetic();
    OneDigit(0);
    OneDigit(1);
    OneDigit(5);
    OneDigit(9);
    OneValue(0, 0, 59, map[]);
    OnePart("0", 0, 59, map[], Digits, 0, 0);
    OneValue(9, 0, 23, map[]);
    OnePart("9", 0, 23, map[], Digits, 9, 9);
    StarMeans(1, 12, MONTH_NAMES, Digits, "1", 1);
    OnePart("*", 1, 12, MONTH_NAMES, Digits, 1, 12);
    DecimalIsWorth(1, DOW_NAMES);
    DecimalIsWorth(5, DOW_NAMES);
    RangeMeans("1", "5", 0, 7, DOW_NAMES, Digits, 1, 5, "1", 1);
    assert "1" + "-" + "5" == "1-5";
    OnePart("1-5", 0, 7, DOW_NAMES, Digits, 1, 5);
    StarsRestrictNothing(fields, Digits, s);
    WorkdayFields(s, t);
  }

  lemma OneNumber(x: nat, lo: int, hi: int, names: map<string, int>)
    requires Alphabetic(names) && lo <= hi
    ensures Nothing(Decimal(x), lo, hi, names, Digits) <==> !(lo <= x <= hi)
    ensures lo <= x <= hi ==>
              && Denotation(Split(Decimal(x), ','), lo, hi, names, Digits).Some?
              && forall v :: v in Denotation(Split(Decimal(x), ','), lo, hi, names, Digits).value <==> v == x
  {
    hide Meaning, Progression, Names, Decimal;
    DecimalIsWorth(x, names);
    NumberOfDecimal(1);
    ValueMeans(Decimal(x), lo, hi, names, Digits, x, Decimal(1), 1);
    if lo <= x <= hi {
      OnePart(Decimal(x), lo, hi, names, Digits, x, x);
      assert x in Denotation(Split(Decimal(x), ','), lo, hi, names, Digits).value;
    } else {
      OneFailure(Decimal(x), lo, hi, names, Digits);
    }
  }

  lemma OneFailure(part: string, lo: int, hi: int, names: map<string, int>, lex: Lexer)
    requires ',' !in part && Fails(part, lo, hi, names, lex)
    ensures Nothing(part, lo, hi, names, lex)
  {
    hide Meaning, Progression;
    SplitCommas([part]);
    assert Commas([part]) == part;
    assert [part][..0] == [];
  }

  function FiveNumbers(minute: nat, hour: nat, day: nat, month: nat, weekday: nat): seq<string> {
    [Decimal(minute), Decimal(hour), Decimal(day), Decimal(month), Decimal(weekday)]
  }

  /** Five plain numbers: which are accepted, and when they fire - on the day of the month and on the weekday. */
  lemma FiveNumbersMean(minute: nat, hour: nat, day: nat, month: nat, weekday: nat, s: CronSpec, t: Local)
    ensures var fields := FiveNumbers(minute, hour, day, month, weekday);
            && (!Malformed(fields, Digits) <==>
                  minute <= 59 && hour <= 23 && 1 <= day <= 31 && 1 <= month <= 12 && weekday <= 7)
            && (!Malformed(fields, Digits) && Denotes(fields, Digits, s) ==>
                  (Fires(s, t) <==>
                     && IsLocal(t) && t.micros == 0 && t.minute == minute && t.hour == hour && t.date.month == month
                     && (t.date.day == day || CronWeekday(t.date) == weekday % 7)))
  {
    hide Denotation, Split, Decimal, Nothing, Fires, IsLocal, Alphabetic;
    NamesAreAlphabetic();
    OneNumber(minute, 0, 59, map[]);
    OneNumber(hour, 0, 23, map[]);
    OneNumber(day, 1, 31, map[]);
    OneNumber(month, 1, 12, MONTH_NAMES);
    OneNumber(weekday, 0, 7, DOW_NAMES);
    DecimalIsWorth(day, map[]);
    DecimalIsWorth(weekday, map[]);
    var fields := FiveNumbers(minute, hour, day, month, weekday);
    if !Malformed(fields, Digits) && Denotes(fields, Digits, s) {
      OneWeekday(s, weekday);
      NumbersFire(s, t, minute, hour, day, month, weekday);
    }
  }

  lemma OneWeekday(s: CronSpec, weekday: nat)
    requires weekday <= 7 && exists dow: set<int> :: (forall v :: v in dow <==> v == weekday) && s.daysOfWeek == FoldSunday(dow)
    ensures forall v :: v in s.daysOfWeek <==> v == weekday % 7
  {
  }

  lemma NumbersFire(s: CronSpec, t: Local, minute: nat, hour: nat, day: nat, month: nat, weekday: nat)
    requires s.domRestricted && s.dowRestricted && weekday <= 7
    requires forall v :: v in s.minutes <==> v == minute
    requires forall v :: v in s.hours <==> v == hour
    requires forall v :: v in s.daysOfMonth <==> v == day
    requires forall v :: v in s.months <==> v == month
    requires forall v :: v in s.daysOfWeek <==> v == weekday % 7
    ensures Fires(s, t) <==>
              && IsLocal(t) && t.micros == 0 && t.minute == minute && t.hour == hour && t.date.month == month
              && (t.date.day == day || CronWeekday(t.date) == weekday % 7)
  {
    hide Ordinal, IsLocal;
  }

  lemma OneDigit(n: nat)
    requires n < 10
    ensures Decimal(n) == [Digit(n)] && Digits([Digit(n)]) == Some(n)
  {
    NumberOfDecimal(n);
  }

  lemma WorkdayFields(s: CronSpec, t: Local)
    requires forall v :: v in s.minutes <==> v == 0
    requires forall v :: v in s.hours <==> v == 9
    requires forall v :: v in s.months <==> 1 <= v <= 12
    requires forall d :: 0 <= d <= 6 ==> (d in s.daysOfWeek <==> 1 <= d <= 5)
    requires !s.domRestricted && forall d :: 1 <= d <= 31 ==> d in s.daysOfMonth
    ensures Fires(s, t) <==>
              && IsLocal(t) && t.micros == 0 && t.minute == 0 && t.hour == 9
              && 1 <= CronWeekday(t.date) <= 5
  {
    hide Ordinal;
    assert 0 <= CronWeekday(t.date) <= 6;
    assert IsLocal(t) ==> 1 <= t.date.day <= 31;
  }
}
