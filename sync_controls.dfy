/**
 * The sync control panel of the admin pages: the `YYYY-MM-DD` check and
 * formatter for the time-log range, the range validation before a
 * time-log sync is launched, and the choice between launching a sync in
 * the background (heavy entity kinds) and awaiting its reply. The panel's
 * React state is a value; the server actions are what the panel launches,
 * and the awaited reply is an input.
 */
module SyncControls {
  import opened Wrappers
  import opened Strings
  import JsValue

  // ---------------------------------------------------------------------
  // dates as text

  /** `/^\d{4}-\d{2}-\d{2}$/.test(s)`: the shape only, with no calendar check. */
  predicate IsValidYmd(s: string) {
    && |s| == 10
    && IsAsciiDigit(s[0]) && IsAsciiDigit(s[1]) && IsAsciiDigit(s[2]) && IsAsciiDigit(s[3])
    && s[4] == '-'
    && IsAsciiDigit(s[5]) && IsAsciiDigit(s[6])
    && s[7] == '-'
    && IsAsciiDigit(s[8]) && IsAsciiDigit(s[9])
  }

  /** The shape does not know the calendar: month 13 and day 45 pass. */
  lemma NoCalendarCheck()
    ensures IsValidYmd("2024-13-45")
  {
  }

  /**
   * `formatLocalYmd`: the year as `String` writes it, then the 1-based
   * month and the day padded to two digits. `monthIndex` and `day` are
   * what `getMonth()` and `getDate()` return.
   */
  function FormatLocalYmd(year: int, monthIndex: nat, day: nat): string {
    IntToString(year) + "-" + PadStart2(NatToString(monthIndex + 1)) + "-" + PadStart2(NatToString(day))
  }

  /** All characters are digits. */
  predicate AllDigits(s: string) {
    forall i :: 0 <= i < |s| ==> IsAsciiDigit(s[i])
  }

  /** The value of one digit. */
  function Digit(c: char): (d: nat)
    requires IsAsciiDigit(c)
    ensures d <= 9
  {
    (c as int) - ('0' as int)
  }

  /** The number a string of digits writes, the last digit being the units. */
  function DigitsValue(s: string): nat
    requires AllDigits(s)
  {
    if s == [] then 0 else DigitsValue(s[..|s| - 1]) * 10 + Digit(s[|s| - 1])
  }

  /** A string of `k` digits writes a number below `10^k`. */
  lemma {:induction false} DigitsBound(s: string)
    requires AllDigits(s)
    ensures DigitsValue(s) < Pow10(|s|)
  {
    if s != [] {
      DigitsBound(s[..|s| - 1]);
    }
  }

  /** `String(n)` writes the digits of `n`. */
  lemma {:induction false} NatToStringValue(n: nat)
    ensures DigitsValue(NatToString(n)) == n
  {
    var r := NatToString(n);
    if n < 10 {
      assert r[..0] == [];
      assert Digit(DigitChar(n)) == n;
    } else {
      NatToStringValue(n / 10);
      assert r[..|r| - 1] == NatToString(n / 10);
      assert Digit(DigitChar(n % 10)) == n % 10;
    }
  }

  /** Below `10^k` (`k` at least one), `String` writes at most `k` digits. */
  lemma {:induction false} NatToStringShort(n: nat, k: nat)
    requires 1 <= k && n < Pow10(k)
    ensures |NatToString(n)| <= k
  {
    if n >= 10 {
      NatToStringShort(n / 10, k - 1);
    }
  }

  /** From `10^k` on, `String` writes more than `k` digits. */
  lemma {:induction false} NatToStringLong(n: nat, k: nat)
    requires Pow10(k) <= n
    ensures |NatToString(n)| > k
  {
    if k > 0 {
      NatToStringLong(n / 10, k - 1);
    }
  }

  /** Padding a number below 100 to two characters keeps its value. */
  lemma PaddedValue(n: nat)
    requires n < 100
    ensures var p := PadStart2(NatToString(n));
      |p| == 2 && AllDigits(p) && DigitsValue(p) == n
  {
    NatToStringValue(n);
    var r := NatToString(n);
    if n >= 10 {
      NatToStringLength(n, 1);
    } else {
      var p := "0" + r;
      assert p[..1] == "0" && p[..1][..0] == [];
    }
  }

  /** The year, month and day a valid date string writes. */
  function Year(s: string): nat
    requires IsValidYmd(s)
  {
    DigitsValue(s[..4])
  }

  function Month(s: string): nat
    requires IsValidYmd(s)
  {
    DigitsValue(s[5..7])
  }

  function Day(s: string): nat
    requires IsValidYmd(s)
  {
    DigitsValue(s[8..])
  }

  /** Four digits, a dash, two digits, a dash and two digits make a valid date string. */
  lemma YmdParts(y: string, m: string, d: string)
    requires |y| == 4 && |m| == 2 && |d| == 2 && AllDigits(y) && AllDigits(m) && AllDigits(d)
    ensures var s := y + "-" + m + "-" + d;
      IsValidYmd(s) && s[..4] == y && s[5..7] == m && s[8..] == d
  {
  }

  /**
   * For the years 1000 to 9999 the formatted date is valid and writes the
   * year, the 1-based month and the day it was made from.
   */
  lemma FormatLocalYmdValid(year: int, monthIndex: nat, day: nat)
    requires 1000 <= year <= 9999 && monthIndex <= 11 && 1 <= day <= 31
    ensures var s := FormatLocalYmd(year, monthIndex, day);
      IsValidYmd(s) && Year(s) == year && Month(s) == monthIndex + 1 && Day(s) == day
  {
    var y := NatToString(year);
    assert IntToString(year) == y;
    assert Pow10(3) == 1000 && Pow10(4) == 10000;
    NatToStringLength(year, 3);
    NatToStringValue(year);
    PaddedValue(monthIndex + 1);
    PaddedValue(day);
    YmdParts(y, PadStart2(NatToString(monthIndex + 1)), PadStart2(NatToString(day)));
  }

  /** A text that cannot start a valid date string, whatever follows it. */
  lemma NotYmdPrefix(y: string, rest: string)
    requires rest != [] && rest[0] == '-'
    requires (y != [] && y[0] == '-') || |y| < 4 || (|y| >= 5 && IsAsciiDigit(y[4]))
    ensures !IsValidYmd(y + rest)
  {
    var s := y + rest;
    if y != [] && y[0] == '-' {
      assert s[0] == '-';
    } else if |y| < 4 {
      assert s[|y|] == '-';
    } else {
      assert s[4] == y[4];
    }
  }

  /** Outside the years 1000 to 9999 the formatted date is never valid. */
  lemma FormatLocalYmdYears(year: int, monthIndex: nat, day: nat)
    requires !(1000 <= year <= 9999)
    ensures !IsValidYmd(FormatLocalYmd(year, monthIndex, day))
  {
    var y := IntToString(year);
    var rest := "-" + PadStart2(NatToString(monthIndex + 1)) + "-" + PadStart2(NatToString(day));
    assert FormatLocalYmd(year, monthIndex, day) == y + rest;
    assert Pow10(3) == 1000 && Pow10(4) == 10000;
    if year >= 10000 {
      NatToStringLong(year, 4);
    } else if year >= 0 {
      NatToStringShort(year, 3);
    }
    NotYmdPrefix(y, rest);
  }

  // ---------------------------------------------------------------------
  // string order on dates

  /** Comparing two texts of the same length followed by anything: the first texts decide unless equal. */
  lemma {:induction false} LessSplit(x: string, u: string, y: string, v: string)
    requires |x| == |y|
    ensures Less(x + u, y + v) <==> Less(x, y) || (x == y && Less(u, v))
  {
    if x != [] {
      assert (x + u)[0] == x[0] && (y + v)[0] == y[0];
      assert (x + u)[1..] == x[1..] + u && (y + v)[1..] == y[1..] + v;
      LessSplit(x[1..], u, y[1..], v);
      if x[0] == y[0] && x[1..] == y[1..] {
        assert x == [x[0]] + x[1..] && y == [y[0]] + y[1..];
      }
    } else {
      assert x + u == u && y + v == v;
    }
  }

  /**
   * On digit strings of the same length the string order is the order of
   * the numbers, and equal numbers mean equal strings.
   */
  lemma {:induction false} LessDigits(a: string, b: string)
    requires |a| == |b| && AllDigits(a) && AllDigits(b)
    ensures Less(a, b) <==> DigitsValue(a) < DigitsValue(b)
    ensures a == b <==> DigitsValue(a) == DigitsValue(b)
    decreases |a|
  {
    if a != [] {
      var n := |a| - 1;
      var ia, ib := a[..n], b[..n];
      assert a == ia + [a[n]] && b == ib + [b[n]];
      LessSplit(ia, [a[n]], ib, [b[n]]);
      LessDigits(ia, ib);
      LessDigits(ib, ia);
      if ia != ib {
        LessTotal(ia, ib);
      }
    }
  }

  /** The day a valid date string writes, as one number ordered like the dates. */
  function DayNumber(s: string): nat
    requires IsValidYmd(s)
  {
    Year(s) * 10000 + Month(s) * 100 + Day(s)
  }

  /** The string order of two dates written in pieces: year first, then month, then day. */
  lemma LessParts(ya: string, ma: string, da: string, yb: string, mb: string, db: string)
    requires |ya| == |yb| && |ma| == |mb|
    ensures Less(ya + "-" + ma + "-" + da, yb + "-" + mb + "-" + db) <==>
      Less(ya, yb) || (ya == yb && (Less(ma, mb) || (ma == mb && Less(da, db))))
  {
    assert ya + "-" + ma + "-" + da == ya + ("-" + (ma + ("-" + da)));
    assert yb + "-" + mb + "-" + db == yb + ("-" + (mb + ("-" + db)));
    LessSplit(ya, "-" + (ma + ("-" + da)), yb, "-" + (mb + ("-" + db)));
    LessSplit("-", ma + ("-" + da), "-", mb + ("-" + db));
    LessSplit(ma, "-" + da, mb, "-" + db);
    LessSplit("-", da, "-", db);
    LessIrreflexive("-");
  }

  /** The string order of valid date strings is the order of the days they write. */
  lemma LessIsChronological(a: string, b: string)
    requires IsValidYmd(a) && IsValidYmd(b)
    ensures Less(a, b) <==> DayNumber(a) < DayNumber(b)
  {
    assert a == a[..4] + "-" + a[5..7] + "-" + a[8..];
    assert b == b[..4] + "-" + b[5..7] + "-" + b[8..];
    LessParts(a[..4], a[5..7], a[8..], b[..4], b[5..7], b[8..]);
    LessDigits(a[..4], b[..4]);
    LessDigits(a[5..7], b[5..7]);
    LessDigits(a[8..], b[8..]);
    DigitsBound(a[5..7]);
    DigitsBound(b[5..7]);
    DigitsBound(a[8..]);
    DigitsBound(b[8..]);
    assert Pow10(2) == 100;
  }

  // ---------------------------------------------------------------------
  // the panel

  /** The panel's React state: the spinner, the status line, the error and the result list. */
  datatype Panel = Panel(syncing: bool, status: string, error: Option<string>, results: Option<seq<JsValue.Js>>)

  /** The server action a handler launches, if any. */
  datatype Launch = NoLaunch | Background(entities: seq<string>) | Awaited(entities: seq<string>) | BackgroundRange(from: string, to: string)

  /** What a handler leaves: the panel after its setters, the launch, and whether `onSyncComplete` ran. */
  datatype Outcome = Outcome(panel: Panel, launch: Launch, completed: bool)

  /** The reply of an awaited sync action, or the error it threw. */
  datatype Reply = Reply(status: string, message: string, error: Option<string>, results: Option<seq<JsValue.Js>>) | Thrown(message: string)

  const FormatError: string := "Неверный формат даты. Используйте YYYY-MM-DD."
  const OrderError: string := "Дата 'from' не может быть больше даты 'to'."
  const ErrorStatus: string := "Ошибка"
  const CrashStatus: string := "Критическая ошибка"
  const BackgroundStatus: string := "⏳ Синхронизация запущена в фоне..."
  const RangeStatus: string := "⏳ Синк таймшитов запущен в фоне..."

  /** The outcome of the range checks of `handleTimeLogsRangeSync`. */
  datatype RangeCheck = BadFormat | BadOrder | RangeOk

  /** The format of both ends is checked first, then `from > to` as strings. */
  function CheckRange(from: string, to: string): RangeCheck {
    if !IsValidYmd(from) || !IsValidYmd(to) then BadFormat
    else if Less(to, from) then BadOrder
    else RangeOk
  }

  /** `handleTimeLogsRangeSync`, up to its timers. */
  function TimeLogsRangeSync(from: string, to: string): Outcome {
    match CheckRange(from, to)
    case BadFormat => Outcome(Panel(false, ErrorStatus, Some(FormatError), None), NoLaunch, false)
    case BadOrder => Outcome(Panel(false, ErrorStatus, Some(OrderError), None), NoLaunch, false)
    case RangeOk => Outcome(Panel(true, RangeStatus, None, None), BackgroundRange(from, to), false)
  }

  /** A list with `cards` or `time_logs` is heavy and goes to the background. */
  predicate IsHeavy(entities: seq<string>) {
    "cards" in entities || "time_logs" in entities
  }

  /** `handleQuickSync`, up to its timers; `reply` is what the awaited action gives back. */
  function QuickSync(entities: seq<string>, reply: Reply): Outcome {
    if IsHeavy(entities) then Outcome(Panel(true, BackgroundStatus, None, None), Background(entities), false)
    else
      match reply
      case Thrown(message) => Outcome(Panel(false, CrashStatus, Some(message), None), Awaited(entities), false)
      case Reply(status, message, error, results) =>
        if status == "error" then
          var shown := if error.Some? && error.value != "" then error.value else message;
          Outcome(Panel(false, ErrorStatus, Some(shown), None), Awaited(entities), true)
        else
          Outcome(Panel(false, message, None, Some(if results.Some? then results.value else [])), Awaited(entities), true)
  }

  /**
   * No time-log sync starts exactly when an end is malformed or `from`
   * comes after `to` as a string; then the spinner is off and an error is
   * shown, the format error whenever an end is malformed.
   */
  lemma RangeRejected(from: string, to: string)
    ensures var o := TimeLogsRangeSync(from, to);
      && (o.launch == NoLaunch <==> !IsValidYmd(from) || !IsValidYmd(to) || Less(to, from))
      && (o.launch == NoLaunch ==> !o.panel.syncing && o.panel.error.Some? && o.panel.status == ErrorStatus)
      && (!IsValidYmd(from) || !IsValidYmd(to) ==> o.panel.error == Some(FormatError))
      && (o.launch != NoLaunch ==> o.launch == BackgroundRange(from, to) && o.panel.syncing)
  {
  }

  /**
   * Between valid dates the sync starts exactly when `from` is not after
   * `to` by the calendar; the same day at both ends is allowed.
   */
  lemma RangeChronological(from: string, to: string)
    requires IsValidYmd(from) && IsValidYmd(to)
    ensures TimeLogsRangeSync(from, to).launch == BackgroundRange(from, to) <==> DayNumber(from) <= DayNumber(to)
    ensures TimeLogsRangeSync(from, from).launch == BackgroundRange(from, from)
  {
    LessIsChronological(to, from);
    LessIrreflexive(from);
  }

  /**
   * A heavy list is launched in the background whatever the reply would
   * be, leaving the spinner on; any other list is awaited, the spinner
   * goes off, and the reply decides the error or the results.
   */
  lemma QuickSyncDispatch(entities: seq<string>, reply: Reply, other: Reply)
    ensures IsHeavy(entities) ==>
      && QuickSync(entities, reply) == QuickSync(entities, other)
      && QuickSync(entities, reply).launch == Background(entities) && QuickSync(entities, reply).panel.syncing
    ensures !IsHeavy(entities) ==> QuickSync(entities, reply).launch == Awaited(entities) && !QuickSync(entities, reply).panel.syncing
    ensures !IsHeavy(entities) && reply.Reply? ==>
      && QuickSync(entities, reply).completed
      && (reply.status == "error" <==> QuickSync(entities, reply).panel.error.Some?)
      && (reply.status != "error" ==> QuickSync(entities, reply).panel.results.Some?)
    ensures !IsHeavy(entities) && reply.Thrown? ==>
      QuickSync(entities, reply).panel.error == Some(reply.message) && !QuickSync(entities, reply).completed
  {
  }
}
