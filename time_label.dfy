/** `TimeConversion`: a millisecond count split into hours, minutes,
    seconds and milliseconds, and its text as the time label shows it.

    The text is built the way the program builds it: a `QString` template
    with numbered markers `%1`..`%4`, filled by successive `QString::arg`
    calls, each of which replaces every occurrence of the lowest-numbered
    marker left and does nothing when none is left. */
module TimeConversion {
  import opened Common

  const Ms2Hr: nat := 3600000
  const Ms2Min: nat := 60000
  const Ms2Sec: nat := 1000

  /** `TimeConversion::Time`. */
  datatype Time = Time(raw: nat, hr: nat, min: nat, sec: nat, ms: nat)

  /** `convert_time`: the fields of `raw` milliseconds. */
  function ConvertTime(raw: nat): (t: Time)
    ensures t.raw == raw
    ensures t.hr * Ms2Hr + t.min * Ms2Min + t.sec * Ms2Sec + t.ms == raw
    ensures t.min < 60 && t.sec < 60 && t.ms < 1000
  {
    var rest := raw % Ms2Hr;
    var restOfMinute := rest % Ms2Min;
    Time(raw, raw / Ms2Hr, rest / Ms2Min, restOfMinute / Ms2Sec, restOfMinute % Ms2Sec)
  }

  /** The fields are the only ones within their ranges that add up to the
      count: splitting a composed time gives its fields back. */
  lemma ConvertTimeOfFields(hr: nat, min: nat, sec: nat, ms: nat)
    requires min < 60 && sec < 60 && ms < 1000
    ensures var raw := hr * Ms2Hr + min * Ms2Min + sec * Ms2Sec + ms;
            ConvertTime(raw) == Time(raw, hr, min, sec, ms)
  {
    var raw := hr * Ms2Hr + min * Ms2Min + sec * Ms2Sec + ms;
    var t := ConvertTime(raw);
    var inHour := min * Ms2Min + sec * Ms2Sec + ms;
    assert raw == hr * Ms2Hr + inHour && inHour < Ms2Hr;
    assert t.hr == hr;
    assert t.min == min;
    assert t.sec == sec;
  }

  /** Decimal digits. */
  function DigitChar(d: nat): char
    requires d < 10
  {
    ['0', '1', '2', '3', '4', '5', '6', '7', '8', '9'][d]
  }

  predicate IsDigit(c: char)
  {
    '0' <= c <= '9'
  }

  /** `QString::number(n)`. */
  function Decimal(n: nat): (s: string)
    ensures |s| >= 1
    ensures forall i :: 0 <= i < |s| ==> IsDigit(s[i])
  {
    if n < 10 then [DigitChar(n)] else Decimal(n / 10) + [DigitChar(n % 10)]
  }

  /** The number a string of digits denotes. */
  function Value(s: string): nat
    requires forall i :: 0 <= i < |s| ==> IsDigit(s[i])
  {
    if s == [] then 0
    else
      var last := s[|s| - 1];
      assert IsDigit(last);
      Value(s[..|s| - 1]) * 10 + (last as int - '0' as int)
  }

  lemma {:induction false} DecimalValue(n: nat)
    ensures Value(Decimal(n)) == n
  {
    if n >= 10 {
      var s := Decimal(n);
      assert s[..|s| - 1] == Decimal(n / 10);
      DecimalValue(n / 10);
    }
  }

  /** A number below 100 has at most two digits. */
  lemma DecimalLength(n: nat)
    ensures n < 10 ==> |Decimal(n)| == 1
    ensures 10 <= n < 100 ==> |Decimal(n)| == 2
  {
  }

  function Zeros(k: nat): (s: string)
    ensures |s| == k && forall i :: 0 <= i < k ==> s[i] == '0'
  {
    if k == 0 then "" else Zeros(k - 1) + "0"
  }

  /** `arg(n, width, 10, QChar('0'))`: the decimal text, left-padded with
      zeros to `width` characters. */
  function Padded(n: nat, width: nat): (s: string)
    ensures |s| == if width > |Decimal(n)| then width else |Decimal(n)|
    ensures forall i :: 0 <= i < |s| ==> IsDigit(s[i])
  {
    var digits := Decimal(n);
    Zeros(if width > |digits| then width - |digits| else 0) + digits
  }

  lemma {:induction false} LeadingZerosValue(k: nat, s: string)
    requires forall i :: 0 <= i < |s| ==> IsDigit(s[i])
    ensures Value(Zeros(k) + s) == Value(s)
    decreases |s|
  {
    if s != [] {
      var t := Zeros(k) + s;
      assert t[..|t| - 1] == Zeros(k) + s[..|s| - 1];
      LeadingZerosValue(k, s[..|s| - 1]);
    } else {
      assert Zeros(k) + s == Zeros(k);
      ZerosValue(k);
    }
  }

  lemma {:induction false} ZerosValue(k: nat)
    ensures Value(Zeros(k)) == 0
  {
    if k > 0 {
      assert Zeros(k)[..k - 1] == Zeros(k - 1);
      ZerosValue(k - 1);
    }
  }

  /** Padding does not change the number shown. */
  lemma PaddedValue(n: nat, width: nat)
    ensures Value(Padded(n, width)) == n
  {
    var digits := Decimal(n);
    LeadingZerosValue(if width > |digits| then width - |digits| else 0, digits);
    DecimalValue(n);
  }

  /** A piece of a `QString` template: literal text, the marker `%n`, or
      the text of the `k`-th argument (counting from 0) already put in. */
  datatype Piece = Lit(text: string) | Marker(n: nat) | Given(k: nat)

  /** A `QString` template, piece by piece. */
  datatype Template = End | Then(piece: Piece, rest: Template)

  predicate HasMarker(t: Template, n: nat)
  {
    match t
    case End => false
    case Then(p, rest) => p == Marker(n) || HasMarker(rest, n)
  }

  /** The lowest-numbered marker of a template. */
  function LowestMarker(t: Template): (r: Option<nat>)
    ensures r.Some? ==> HasMarker(t, r.value)
    ensures forall n :: HasMarker(t, n) ==> r.Some? && r.value <= n
  {
    match t
    case End => None
    case Then(p, rest) =>
      var r := LowestMarker(rest);
      if p.Marker? && (r.None? || p.n <= r.value) then Some(p.n) else r
  }

  /** Every occurrence of `%n` replaced by the `k`-th argument. */
  function Fill(t: Template, n: nat, k: nat): (r: Template)
    ensures !HasMarker(r, n)
    ensures forall m :: m != n ==> (HasMarker(r, m) <==> HasMarker(t, m))
  {
    match t
    case End => End
    case Then(p, rest) => Then(if p == Marker(n) then Given(k) else p, Fill(rest, n, k))
  }

  /** The `k`-th `QString::arg` call: every occurrence of the lowest
      marker gets the argument; without a marker nothing changes. */
  function Arg(t: Template, k: nat): Template
  {
    match LowestMarker(t)
    case None => t
    case Some(n) => Fill(t, n, k)
  }

  /** `count` successive `arg` calls. */
  function ArgCalls(t: Template, count: nat): Template
  {
    if count == 0 then t else Arg(ArgCalls(t, count - 1), count - 1)
  }

  /** The text of a template given the arguments, appended to `text`; a
      marker left unfilled shows as itself. */
  function RenderAfter(text: string, t: Template, args: seq<string>): string
    decreases t
  {
    match t
    case End => text
    case Then(Lit(s), rest) => RenderAfter(text + s, rest, args)
    case Then(Marker(n), rest) => RenderAfter(text + "%" + Decimal(n), rest, args)
    case Then(Given(k), rest) => RenderAfter(text + (if k < |args| then args[k] else ""), rest, args)
  }

  function Render(t: Template, args: seq<string>): string
  {
    RenderAfter("", t, args)
  }

  /** `QString(template).arg(args[0]).arg(args[1])...`. */
  function Format(t: Template, args: seq<string>): string
  {
    Render(ArgCalls(t, |args|), args)
  }

  /** `"%1:%2:%3.%4"`. */
  const HoursTemplate: Template :=
    Then(Marker(1), Then(Lit(":"), Then(Marker(2), Then(Lit(":"), Then(Marker(3), Then(Lit("."), Then(Marker(4), End)))))))

  /** `"%1:%2.%3"`. */
  const MinutesTemplate: Template :=
    Then(Marker(1), Then(Lit(":"), Then(Marker(2), Then(Lit("."), Then(Marker(3), End)))))

  /** `"%1 / %2"`. */
  const OutOfTemplate: Template := Then(Marker(1), Then(Lit(" / "), Then(Marker(2), End)))

  /** The template has an hours field exactly when there are hours. */
  lemma TemplateHasHoursField(time: Time)
    ensures HasMarker(if time.hr != 0 then HoursTemplate else MinutesTemplate, 4) <==> time.hr != 0
  {
  }

  /** The arguments in the order `Time2QString` passes them: the hours
      only when `showHours`, the minutes padded to two digits only when
      `showHours`, the seconds to two, and the tenths of a second. */
  function TimeArgs(time: Time, showHours: bool): (args: seq<string>)
    ensures |args| == if showHours then 4 else 3
  {
    (if showHours then [Decimal(time.hr)] else [])
      + [Padded(time.min, if showHours then 2 else 1), Padded(time.sec, 2), Padded(time.ms / 100, 1)]
  }

  /** `Time2QString` as written: the template is chosen by the time's own
      hours, not by `showHours`. */
  function WrittenTimeString(time: Time, showHours: bool): string
  {
    Format(if time.hr != 0 then HoursTemplate else MinutesTemplate, TimeArgs(time, showHours))
  }

  /** The corrected `Time2QString`: the template is chosen by `showHours`,
      as the caller intends; the program uses `WrittenTimeString`. */
  function TimeString(time: Time, showHours: bool): string
  {
    Format(if showHours then HoursTemplate else MinutesTemplate, TimeArgs(time, showHours))
  }

  /** The intended clock text: `H:MM:SS.t` with hours, `M:SS.t` without. */
  function Clock(time: Time, showHours: bool): string
  {
    if showHours then
      Decimal(time.hr) + ":" + Padded(time.min, 2) + ":" + Padded(time.sec, 2) + "." + Decimal(time.ms / 100)
    else
      Decimal(time.min) + ":" + Padded(time.sec, 2) + "." + Decimal(time.ms / 100)
  }

  lemma PaddedToOne(n: nat)
    ensures Padded(n, 1) == Decimal(n)
  {
    assert Zeros(0) + Decimal(n) == Decimal(n);
  }

  /** The four `arg` calls on the long template put the arguments in
      order; three leave `%4`. */
  lemma HoursCalls()
    ensures ArgCalls(HoursTemplate, 4)
         == Then(Given(0), Then(Lit(":"), Then(Given(1), Then(Lit(":"), Then(Given(2), Then(Lit("."), Then(Given(3), End)))))))
    ensures ArgCalls(HoursTemplate, 3)
         == Then(Given(0), Then(Lit(":"), Then(Given(1), Then(Lit(":"), Then(Given(2), Then(Lit("."), Then(Marker(4), End)))))))
  {
    ArgFirst();
    ArgSecond();
    ArgThird();
    ArgFourth();
  }

  lemma ArgFirst()
    ensures Arg(HoursTemplate, 0)
         == Then(Given(0), Then(Lit(":"), Then(Marker(2), Then(Lit(":"), Then(Marker(3), Then(Lit("."), Then(Marker(4), End)))))))
  {
    assert LowestMarker(HoursTemplate) == Some(1);
  }

  lemma ArgSecond()
    ensures Arg(Then(Given(0), Then(Lit(":"), Then(Marker(2), Then(Lit(":"), Then(Marker(3), Then(Lit("."), Then(Marker(4), End))))))), 1)
         == Then(Given(0), Then(Lit(":"), Then(Given(1), Then(Lit(":"), Then(Marker(3), Then(Lit("."), Then(Marker(4), End)))))))
  {
    assert LowestMarker(Then(Given(0), Then(Lit(":"), Then(Marker(2), Then(Lit(":"), Then(Marker(3), Then(Lit("."), Then(Marker(4), End)))))))) == Some(2);
  }

  lemma ArgThird()
    ensures Arg(Then(Given(0), Then(Lit(":"), Then(Given(1), Then(Lit(":"), Then(Marker(3), Then(Lit("."), Then(Marker(4), End))))))), 2)
         == Then(Given(0), Then(Lit(":"), Then(Given(1), Then(Lit(":"), Then(Given(2), Then(Lit("."), Then(Marker(4), End)))))))
  {
    assert LowestMarker(Then(Given(0), Then(Lit(":"), Then(Given(1), Then(Lit(":"), Then(Marker(3), Then(Lit("."), Then(Marker(4), End)))))))) == Some(3);
  }

  lemma ArgFourth()
    ensures Arg(Then(Given(0), Then(Lit(":"), Then(Given(1), Then(Lit(":"), Then(Given(2), Then(Lit("."), Then(Marker(4), End))))))), 3)
         == Then(Given(0), Then(Lit(":"), Then(Given(1), Then(Lit(":"), Then(Given(2), Then(Lit("."), Then(Given(3), End)))))))
  {
    assert LowestMarker(Then(Given(0), Then(Lit(":"), Then(Given(1), Then(Lit(":"), Then(Given(2), Then(Lit("."), Then(Marker(4), End)))))))) == Some(4);
  }

  /** Four arguments fill the four fields of the long template. */
  lemma FormatHours(args: seq<string>)
    requires |args| == 4
    ensures Format(HoursTemplate, args) == args[0] + ":" + args[1] + ":" + args[2] + "." + args[3]
  {
    var t6 := Then(Given(3), End);
    var t5 := Then(Lit("."), t6);
    var t4 := Then(Given(2), t5);
    var t3 := Then(Lit(":"), t4);
    var t2 := Then(Given(1), t3);
    var t1 := Then(Lit(":"), t2);
    var t0 := Then(Given(0), t1);
    HoursCalls();
    var front := args[0] + ":" + args[1] + ":" + args[2];
    assert "" + args[0] == args[0];
    assert RenderAfter("", t0, args) == RenderAfter(args[0], t1, args);
    assert RenderAfter(args[0], t1, args) == RenderAfter(args[0] + ":", t2, args);
    assert RenderAfter(args[0] + ":", t2, args) == RenderAfter(args[0] + ":" + args[1], t3, args);
    assert RenderAfter(args[0] + ":" + args[1], t3, args) == RenderAfter(args[0] + ":" + args[1] + ":", t4, args);
    assert RenderAfter(args[0] + ":" + args[1] + ":", t4, args) == RenderAfter(front, t5, args);
    assert RenderAfter(front, t5, args) == RenderAfter(front + ".", t6, args);
    assert RenderAfter(front + ".", t6, args) == front + "." + args[3];
  }

  /** The `arg` calls on the short template put the arguments in order; a
      fourth call finds no marker and changes nothing. */
  lemma MinutesCalls()
    ensures ArgCalls(MinutesTemplate, 3) == Then(Given(0), Then(Lit(":"), Then(Given(1), Then(Lit("."), Then(Given(2), End)))))
    ensures ArgCalls(MinutesTemplate, 4) == ArgCalls(MinutesTemplate, 3)
  {
    MinutesFirst();
    MinutesSecond();
    MinutesThird();
    assert LowestMarker(Then(Given(0), Then(Lit(":"), Then(Given(1), Then(Lit("."), Then(Given(2), End)))))).None?;
  }

  lemma MinutesFirst()
    ensures Arg(MinutesTemplate, 0) == Then(Given(0), Then(Lit(":"), Then(Marker(2), Then(Lit("."), Then(Marker(3), End)))))
  {
    assert LowestMarker(MinutesTemplate) == Some(1);
  }

  lemma MinutesSecond()
    ensures Arg(Then(Given(0), Then(Lit(":"), Then(Marker(2), Then(Lit("."), Then(Marker(3), End))))), 1)
         == Then(Given(0), Then(Lit(":"), Then(Given(1), Then(Lit("."), Then(Marker(3), End)))))
  {
    assert LowestMarker(Then(Given(0), Then(Lit(":"), Then(Marker(2), Then(Lit("."), Then(Marker(3), End)))))) == Some(2);
  }

  lemma MinutesThird()
    ensures Arg(Then(Given(0), Then(Lit(":"), Then(Given(1), Then(Lit("."), Then(Marker(3), End))))), 2)
         == Then(Given(0), Then(Lit(":"), Then(Given(1), Then(Lit("."), Then(Given(2), End)))))
  {
    assert LowestMarker(Then(Given(0), Then(Lit(":"), Then(Given(1), Then(Lit("."), Then(Marker(3), End)))))) == Some(3);
  }

  /** The short template takes its three fields from the first three
      arguments; a fourth finds no marker. */
  lemma FormatMinutes(args: seq<string>)
    requires |args| == 3 || |args| == 4
    ensures Format(MinutesTemplate, args) == args[0] + ":" + args[1] + "." + args[2]
  {
    var t4 := Then(Given(2), End);
    var t3 := Then(Lit("."), t4);
    var t2 := Then(Given(1), t3);
    var t1 := Then(Lit(":"), t2);
    var t0 := Then(Given(0), t1);
    MinutesCalls();
    assert "" + args[0] == args[0];
    assert RenderAfter("", t0, args) == RenderAfter(args[0], t1, args);
    assert RenderAfter(args[0], t1, args) == RenderAfter(args[0] + ":", t2, args);
    assert RenderAfter(args[0] + ":", t2, args) == RenderAfter(args[0] + ":" + args[1], t3, args);
    assert RenderAfter(args[0] + ":" + args[1], t3, args) == RenderAfter(args[0] + ":" + args[1] + ".", t4, args);
    assert RenderAfter(args[0] + ":" + args[1] + ".", t4, args) == args[0] + ":" + args[1] + "." + args[2];
  }

  /** Three arguments for the long template: `%4` stays in the text. */
  lemma FormatHoursShort(args: seq<string>)
    requires |args| == 3
    ensures Format(HoursTemplate, args) == args[0] + ":" + args[1] + ":" + args[2] + ".%4"
  {
    var t6 := Then(Marker(4), End);
    var t5 := Then(Lit("."), t6);
    var t4 := Then(Given(2), t5);
    var t3 := Then(Lit(":"), t4);
    var t2 := Then(Given(1), t3);
    var t1 := Then(Lit(":"), t2);
    var t0 := Then(Given(0), t1);
    HoursCalls();
    assert Decimal(4) == "4";
    var front := args[0] + ":" + args[1] + ":" + args[2];
    assert "" + args[0] == args[0];
    assert RenderAfter("", t0, args) == RenderAfter(args[0], t1, args);
    assert RenderAfter(args[0], t1, args) == RenderAfter(args[0] + ":", t2, args);
    assert RenderAfter(args[0] + ":", t2, args) == RenderAfter(args[0] + ":" + args[1], t3, args);
    assert RenderAfter(args[0] + ":" + args[1], t3, args) == RenderAfter(args[0] + ":" + args[1] + ":", t4, args);
    assert RenderAfter(args[0] + ":" + args[1] + ":", t4, args) == RenderAfter(front, t5, args);
    assert RenderAfter(front, t5, args) == RenderAfter(front + ".", t6, args);
    assert RenderAfter(front + ".", t6, args) == front + "." + "%" + "4";
    assert front + "." + "%" + "4" == front + ".%4";
  }

  /** The label's text is the intended clock text, for every time. */
  lemma TimeStringIsClock(time: Time, showHours: bool)
    ensures TimeString(time, showHours) == Clock(time, showHours)
  {
    PaddedToOne(time.ms / 100);
    var args := TimeArgs(time, showHours);
    if showHours {
      FormatHours(args);
    } else {
      PaddedToOne(time.min);
      FormatMinutes(args);
    }
  }

  /** As written, the text is right whenever `showHours` agrees with the
      time's own hours. */
  lemma WrittenAgreesWhenHoursMatch(time: Time, showHours: bool)
    requires showHours <==> time.hr != 0
    ensures WrittenTimeString(time, showHours) == Clock(time, showHours)
  {
    TimeStringIsClock(time, showHours);
  }

  /** As written, a time under an hour on a label that shows hours takes
      the short template: the hours fill `%1`, the minutes `%2`, the
      seconds `%3`, and the tenths find no marker left. */
  lemma WrittenShortTemplateWithHours(time: Time)
    requires time.hr == 0
    ensures WrittenTimeString(time, true) == "0:" + Padded(time.min, 2) + "." + Padded(time.sec, 2)
  {
    assert Decimal(0) == "0";
    FormatMinutes(TimeArgs(time, true));
  }

  /** As written, a time of an hour or more on a label that hides hours
      takes the long template: the minutes fill `%1`, the seconds `%2`, the
      tenths `%3`, and `%4` is left in the text. */
  lemma WrittenLongTemplateWithoutHours(time: Time)
    requires time.hr != 0
    ensures WrittenTimeString(time, false)
         == Decimal(time.min) + ":" + Padded(time.sec, 2) + ":" + Decimal(time.ms / 100) + ".%4"
  {
    PaddedToOne(time.min);
    PaddedToOne(time.ms / 100);
    FormatHoursShort(TimeArgs(time, false));
  }

  /** A one-digit number padded to two digits gets a leading zero. */
  lemma PaddedOneDigit(n: nat)
    requires n < 10
    ensures Padded(n, 2) == ['0', DigitChar(n)]
  {
    assert Zeros(1) == "0";
  }

  /** 5 min 7.3 s on a label that shows hours: written as `0:05.07`,
      intended as `0:05:07.3`. */
  lemma FiveMinutesExample()
    ensures ConvertTime(307300) == Time(307300, 0, 5, 7, 300)
    ensures WrittenTimeString(ConvertTime(307300), true) == "0:05.07"
    ensures TimeString(ConvertTime(307300), true) == "0:05:07.3"
  {
    ConvertTimeOfFields(0, 5, 7, 300);
    FiveMinutesWritten(ConvertTime(307300));
    FiveMinutesIntended(ConvertTime(307300));
  }

  lemma FiveMinutesWritten(time: Time)
    requires time.hr == 0 && time.min == 5 && time.sec == 7
    ensures WrittenTimeString(time, true) == "0:05.07"
  {
    PaddedOneDigit(5);
    PaddedOneDigit(7);
    WrittenShortTemplateWithHours(time);
  }

  lemma FiveMinutesIntended(time: Time)
    requires time.hr == 0 && time.min == 5 && time.sec == 7 && time.ms / 100 == 3
    ensures TimeString(time, true) == "0:05:07.3"
  {
    TimeStringIsClock(time, true);
    FiveMinutesClock(time);
  }

  lemma FiveMinutesClock(time: Time)
    requires time.hr == 0 && time.min == 5 && time.sec == 7 && time.ms / 100 == 3
    ensures Clock(time, true) == "0:05:07.3"
  {
    var h, m, s, t := Decimal(time.hr), Padded(time.min, 2), Padded(time.sec, 2), Decimal(time.ms / 100);
    assert h == "0" && t == "3";
    assert m == "05" by {
      PaddedOneDigit(5);
    }
    assert s == "07" by {
      PaddedOneDigit(7);
    }
    assert Clock(time, true) == h + ":" + m + ":" + s + "." + t;
  }

  /** `QString("%1 / %2").arg(a).arg(b)` is `a / b`. */
  lemma OutOfText(a: string, b: string)
    ensures Format(OutOfTemplate, [a, b]) == a + " / " + b
  {
    var t2 := Then(Given(1), End);
    var t1 := Then(Lit(" / "), t2);
    var t0 := Then(Given(0), t1);
    assert ArgCalls(OutOfTemplate, 2) == t0;
    assert "" + a == a;
    assert RenderAfter("", t0, [a, b]) == RenderAfter(a, t1, [a, b]);
    assert RenderAfter(a, t1, [a, b]) == RenderAfter(a + " / ", t2, [a, b]);
  }
}

/** `TimeLabel`: the label under the player showing the current time or
    frame number, optionally with the total. */
module TimeLabels {
  import opened TimeConversion

  class TimeLabel {
    var totalTime: Time
    var currentTime: Time
    var totalTimeString: string
    var currentTimeString: string
    var showHours: bool
    var totalFrameCount: nat
    /** The label's text (`setText`). */
    var text: string

    /** Hours are shown at first; the fields the constructor leaves
        uninitialised are zero here. */
    constructor()
      ensures showHours && totalTime.raw == 0 && currentTime.raw == 0
      ensures totalTime == Time(0, 0, 0, 0, 0) && currentTime == Time(0, 0, 0, 0, 0)
      ensures totalTimeString == "" && currentTimeString == "" && text == "" && totalFrameCount == 0
    {
      showHours := true;
      totalTime := Time(0, 0, 0, 0, 0);
      currentTime := Time(0, 0, 0, 0, 0);
      totalTimeString := "";
      currentTimeString := "";
      totalFrameCount := 0;
      text := "";
    }

    /** `set_total_time`: hours are shown exactly when the total reaches an
        hour. */
    method SetTotalTime(time: nat)
      modifies this
      ensures totalTime == ConvertTime(time)
      ensures showHours <==> time >= Ms2Hr
      ensures totalTimeString == Clock(totalTime, showHours)
      ensures currentTime == old(currentTime) && currentTimeString == old(currentTimeString)
      ensures totalFrameCount == old(totalFrameCount) && text == old(text)
    {
      totalTime := ConvertTime(time);
      if totalTime.hr != 0 {
        showHours := true;
      } else {
        showHours := false;
      }
      totalTimeString := TimeString(totalTime, showHours);
      TimeStringIsClock(totalTime, showHours);
    }

    /** `display_time`: a time past the total whose seconds field also
        exceeds the total's is replaced by the total. The text is the
        corrected `TimeString`, not the program's `WrittenTimeString`. */
    method DisplayTime(time: nat, includeTotal: bool)
      modifies this
      ensures var converted := ConvertTime(time);
              currentTime == if time > totalTime.raw && converted.sec > totalTime.sec then totalTime else converted
      ensures currentTimeString == Clock(currentTime, showHours)
      ensures text == if includeTotal then currentTimeString + " / " + totalTimeString else currentTimeString
      ensures totalTime == old(totalTime) && totalTimeString == old(totalTimeString)
      ensures showHours == old(showHours) && totalFrameCount == old(totalFrameCount)
    {
      currentTime := ConvertTime(time);
      if currentTime.raw > totalTime.raw && currentTime.sec > totalTime.sec {
        currentTime := totalTime;
      }
      currentTimeString := TimeString(currentTime, showHours);
      TimeStringIsClock(currentTime, showHours);
      if includeTotal {
        text := Format(OutOfTemplate, [currentTimeString, totalTimeString]);
        OutOfText(currentTimeString, totalTimeString);
      } else {
        text := currentTimeString;
      }
    }

    method SetFrameCount(frameCount: nat)
      modifies this
      ensures totalFrameCount == frameCount
      ensures totalTime == old(totalTime) && currentTime == old(currentTime) && showHours == old(showHours)
      ensures totalTimeString == old(totalTimeString) && currentTimeString == old(currentTimeString)
      ensures text == old(text)
    {
      totalFrameCount := frameCount;
    }

    /** `display_frame_num`: `n / total` or `n`. */
    method DisplayFrameNum(frameNumber: nat, includeTotal: bool)
      modifies this
      ensures text == if includeTotal then Decimal(frameNumber) + " / " + Decimal(totalFrameCount) else Decimal(frameNumber)
      ensures totalTime == old(totalTime) && currentTime == old(currentTime) && showHours == old(showHours)
      ensures totalTimeString == old(totalTimeString) && currentTimeString == old(currentTimeString)
      ensures totalFrameCount == old(totalFrameCount)
    {
      if includeTotal {
        text := Format(OutOfTemplate, [Decimal(frameNumber), Decimal(totalFrameCount)]);
        OutOfText(Decimal(frameNumber), Decimal(totalFrameCount));
      } else {
        text := Decimal(frameNumber);
      }
    }
  }
}
