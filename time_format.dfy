/**
 * The elapsed-time label of the recording panel: `formatTime` turns a whole
 * number of seconds into "MM:SS", each field rendered with Number.toString()
 * and left-padded with "0" to two characters by String.padStart(2, "0").
 * ParseTime is an independent reader of such labels, used to show that no
 * information is lost (the label always reads back as the seconds it shows).
 */
module TimeFormat {

  datatype Option<T> = None | Some(value: T)

  predicate IsDigit(c: char) { '0' <= c <= '9' }

  predicate AllDigits(s: string) { forall i :: 0 <= i < |s| ==> IsDigit(s[i]) }

  function DigitChar(d: nat): (c: char)
    requires d < 10
    ensures IsDigit(c) && DigitValue(c) == d
  {
    (48 + d) as char
  }

  function DigitValue(c: char): nat
    requires IsDigit(c)
  {
    c as int - 48
  }

  /** Number.prototype.toString() on a non-negative integer: shortest decimal, no leading zero. */
  function Decimal(n: nat): (s: string)
    ensures 1 <= |s| && AllDigits(s)
    ensures |s| == 1 <==> n < 10
    ensures |s| <= 2 <==> n < 100
    ensures |s| > 1 ==> s[0] != '0'
    decreases n
  {
    if n < 10 then [DigitChar(n)] else Decimal(n / 10) + [DigitChar(n % 10)]
  }

  /** String.prototype.padStart(2, "0") */
  function PadStart2(s: string): (r: string)
    ensures |r| == if |s| < 2 then 2 else |s|
  {
    if |s| >= 2 then s else if |s| == 1 then "0" + s else "00"
  }

  /** padStart only adds '0's on the left: the original string is the suffix and is never truncated. */
  lemma PadStart2Pads(s: string)
    ensures var r := PadStart2(s);
      r[|r| - |s|..] == s && forall i :: 0 <= i < |r| - |s| ==> r[i] == '0'
  {
  }

  /**
   * formatTime(seconds) for the values the dashboard passes it (recordingTime,
   * never negative): at least "MM:SS", with ':' always before a two-character
   * seconds field, whatever the number of minutes.
   */
  function FormatTime(seconds: nat): (r: string)
    ensures |r| >= 5 && r[|r| - 3] == ':'
  {
    Label(seconds / 60, seconds % 60)
  }

  /** The label made of a minutes field and a seconds field, each padded to two characters. */
  function Label(mins: nat, secs: nat): string
  {
    Field(mins) + ":" + Field(secs)
  }

  /** One field of the label: the number in decimal, padded to two characters. */
  function Field(x: nat): string
  {
    PadStart2(Decimal(x))
  }

  /** Reads a run of decimal digits; leading zeros are allowed. */
  function ParseDecimal(s: string): nat
    requires AllDigits(s)
    decreases |s|
  {
    if s == [] then 0 else ParseDecimal(s[..|s| - 1]) * 10 + DigitValue(s[|s| - 1])
  }

  /** The position of the first ':' in t, if any. */
  function IndexOfColon(t: string): (r: Option<nat>)
    ensures r.Some? ==> r.value < |t| && t[r.value] == ':' && ':' !in t[..r.value]
    ensures r.None? ==> ':' !in t
  {
    if t == [] then None
    else if t[0] == ':' then Some(0)
    else match IndexOfColon(t[1..])
      case None => None
      case Some(i) => assert t[..i + 1] == [t[0]] + t[1..][..i]; Some(i + 1)
  }

  /** Reads "M:S" (each side a non-empty run of digits) back into M * 60 + S seconds. */
  function ParseTime(t: string): Option<nat>
  {
    match IndexOfColon(t)
    case None => None
    case Some(i) => ParseFields(t[..i], t[i + 1..])
  }

  function ParseFields(mm: string, ss: string): Option<nat>
  {
    if mm != [] && ss != [] && AllDigits(mm) && AllDigits(ss)
    then Some(ParseDecimal(mm) * 60 + ParseDecimal(ss))
    else None
  }

  lemma {:induction false} ParseDecimalOfDecimal(n: nat)
    ensures ParseDecimal(Decimal(n)) == n
    decreases n
  {
    if n >= 10 {
      var s := Decimal(n);
      assert s[..|s| - 1] == Decimal(n / 10);
      ParseDecimalOfDecimal(n / 10);
    }
  }

  lemma {:induction false} ParseIgnoresLeadingZero(s: string)
    requires AllDigits(s)
    ensures AllDigits("0" + s) && ParseDecimal("0" + s) == ParseDecimal(s)
    decreases |s|
  {
    var z := "0" + s;
    if s != [] {
      assert z[..|z| - 1] == "0" + s[..|s| - 1];
      ParseIgnoresLeadingZero(s[..|s| - 1]);
    }
  }

  /** Padding a field never changes the number it reads as. */
  lemma PadStart2Value(s: string)
    requires s != [] && AllDigits(s)
    ensures AllDigits(PadStart2(s)) && ParseDecimal(PadStart2(s)) == ParseDecimal(s)
  {
    if |s| == 1 {
      ParseIgnoresLeadingZero(s);
    }
  }

  /** The two decimal digits of a number below 100, the tens first. */
  function TwoDigits(x: nat): (r: string)
    requires x < 100
    ensures |r| == 2 && AllDigits(r)
  {
    [DigitChar(x / 10), DigitChar(x % 10)]
  }

  /** A field below 100 is padded to exactly its two decimal digits. */
  lemma PadStart2TwoDigits(x: nat)
    requires x < 100
    ensures PadStart2(Decimal(x)) == TwoDigits(x)
  {
    if x >= 10 {
      assert Decimal(x / 10) == [DigitChar(x / 10)];
    }
  }

  /** Below 100 minutes the label is the two digits of the minutes, ':', and the two digits of the seconds. */
  lemma FormatTimeDigits(seconds: nat)
    requires seconds < 6000
    ensures FormatTime(seconds) == TwoDigits(seconds / 60) + ":" + TwoDigits(seconds % 60)
  {
    PadStart2TwoDigits(seconds / 60);
    PadStart2TwoDigits(seconds % 60);
  }

  /** Below 100 minutes the label is "MM:SS": five characters, ':' in the middle, seconds "00".."59". */
  lemma FormatTimeShape(seconds: nat)
    requires seconds < 6000
    ensures var r := FormatTime(seconds);
      |r| == 5 && r[2] == ':' && AllDigits(r[..2]) && AllDigits(r[3..]) && '0' <= r[3] <= '5'
  {
    var r, sec := FormatTime(seconds), seconds % 60;
    FormatTimeDigits(seconds);
    assert r[..2] == TwoDigits(seconds / 60);
    assert r[3..] == TwoDigits(sec);
    assert r[3] == DigitChar(sec / 10);
  }

  /** From 100 minutes on the minutes field keeps all its digits: the label grows instead of wrapping. */
  lemma FormatTimeNeverTruncates(seconds: nat)
    requires seconds >= 6000
    ensures var r := FormatTime(seconds);
      |r| >= 6 && r[..|Decimal(seconds / 60)|] == Decimal(seconds / 60)
  {
    var m := Decimal(seconds / 60);
    assert |m| >= 3;
  }

  lemma FormatTimeExample()
    ensures FormatTime(754) == "12:34"
  {
    FormatTimeDigits(754);
    assert TwoDigits(12) == "12";
    assert TwoDigits(34) == "34";
  }

  lemma ColonSplits(a: string, b: string)
    requires AllDigits(a)
    ensures IndexOfColon(a + ":" + b) == Some(|a|)
  {
    var t := a + ":" + b;
    assert t[|a|] == ':';
    assert forall j | 0 <= j < |a| :: t[j] == a[j];
    assert forall j | |a| < j <= |t| :: ':' in t[..j] by {
      forall j | |a| < j <= |t| ensures ':' in t[..j] {
        assert t[..j][|a|] == ':';
      }
    }
  }

  /** Every label reads back as the number of seconds it was made from. */
  lemma FormatTimeRoundTrip(seconds: nat)
    ensures ParseTime(FormatTime(seconds)) == Some(seconds)
  {
    var m, s := seconds / 60, seconds % 60;
    LabelRoundTrip(m, s);
  }

  lemma LabelRoundTrip(m: nat, s: nat)
    ensures ParseTime(Label(m, s)) == Some(m * 60 + s)
  {
    FieldRoundTrip(m);
    FieldRoundTrip(s);
    ParseTimeOfFields(Field(m), Field(s));
  }

  /** One padded field is a non-empty run of digits that reads back as its number. */
  lemma FieldRoundTrip(x: nat)
    ensures Field(x) != [] && AllDigits(Field(x)) && ParseDecimal(Field(x)) == x
  {
    PadStart2Value(Decimal(x));
    ParseDecimalOfDecimal(x);
  }

  /** Two digit fields around ':' read back as minutes * 60 + seconds. */
  lemma ParseTimeOfFields(a: string, b: string)
    requires a != [] && b != [] && AllDigits(a) && AllDigits(b)
    ensures ParseTime(a + ":" + b) == Some(ParseDecimal(a) * 60 + ParseDecimal(b))
  {
    ColonSplits(a, b);
    ParseTimeAt(a + ":" + b, |a|);
    SplitParts(a, b);
  }

  lemma SplitParts(a: string, b: string)
    ensures (a + ":" + b)[..|a|] == a && (a + ":" + b)[|a| + 1..] == b
  {
  }

  lemma ParseTimeAt(t: string, i: nat)
    requires IndexOfColon(t) == Some(i)
    ensures ParseTime(t) == ParseFields(t[..i], t[i + 1..])
  {
  }

  /** Distinct elapsed times always show distinct labels. */
  lemma FormatTimeInjective(a: nat, b: nat)
    requires FormatTime(a) == FormatTime(b)
    ensures a == b
  {
    FormatTimeRoundTrip(a);
    FormatTimeRoundTrip(b);
  }
}
