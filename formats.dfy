/** The pure text helpers of the recorders: the elapsed-time labels
    (`formatTime`) and the file names built from timestamps. */
module Formats {

  predicate IsDigit(c: char) { '0' <= c <= '9' }

  predicate AllDigits(s: string) { forall i :: 0 <= i < |s| ==> IsDigit(s[i]) }

  function DigitValue(c: char): nat
    requires IsDigit(c)
  {
    c as int - '0' as int
  }

  function DigitChar(d: nat): (c: char)
    requires d < 10
    ensures IsDigit(c) && DigitValue(c) == d
  {
    (d + '0' as int) as char
  }

  /** The number a decimal digit string denotes (leading zeros allowed). */
  function DigitsValue(s: string): nat
    requires AllDigits(s)
  {
    if s == [] then 0 else 10 * DigitsValue(s[..|s| - 1]) + DigitValue(s[|s| - 1])
  }

  /** `n.toString()` for a non-negative integer: the shortest decimal numeral of `n`. */
  function NatToString(n: nat): (s: string)
    ensures 1 <= |s| && AllDigits(s)
    ensures DigitsValue(s) == n
    ensures |s| > 1 ==> s[0] != '0'
    ensures n < 10 ==> |s| == 1
    ensures 10 <= n < 100 ==> |s| == 2
    decreases n
  {
    if n < 10 then
      [DigitChar(n)]
    else
      var prefix := NatToString(n / 10);
      assert (prefix + [DigitChar(n % 10)])[..|prefix|] == prefix;
      prefix + [DigitChar(n % 10)]
  }

  /** `s.padStart(width, fill)`: `fill` is put in front until the length reaches `width`. */
  function PadStart(s: string, width: nat, fill: char): (r: string)
    decreases width - |s|
  {
    if |s| >= width then s else PadStart([fill] + s, width, fill)
  }

  /** A leading zero does not change the value of a digit string. */
  lemma {:induction false} LeadingZero(s: string)
    requires AllDigits(s)
    ensures AllDigits(['0'] + s) && DigitsValue(['0'] + s) == DigitsValue(s)
  {
    var t := ['0'] + s;
    if s != [] {
      assert t[..|t| - 1] == ['0'] + s[..|s| - 1];
      LeadingZero(s[..|s| - 1]);
    }
  }

  /** Padding a digit string with zeros keeps its value and reaches the width. */
  lemma {:induction false} PadZeros(s: string, width: nat)
    requires AllDigits(s)
    ensures var r := PadStart(s, width, '0');
      AllDigits(r) && DigitsValue(r) == DigitsValue(s)
      && |r| == (if |s| >= width then |s| else width)
    decreases width - |s|
  {
    if |s| < width {
      LeadingZero(s);
      PadZeros(['0'] + s, width);
    }
  }

  /** `formatTime` of RecorderV4.js and both bringjal variants:
      `floor(s / 60)` and `s % 60`, each padded to two digits, joined by ':'. */
  function FormatTime(seconds: nat): (r: string)
    ensures |r| >= 5 && r[|r| - 3] == ':'
    ensures AllDigits(r[..|r| - 3]) && AllDigits(r[|r| - 2..])
    ensures DigitsValue(r[|r| - 2..]) < 60
    ensures DigitsValue(r[..|r| - 3]) * 60 + DigitsValue(r[|r| - 2..]) == seconds
    ensures seconds < 6000 ==> |r| == 5
  {
    var mins := NatToString(seconds / 60);
    var secs := NatToString(seconds % 60);
    PadZeros(mins, 2);
    PadZeros(secs, 2);
    var m := PadStart(mins, 2, '0');
    var s := PadStart(secs, 2, '0');
    var r := m + ":" + s;
    assert r[..|r| - 3] == m && r[|r| - 2..] == s;
    r
  }

  /** A clock field of Recorder.js: a '0' in front of values below 10. */
  function ClockField(n: nat): (r: string)
    requires n < 60
    ensures |r| == 2 && AllDigits(r) && DigitsValue(r) == n
  {
    var digits := NatToString(n);
    if n < 10 then LeadingZero(digits); "0" + digits else digits
  }

  /** How Recorder.js splits a second count into hours, minutes and seconds. */
  lemma ClockArithmetic(seconds: nat)
    ensures (seconds % 3600) / 60 < 60 && seconds % 60 < 60
    ensures (seconds / 3600) * 3600 + ((seconds % 3600) / 60) * 60 + seconds % 60 == seconds
    ensures seconds < 3600 <==> seconds / 3600 == 0
  {
    assert seconds % 60 == (seconds % 3600) % 60;
  }

  /** Where the fields sit in `h:mm:ss` when both fields have two digits. */
  lemma HoursLayout(h: string, mm: string, ss: string)
    requires |mm| == 2 && |ss| == 2
    ensures var r := h + ":" + mm + ":" + ss;
      |r| == |h| + 6 && r[|r| - 6] == ':' && r[|r| - 3] == ':'
      && r[..|r| - 6] == h && r[|r| - 5..|r| - 3] == mm && r[|r| - 2..] == ss
  {
    var r := h + ":" + mm + ":" + ss;
    assert r == h + (":" + mm + ":" + ss);
  }

  /** `formatTime` of Recorder.js: `h:mm:ss` when there is at least one hour,
      `mm:ss` otherwise; minutes and seconds are always two digits below 60. */
  function FormatTimeWithHours(seconds: nat): (r: string)
    ensures |r| >= 5 && r[|r| - 3] == ':'
    ensures AllDigits(r[|r| - 5..|r| - 3]) && AllDigits(r[|r| - 2..])
    ensures DigitsValue(r[|r| - 5..|r| - 3]) < 60 && DigitsValue(r[|r| - 2..]) < 60
    ensures seconds < 3600 ==>
      |r| == 5 && DigitsValue(r[..2]) * 60 + DigitsValue(r[3..]) == seconds
    ensures seconds >= 3600 ==>
      |r| >= 7 && r[|r| - 6] == ':' && AllDigits(r[..|r| - 6])
      && DigitsValue(r[..|r| - 6]) * 3600 + DigitsValue(r[|r| - 5..|r| - 3]) * 60
         + DigitsValue(r[|r| - 2..]) == seconds
  {
    ClockArithmetic(seconds);
    var mm := ClockField((seconds % 3600) / 60);
    var ss := ClockField(seconds % 60);
    if seconds / 3600 > 0 then
      var h := NatToString(seconds / 3600);
      HoursLayout(h, mm, ss);
      h + ":" + mm + ":" + ss
    else
      var r := mm + ":" + ss;
      assert r[..2] == mm && r[3..] == ss;
      r
  }

  /** `s.replace(/[...]/g, replacement)`: every character of `targets` becomes `replacement`. */
  function ReplaceChars(s: string, targets: set<char>, replacement: char): (r: string)
    ensures |r| == |s|
    ensures forall i :: 0 <= i < |s| ==> r[i] == (if s[i] in targets then replacement else s[i])
  {
    if s == [] then []
    else [if s[0] in targets then replacement else s[0]] + ReplaceChars(s[1..], targets, replacement)
  }

  /** The characters `/`, `:` and `\` that a locale timestamp may contain. */
  const LocaleSeparators: set<char> := {'/', ':', '\\'}

  /** The characters `:` and `.` of an ISO timestamp. */
  const IsoSeparators: set<char> := {':', '.'}

  /** The download name `video_<timestamp>.webm` of RecorderV4.js and the V2 variant. */
  function VideoFileName(timestamp: string): (name: string)
    ensures |name| == |timestamp| + 11
    ensures name[..6] == "video_" && name[|name| - 5..] == ".webm"
    ensures forall i :: 0 <= i < |timestamp| ==>
      name[6 + i] == (if timestamp[i] in LocaleSeparators then '-' else timestamp[i])
    ensures forall i :: 6 <= i < |name| - 5 ==> name[i] !in LocaleSeparators
  {
    var middle := ReplaceChars(timestamp, LocaleSeparators, '-');
    var name := "video_" + middle + ".webm";
    assert forall i :: 0 <= i < |timestamp| ==> name[6 + i] == middle[i];
    name
  }

  /** The download name `recorded-video-<timestamp>.webm` of the V1 variant and Recorder.js. */
  function RecordedFileName(isoTimestamp: string): (name: string)
    ensures |name| == |isoTimestamp| + 20
    ensures name[..15] == "recorded-video-" && name[|name| - 5..] == ".webm"
    ensures forall i :: 0 <= i < |isoTimestamp| ==>
      name[15 + i] == (if isoTimestamp[i] in IsoSeparators then '-' else isoTimestamp[i])
    ensures forall i :: 15 <= i < |name| - 5 ==> name[i] !in IsoSeparators
  {
    var middle := ReplaceChars(isoTimestamp, IsoSeparators, '-');
    var name := "recorded-video-" + middle + ".webm";
    assert forall i :: 0 <= i < |isoTimestamp| ==> name[15 + i] == middle[i];
    name
  }

  /** Sanitising an already sanitised timestamp changes nothing. */
  lemma SanitiseIdempotent(s: string, targets: set<char>, replacement: char)
    requires replacement !in targets
    ensures ReplaceChars(ReplaceChars(s, targets, replacement), targets, replacement)
         == ReplaceChars(s, targets, replacement)
  {
    var once := ReplaceChars(s, targets, replacement);
    var twice := ReplaceChars(once, targets, replacement);
    assert forall i :: 0 <= i < |once| ==> twice[i] == once[i];
  }
}
