/** `formatDuration`: rewrites an ISO 8601 duration of the form `PTnHnM` as
    readable text. The regular expression `PT(?:(\d+)H)?(?:(\d+)M)?` is not
    anchored and both groups are optional, so it matches wherever "PT" first
    occurs, and a string without "PT" is the only one it does not match. */
module Duration {
  import opened JsValues
  import opened Decimal

  /** "PT" starts at index `k` of `s`. */
  predicate PTAt(s: string, k: int)
  {
    0 <= k && k + 1 < |s| && s[k] == 'P' && s[k + 1] == 'T'
  }

  predicate HasPT(s: string)
  {
    exists k :: 0 <= k < |s| && PTAt(s, k)
  }

  /** The leftmost occurrence of "PT" at or after `from`: where the match begins. */
  function FindPT(s: string, from: nat): (r: Option<nat>)
    ensures r.Some? ==> from <= r.value && PTAt(s, r.value)
    ensures forall k :: from <= k && (r.None? || k < r.value) ==> !PTAt(s, k)
    decreases |s| - from
  {
    if from + 1 >= |s| then None
    else if PTAt(s, from) then Some(from)
    else FindPT(s, from + 1)
  }

  /** How many digits `\d+` takes at position `i`: all of them (it is greedy). */
  function DigitRun(s: string, i: nat): (n: nat)
    requires i <= |s|
    ensures i + n <= |s|
    ensures forall j :: i <= j < i + n ==> IsDigit(s[j])
    ensures i + n == |s| || !IsDigit(s[i + n])
    decreases |s| - i
  {
    if i < |s| && IsDigit(s[i]) then 1 + DigitRun(s, i + 1) else 0
  }

  /** The outcome of an optional group `(?:(\d+)U)?` tried at a position: the
      captured digits, if the group matched, and where matching goes on. */
  datatype Capture = Capture(digits: Option<string>, next: nat)

  /** The group matches only when the unit letter follows the greedy digit
      run; giving digits back cannot help, since a digit is never the unit
      letter, so otherwise the group is skipped. */
  function Group(s: string, i: nat, unit: char): (c: Capture)
    requires i <= |s|
    ensures c.next <= |s|
    ensures c.digits.None? ==> c.next == i
    ensures c.digits.Some? ==>
      c.digits.value != [] && AllDigits(c.digits.value) &&
      c.next == i + |c.digits.value| + 1 && s[i..c.next] == c.digits.value + [unit]
  {
    var n := DigitRun(s, i);
    if n > 0 && i + n < |s| && s[i + n] == unit then Capture(Some(s[i..i + n]), i + n + 1)
    else Capture(None, i)
  }

  /** What the regular expression captures in `duration`: nothing when it
      does not match, that is when there is no "PT"; otherwise the digits the
      hours group and the minutes group took, each absent when that group
      was skipped. */
  function Captures(duration: string): (r: Option<(Option<string>, Option<string>)>)
    ensures r.None? <==> !HasPT(duration)
  {
    match FindPT(duration, 0)
    case None => None
    case Some(p) =>
      var hours := Group(duration, p + 2, 'H');
      var minutes := Group(duration, hours.next, 'M');
      Some((hours.digits, minutes.digits))
  }

  /** formatDuration(duration). A string without "PT" comes back unchanged;
      otherwise the result is trimmed, so it neither starts nor ends with white space. */
  function FormatDuration(duration: string): (r: string)
    ensures !HasPT(duration) ==> r == duration
    ensures HasPT(duration) ==> r == [] || (!IsWhitespace(r[0]) && !IsWhitespace(r[|r| - 1]))
  {
    match Captures(duration)
    case None => duration
    case Some((hours, minutes)) => Readout(hours, minutes)
  }

  /** The text built from what the two groups captured: `<h>h` when the
      hours group captured a non-empty text, then ` <m>m` when the minutes
      group did, trimmed. */
  function Readout(hours: Option<string>, minutes: Option<string>): (r: string)
    ensures r == [] || (!IsWhitespace(r[0]) && !IsWhitespace(r[|r| - 1]))
  {
    var h := if Truthy(hours) then hours.value + "h" else "";
    var m := if Truthy(minutes) then " " + minutes.value + "m" else "";
    Trim(h + m)
  }

  /** The ISO 8601 text `PT[<h>H][<m>M]` of a duration with optional hours and minutes. */
  function IsoDuration(hours: Option<nat>, minutes: Option<nat>): string
  {
    "PT" + (if hours.Some? then NatToString(hours.value) + "H" else "")
         + (if minutes.Some? then NatToString(minutes.value) + "M" else "")
  }

  /** The readable text of the same duration: `<h>h <m>m`, leaving out an absent part. */
  function Readable(hours: Option<nat>, minutes: Option<nat>): string
  {
    match (hours, minutes)
    case (Some(h), Some(m)) => NatToString(h) + "h " + NatToString(m) + "m"
    case (Some(h), None) => NatToString(h) + "h"
    case (None, Some(m)) => NatToString(m) + "m"
    case (None, None) => ""
  }

  /** `DigitRun` stops exactly at the end of a block of digits. */
  lemma {:induction false} DigitRunOf(s: string, i: nat, n: nat)
    requires i + n <= |s|
    requires forall j :: i <= j < i + n ==> IsDigit(s[j])
    requires i + n == |s| || !IsDigit(s[i + n])
    ensures DigitRun(s, i) == n
    decreases n
  {
    if n > 0 {
      DigitRunOf(s, i + 1, n - 1);
    }
  }

  /** A group tried in front of `digits` followed by `unit` captures those digits. */
  lemma GroupCaptures(s: string, i: nat, digits: string, unit: char, rest: string)
    requires digits != [] && AllDigits(digits) && !IsDigit(unit)
    requires i <= |s| && s[i..] == digits + [unit] + rest
    ensures Group(s, i, unit) == Capture(Some(digits), i + |digits| + 1)
  {
    assert forall j :: i <= j < i + |digits| ==> s[j] == s[i..][j - i] == digits[j - i];
    assert s[i + |digits|] == s[i..][|digits|] == unit;
    DigitRunOf(s, i, |digits|);
    assert s[i..i + |digits|] == s[i..][..|digits|] == digits;
  }

  /** A group tried in front of digits followed by another letter, or at the end, is skipped. */
  lemma GroupSkips(s: string, i: nat, digits: string, other: char, unit: char, rest: string)
    requires AllDigits(digits) && !IsDigit(other) && other != unit
    requires i <= |s| && (s[i..] == [] || s[i..] == digits + [other] + rest)
    ensures Group(s, i, unit) == Capture(None, i)
  {
    if i < |s| {
      assert forall j :: i <= j < i + |digits| ==> s[j] == s[i..][j - i] == digits[j - i];
      assert s[i + |digits|] == s[i..][|digits|] == other;
      DigitRunOf(s, i, |digits|);
    }
  }

  /** The match starts right after a prefix that holds no "PT". */
  lemma FindPTAfter(prefix: string, rest: string)
    requires !HasPT(prefix)
    ensures FindPT(prefix + "PT" + rest, 0) == Some(|prefix|)
  {
    var s := prefix + "PT" + rest;
    assert PTAt(s, |prefix|);
    forall k | 0 <= k < |prefix| ensures !PTAt(s, k) {
      if k + 1 < |prefix| {
        assert !PTAt(prefix, k);
      }
    }
  }

  /** formatDuration once the match position and the two groups are known. */
  lemma FormatFromGroups(s: string, p: nat, hours: Capture, minutes: Capture)
    requires FindPT(s, 0) == Some(p)
    requires Group(s, p + 2, 'H') == hours && Group(s, hours.next, 'M') == minutes
    ensures Captures(s) == Some((hours.digits, minutes.digits))
    ensures FormatDuration(s) == Readout(hours.digits, minutes.digits)
  {
  }

  /** Both groups captured: the text is `<h>h <m>m`, with nothing to trim. */
  lemma ReadoutHoursMinutes(hs: string, ms: string)
    requires hs != [] && AllDigits(hs) && ms != []
    ensures Readout(Some(hs), Some(ms)) == hs + "h " + ms + "m"
  {
    assert Readout(Some(hs), Some(ms)) == Trim(hs + "h" + (" " + ms + "m"));
    TrimHoursMinutes(hs, ms);
  }

  lemma TrimHoursMinutes(hs: string, ms: string)
    requires hs != [] && AllDigits(hs)
    ensures Trim(hs + "h" + (" " + ms + "m")) == hs + "h " + ms + "m"
  {
    var out := hs + "h" + (" " + ms + "m");
    assert out == hs + "h " + ms + "m";
    assert out[0] == hs[0] && out[|out| - 1] == 'm';
    TrimKeeps(out);
  }

  /** Only the hours group captured: the text is `<h>h`. */
  lemma ReadoutHours(hs: string)
    requires hs != [] && AllDigits(hs)
    ensures Readout(Some(hs), None) == hs + "h"
  {
    assert Readout(Some(hs), None) == Trim(hs + "h") by {
      assert hs + "h" + "" == hs + "h";
    }
    TrimHours(hs);
  }

  lemma TrimHours(hs: string)
    requires hs != [] && AllDigits(hs)
    ensures Trim(hs + "h") == hs + "h"
  {
    TrimKeeps(hs + "h");
  }

  /** Only the minutes group captured: the leading space is trimmed away. */
  lemma ReadoutMinutes(ms: string)
    requires ms != [] && AllDigits(ms)
    ensures Readout(None, Some(ms)) == ms + "m"
  {
    assert "" + (" " + ms + "m") == " " + (ms + "m");
    TrimDropsLeadingSpace(ms + "m");
  }

  /** Neither group captured: the text is empty. */
  lemma ReadoutNeither()
    ensures Readout(None, None) == ""
  {
    TrimKeeps("");
  }

  lemma FormatHoursMinutes(prefix: string, hs: string, ms: string)
    requires !HasPT(prefix) && hs != [] && AllDigits(hs) && ms != [] && AllDigits(ms)
    ensures FormatDuration(prefix + "PT" + (hs + "H") + (ms + "M")) == hs + "h " + ms + "m"
  {
    var mPart := ms + "M";
    var rest := (hs + "H") + mPart;
    var s := prefix + "PT" + rest;
    assert s == prefix + "PT" + (hs + "H") + (ms + "M");
    FindPTAfter(prefix, rest);
    var a := |prefix| + 2;
    assert s[a..] == hs + ['H'] + mPart;
    GroupCaptures(s, a, hs, 'H', mPart);
    var b := a + |hs| + 1;
    assert s[b..] == ms + ['M'] + "";
    GroupCaptures(s, b, ms, 'M', "");
    FormatFromGroups(s, |prefix|, Capture(Some(hs), b), Capture(Some(ms), b + |ms| + 1));
    ReadoutHoursMinutes(hs, ms);
  }

  lemma FormatHoursOnly(prefix: string, hs: string)
    requires !HasPT(prefix) && hs != [] && AllDigits(hs)
    ensures FormatDuration(prefix + "PT" + (hs + "H")) == hs + "h"
  {
    var s := prefix + "PT" + (hs + "H");
    var a := |prefix| + 2;
    FindPTAfter(prefix, hs + "H");
    assert s[a..] == hs + ['H'] + "";
    GroupCaptures(s, a, hs, 'H', "");
    GroupSkips(s, a + |hs| + 1, "", 'H', 'M', "");
    FormatFromGroups(s, |prefix|, Capture(Some(hs), a + |hs| + 1), Capture(None, a + |hs| + 1));
    ReadoutHours(hs);
  }

  lemma FormatMinutesOnly(prefix: string, ms: string)
    requires !HasPT(prefix) && ms != [] && AllDigits(ms)
    ensures FormatDuration(prefix + "PT" + (ms + "M")) == ms + "m"
  {
    var s := prefix + "PT" + (ms + "M");
    var a := |prefix| + 2;
    FindPTAfter(prefix, ms + "M");
    assert s[a..] == ms + ['M'] + "";
    GroupSkips(s, a, ms, 'M', 'H', "");
    GroupCaptures(s, a, ms, 'M', "");
    FormatFromGroups(s, |prefix|, Capture(None, a), Capture(Some(ms), a + |ms| + 1));
    ReadoutMinutes(ms);
  }

  lemma FormatNeither(prefix: string)
    requires !HasPT(prefix)
    ensures FormatDuration(prefix + "PT" + "") == ""
  {
    var s := prefix + "PT" + "";
    var a := |prefix| + 2;
    FindPTAfter(prefix, "");
    GroupSkips(s, a, "", 'M', 'H', "");
    GroupSkips(s, a, "", 'H', 'M', "");
    FormatFromGroups(s, |prefix|, Capture(None, a), Capture(None, a));
    ReadoutNeither();
  }

  /** Every duration written in ISO 8601 as `PT[<h>H][<m>M]`, after any text
      that holds no "PT", is rewritten to its readable form. */
  lemma FormatIsoDuration(prefix: string, hours: Option<nat>, minutes: Option<nat>)
    requires !HasPT(prefix)
    ensures FormatDuration(prefix + IsoDuration(hours, minutes)) == Readable(hours, minutes)
  {
    match (hours, minutes)
    case (Some(h), Some(m)) =>
      assert prefix + IsoDuration(hours, minutes) == prefix + "PT" + (NatToString(h) + "H") + (NatToString(m) + "M");
      FormatHoursMinutes(prefix, NatToString(h), NatToString(m));
    case (Some(h), None) =>
      assert prefix + IsoDuration(hours, minutes) == prefix + "PT" + (NatToString(h) + "H");
      FormatHoursOnly(prefix, NatToString(h));
    case (None, Some(m)) =>
      assert prefix + IsoDuration(hours, minutes) == prefix + "PT" + (NatToString(m) + "M");
      FormatMinutesOnly(prefix, NatToString(m));
    case (None, None) =>
      assert prefix + IsoDuration(hours, minutes) == prefix + "PT" + "";
      FormatNeither(prefix);
  }

  /** A duration standing alone, with nothing before its "PT", is rewritten to its readable form. */
  lemma FormatIso(hours: Option<nat>, minutes: Option<nat>)
    ensures FormatDuration(IsoDuration(hours, minutes)) == Readable(hours, minutes)
  {
    assert "" + IsoDuration(hours, minutes) == IsoDuration(hours, minutes);
    assert !HasPT("");
    FormatIsoDuration("", hours, minutes);
  }

  /** The ISO and readable texts of the example durations below. */
  lemma ExampleTexts()
    ensures IsoDuration(Some(2), Some(30)) == "PT2H30M" && Readable(Some(2), Some(30)) == "2h 30m"
    ensures IsoDuration(None, Some(45)) == "PT45M" && Readable(None, Some(45)) == "45m"
    ensures IsoDuration(Some(3), None) == "PT3H" && Readable(Some(3), None) == "3h"
    ensures IsoDuration(Some(0), Some(30)) == "PT0H30M" && Readable(Some(0), Some(30)) == "0h 30m"
  {
    assert NatToString(30) == "30" && NatToString(45) == "45";
  }

  /** Hours and minutes become `<h>h <m>m`. */
  lemma ExampleHoursMinutes()
    ensures FormatDuration("PT2H30M") == "2h 30m"
  {
    ExampleTexts();
    FormatIso(Some(2), Some(30));
  }

  /** Minutes alone become `<m>m`, with no leading space. */
  lemma ExampleMinutes()
    ensures FormatDuration("PT45M") == "45m"
  {
    ExampleTexts();
    FormatIso(None, Some(45));
  }

  /** Hours alone become `<h>h`. */
  lemma ExampleHours()
    ensures FormatDuration("PT3H") == "3h"
  {
    ExampleTexts();
    FormatIso(Some(3), None);
  }

  /** A zero hour count is kept, since the captured text "0" is not empty. */
  lemma ExampleZeroHours()
    ensures FormatDuration("PT0H30M") == "0h 30m"
  {
    ExampleTexts();
    FormatIso(Some(0), Some(30));
  }

  /** A duration with a day part holds no "PT" and passes through unchanged. */
  lemma ExampleDayPart()
    ensures FormatDuration("P1DT2H") == "P1DT2H"
  {
    var d := "P1DT2H";
    assert d[1] == '1' && d[2] == 'D' && d[3] == 'T' && d[4] == '2' && d[5] == 'H';
    assert !HasPT(d);
  }
}
