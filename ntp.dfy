/**
 * Core/Modules/ntp_over_http.c and .h: the growable receive buffer filled by
 * `WriteMemoryCallback`, the extraction of the first `"datetime":"` value
 * with sscanf's `%d-%d-%dT%d:%d:%d`, the fill of `NTP_Time`, and the return
 * codes of `parse_time_string` and `get_http_time`.
 *
 * The HTTP transfer is an input: whether curl initialises, the chunks it
 * delivers to the callback with the outcome of each realloc, and whether the
 * transfer itself succeeds. C `int` is unbounded here, and `char` is
 * unsigned (the ARM Linux ABI), so `(char)x` keeps `x` modulo 256.
 */
module NtpHttp {
  import opened Common

  /** NTP_Time: date = [day, month, year % 100] as chars, time = [seconds, minutes, hours]. */
  datatype NtpTime = NtpTime(date: seq<int>, time: seq<int>)

  /** The six integers of an ISO date-time, in the order they are scanned. */
  datatype DateTime = DateTime(year: int, month: int, day: int, hour: int, minute: int, second: int)

  /** (char)x for an unsigned 8-bit char. */
  function CharCast(x: int): (c: int)
    ensures 0 <= c < 256
    ensures 0 <= x < 256 ==> c == x
  {
    x % 256
  }

  /** C's `%`: the remainder takes the sign of the dividend. */
  function CRem(a: int, b: int): (r: int)
    requires b > 0
    ensures a >= 0 ==> r == a % b
    ensures a < 0 ==> r == -((-a) % b)
    ensures -b < r < b
  {
    if a >= 0 then a % b else -((-a) % b)
  }

  /** Lines 158-164: which scanned integer lands in which field. */
  function Fill(dt: DateTime): (t: NtpTime)
    ensures |t.date| == 3 && forall k | 0 <= k < 3 :: 0 <= t.date[k] < 256
    ensures 0 <= dt.day < 256 && 0 <= dt.month < 256 && 0 <= dt.year ==> t.date == [dt.day, dt.month, dt.year % 100]
    ensures t.time == [dt.second, dt.minute, dt.hour]
  {
    NtpTime([CharCast(dt.day), CharCast(dt.month), CharCast(CRem(dt.year, 100))], [dt.second, dt.minute, dt.hour])
  }

  // ---------------------------------------------------------------------------
  // strstr
  // ---------------------------------------------------------------------------

  predicate OccursAt(s: string, pat: string, i: int)
  {
    0 <= i && i + |pat| <= |s| && s[i..i + |pat|] == pat
  }

  function FindFrom(s: string, pat: string, k: nat): (r: Option<nat>)
    requires k <= |s|
    ensures r.Some? ==> k <= r.value && OccursAt(s, pat, r.value)
    ensures r.Some? ==> forall j | k <= j < r.value :: !OccursAt(s, pat, j)
    ensures r.None? ==> forall j | k <= j <= |s| :: !OccursAt(s, pat, j)
    decreases |s| - k
  {
    if OccursAt(s, pat, k) then Some(k)
    else if k == |s| then None
    else FindFrom(s, pat, k + 1)
  }

  /** strstr: the first position where `pat` occurs, if any. */
  function Find(s: string, pat: string): (r: Option<nat>)
    ensures r.Some? ==> OccursAt(s, pat, r.value) && forall j | 0 <= j < r.value :: !OccursAt(s, pat, j)
    ensures r.None? ==> forall j | 0 <= j <= |s| :: !OccursAt(s, pat, j)
  {
    FindFrom(s, pat, 0)
  }

  /** The first occurrence is found after a prefix that does not contain one. */
  lemma FindAfterPrefix(before: string, pat: string, rest: string)
    requires forall j | 0 <= j < |before| :: !OccursAt(before + pat, pat, j)
    ensures Find(before + pat + rest, pat) == Some(|before|)
  {
    var s := before + pat + rest;
    assert s[|before|..|before| + |pat|] == pat;
    forall j | 0 <= j < |before|
      ensures !OccursAt(s, pat, j)
    {
      assert !OccursAt(before + pat, pat, j);
      assert s[j..j + |pat|] == (before + pat)[j..j + |pat|];
    }
    assert OccursAt(s, pat, |before|);
  }

  // ---------------------------------------------------------------------------
  // sscanf's %d and the datetime format
  // ---------------------------------------------------------------------------

  /** isspace in the C locale. */
  predicate IsSpace(c: char)
  {
    c == ' ' || c == '\t' || c == '\n' || c == '\r' || c == '\U{000B}' || c == '\U{000C}'
  }

  predicate IsDigit(c: char)
  {
    '0' <= c <= '9'
  }

  function SpaceRun(s: string): (n: nat)
    ensures n <= |s| && forall i | 0 <= i < n :: IsSpace(s[i])
    ensures n < |s| ==> !IsSpace(s[n])
  {
    if s != [] && IsSpace(s[0]) then 1 + SpaceRun(s[1..]) else 0
  }

  function DigitRun(s: string): (n: nat)
    ensures n <= |s| && forall i | 0 <= i < n :: IsDigit(s[i])
    ensures n < |s| ==> !IsDigit(s[n])
  {
    if s != [] && IsDigit(s[0]) then 1 + DigitRun(s[1..]) else 0
  }

  /** The value of a run of decimal digits, most significant first. */
  function DigitsValue(ds: string): nat
    requires forall i | 0 <= i < |ds| :: IsDigit(ds[i])
  {
    if ds == [] then 0 else DigitsValue(ds[..|ds| - 1]) * 10 + DigitValue(ds[|ds| - 1])
  }

  function DigitValue(c: char): (v: nat)
    requires IsDigit(c)
    ensures v < 10
  {
    c as int - '0' as int
  }

  /** The optional sign of a `%d`: one character when the text starts with `+` or `-`. */
  function SignLength(t: string): (n: nat)
    ensures n <= 1 && n <= |t|
  {
    if t != [] && (t[0] == '+' || t[0] == '-') then 1 else 0
  }

  /** Text that a `%d` can start on: a digit, or a sign followed by a digit. */
  predicate StartsNumber(t: string)
  {
    (t != [] && IsDigit(t[0])) || (|t| >= 2 && (t[0] == '+' || t[0] == '-') && IsDigit(t[1]))
  }

  /** Where the digits of a `%d` start: after the white space and the sign. */
  function DigitsStart(s: string): (a: nat)
    ensures SpaceRun(s) <= a <= SpaceRun(s) + 1 && a <= |s|
  {
    SpaceRun(s) + SignLength(s[SpaceRun(s)..])
  }

  /** The `%d` at the start of `s` carries a minus sign. */
  predicate Negative(s: string)
  {
    DigitsStart(s) == SpaceRun(s) + 1 && s[SpaceRun(s)] == '-'
  }

  /** The longest run of digits where the digits of a `%d` start. */
  function Magnitude(s: string): (m: string)
    ensures forall i | 0 <= i < |m| :: IsDigit(m[i])
    ensures DigitsStart(s) + |m| <= |s| && m == s[DigitsStart(s)..DigitsStart(s) + |m|]
    ensures DigitsStart(s) + |m| < |s| ==> !IsDigit(s[DigitsStart(s) + |m|])
  {
    var a := DigitsStart(s);
    s[a..a + DigitRun(s[a..])]
  }

  /**
   * One `%d`: skip white space, take an optional sign and the longest run of
   * digits after it; at least one digit is needed. The result is the value,
   * negated after a minus sign, and the number of characters consumed.
   */
  function ScanInt(s: string): (r: Option<(int, nat)>)
    ensures r.None? <==> !StartsNumber(s[SpaceRun(s)..])
    ensures r.Some? ==> 0 < r.value.1 <= |s| && IsDigit(s[r.value.1 - 1])
    ensures r.Some? ==> r.value.1 == |s| || !IsDigit(s[r.value.1])
    ensures r.Some? ==> r.value.1 == DigitsStart(s) + |Magnitude(s)|
    ensures r.Some? ==> r.value.0 == if Negative(s) then -(DigitsValue(Magnitude(s)) as int) else DigitsValue(Magnitude(s))
  {
    var m := Magnitude(s);
    StartsNumberIff(s);
    if m == [] then None
    else
      var mag := DigitsValue(m);
      Some((if Negative(s) then -(mag as int) else mag, DigitsStart(s) + |m|))
  }

  lemma StartsNumberIff(s: string)
    ensures StartsNumber(s[SpaceRun(s)..]) <==> Magnitude(s) != []
  {
    var w := SpaceRun(s);
    var t := s[w..];
    var a := DigitsStart(s);
    assert t[a - w..] == s[a..];
    if a < |s| {
      assert s[a..][0] == s[a];
    }
  }

  /** A `%d` followed by the literal `sep`; gives the value and the text after the separator. */
  function ScanIntThen(s: string, sep: char): (r: Option<(int, string)>)
    ensures r.Some? <==> ScanInt(s).Some? && ScanInt(s).value.1 < |s| && s[ScanInt(s).value.1] == sep
    ensures r.Some? ==> r.value.0 == ScanInt(s).value.0 && r.value.1 == s[ScanInt(s).value.1 + 1..]
  {
    match ScanInt(s)
    case None => None
    case Some(p) => if p.1 < |s| && s[p.1] == sep then Some((p.0, s[p.1 + 1..])) else None
  }

  /** The literal characters between the six conversions of `%d-%d-%dT%d:%d:%d`. */
  const DateTimeSeparators: string := "--T::"

  /**
   * sscanf's walk over a format of `%d` conversions with one literal between
   * each two: one `%d`, and while literals remain, that literal and the rest
   * of the format. The values in order, or `None` at the first conversion or
   * literal that does not match.
   */
  function Fields(s: string, seps: string): (r: Option<seq<int>>)
    ensures r.Some? ==> |r.value| == |seps| + 1
    decreases |seps|
  {
    if seps == [] then
      match ScanInt(s)
      case None => None
      case Some(p) => Some([p.0])
    else
      match ScanIntThen(s, seps[0])
      case None => None
      case Some(p) =>
        match Fields(p.1, seps[1..])
        case None => None
        case Some(vs) => Some([p.0] + vs)
  }

  /** The six fields in scan order, built the way the format walk builds its list. */
  function Components(dt: DateTime): (vs: seq<int>)
    ensures vs == [dt.year, dt.month, dt.day, dt.hour, dt.minute, dt.second]
  {
    [dt.year] + ([dt.month] + ([dt.day] + ([dt.hour] + ([dt.minute] + [dt.second]))))
  }

  /**
   * sscanf(value, "%d-%d-%dT%d:%d:%d", ...) == 6: `Some` exactly when all six
   * conversions succeed. What follows the sixth number is not looked at.
   */
  function ScanDateTime(s: string): (r: Option<DateTime>)
    ensures r.Some? <==> Fields(s, DateTimeSeparators).Some?
    ensures r.Some? ==> Fields(s, DateTimeSeparators) == Some(Components(r.value))
  {
    assert DateTimeSeparators[1..] == "-T::" && "-T::"[1..] == "T::" && "T::"[1..] == "::";
    assert "::"[1..] == ":" && ":"[1..] == "";
    var y := ScanIntThen(s, '-');
    FieldsAt(s, DateTimeSeparators);
    if y.None? then None else
    var mo := ScanIntThen(y.value.1, '-');
    FieldsAt(y.value.1, "-T::");
    if mo.None? then None else
    var d := ScanIntThen(mo.value.1, 'T');
    FieldsAt(mo.value.1, "T::");
    if d.None? then None else
    var h := ScanIntThen(d.value.1, ':');
    FieldsAt(d.value.1, "::");
    if h.None? then None else
    var mi := ScanIntThen(h.value.1, ':');
    FieldsAt(h.value.1, ":");
    if mi.None? then None else
    var sc := ScanInt(mi.value.1);
    FieldsLast(mi.value.1);
    if sc.None? then None else
    var dt := DateTime(y.value.0, mo.value.0, d.value.0, h.value.0, mi.value.0, sc.value.0);
    FieldsOfSteps(s, y.value.1, mo.value.1, d.value.1, h.value.1, mi.value.1, dt);
    Some(dt)
  }

  /** Six successful conversions with their separators make a successful format walk. */
  lemma FieldsOfSteps(s: string, s1: string, s2: string, s3: string, s4: string, s5: string, dt: DateTime)
    requires ScanIntThen(s, '-') == Some((dt.year, s1))
    requires ScanIntThen(s1, '-') == Some((dt.month, s2))
    requires ScanIntThen(s2, 'T') == Some((dt.day, s3))
    requires ScanIntThen(s3, ':') == Some((dt.hour, s4))
    requires ScanIntThen(s4, ':') == Some((dt.minute, s5))
    requires ScanInt(s5).Some? && ScanInt(s5).value.0 == dt.second
    ensures Fields(s, DateTimeSeparators) == Some(Components(dt))
  {
    assert DateTimeSeparators[1..] == "-T::" && "-T::"[1..] == "T::" && "T::"[1..] == "::";
    assert "::"[1..] == ":" && ":"[1..] == "";
    var v5 := [dt.second];
    var v4 := [dt.minute] + v5;
    var v3 := [dt.hour] + v4;
    var v2 := [dt.day] + v3;
    var v1 := [dt.month] + v2;
    FieldsLast(s5);
    FieldsCons(s4, ":", dt.minute, s5, v5);
    FieldsCons(s3, "::", dt.hour, s4, v4);
    FieldsCons(s2, "T::", dt.day, s3, v3);
    FieldsCons(s1, "-T::", dt.month, s2, v2);
    FieldsCons(s, DateTimeSeparators, dt.year, s1, v1);
  }

  /** A conversion and its literal in front of a successful walk of the rest. */
  lemma FieldsCons(s: string, seps: string, v: int, rest: string, vs: seq<int>)
    requires seps != [] && ScanIntThen(s, seps[0]) == Some((v, rest)) && Fields(rest, seps[1..]) == Some(vs)
    ensures Fields(s, seps) == Some([v] + vs)
  {
  }

  /** One literal of the format walk. */
  lemma FieldsAt(s: string, seps: string)
    requires seps != []
    ensures Fields(s, seps) ==
              var p := ScanIntThen(s, seps[0]);
              if p.None? then None
              else
                var f := Fields(p.value.1, seps[1..]);
                if f.None? then None else Some([p.value.0] + f.value)
  {
  }

  /** The last conversion of the format walk. */
  lemma FieldsLast(s: string)
    ensures Fields(s, "") == if ScanInt(s).None? then None else Some([ScanInt(s).value.0])
  {
  }

  // ---------------------------------------------------------------------------
  // The response in the shape the time service sends, as a partner of the scan
  // ---------------------------------------------------------------------------

  function Pow10(w: nat): (p: nat)
    ensures p >= 1
  {
    if w == 0 then 1 else 10 * Pow10(w - 1)
  }

  /** `n` written in exactly `w` decimal digits, with leading zeros. */
  function Digits(n: nat, w: nat): (r: string)
    ensures |r| == w && forall i | 0 <= i < w :: IsDigit(r[i])
  {
    if w == 0 then [] else Digits(n / 10, w - 1) + [((n % 10) + '0' as int) as char]
  }

  lemma {:induction false} DigitsValueOfDigits(n: nat, w: nat)
    requires n < Pow10(w)
    ensures DigitsValue(Digits(n, w)) == n
  {
    if w > 0 {
      var q, d := n / 10, n % 10;
      assert n == q * 10 + d;
      assert q < Pow10(w - 1);
      var pre := Digits(q, w - 1);
      var ds := Digits(n, w);
      assert ds == pre + [(d + '0' as int) as char];
      assert ds[..|ds| - 1] == pre;
      assert DigitValue(ds[|ds| - 1]) == d;
      DigitsValueOfDigits(q, w - 1);
    }
  }

  lemma {:induction false} DigitRunOfDigits(ds: string, rest: string)
    requires forall i | 0 <= i < |ds| :: IsDigit(ds[i])
    requires rest == [] || !IsDigit(rest[0])
    ensures DigitRun(ds + rest) == |ds|
  {
    if ds != [] {
      assert (ds + rest)[1..] == ds[1..] + rest;
      DigitRunOfDigits(ds[1..], rest);
    }
  }

  /** A zero-padded field followed by a non-digit scans back to its value. */
  lemma ScanIntOfDigits(n: nat, w: nat, rest: string)
    requires 0 < w && n < Pow10(w)
    requires rest == [] || !IsDigit(rest[0])
    ensures ScanInt(Digits(n, w) + rest) == Some((n, w))
  {
    var ds := Digits(n, w);
    var s := ds + rest;
    assert s[0] == ds[0] && s[..w] == ds;
    DigitRunOfDigits(ds, rest);
    DigitsValueOfDigits(n, w);
    ScanIntOfRun(s, w, n);
  }

  /** Text that starts with a digit scans as its digit run. */
  lemma ScanIntOfRun(s: string, d: nat, v: nat)
    requires s != [] && IsDigit(s[0]) && DigitRun(s) == d
    requires DigitsValue(s[..d]) == v
    ensures ScanInt(s) == Some((v, d))
  {
    assert SpaceRun(s) == 0;
    assert s[0..] == s;
  }

  lemma ScanIntThenOfDigits(n: nat, w: nat, sep: char, rest: string)
    requires 0 < w && n < Pow10(w) && !IsDigit(sep)
    ensures ScanIntThen(Digits(n, w) + ([sep] + rest), sep) == Some((n, rest))
  {
    ScanIntOfDigits(n, w, [sep] + rest);
    SeparatorAt(Digits(n, w), sep, rest);
    ScanIntThenAt(Digits(n, w) + ([sep] + rest), sep, n, w);
  }

  lemma SeparatorAt(ds: string, sep: char, rest: string)
    ensures var s := ds + ([sep] + rest); |ds| < |s| && s[|ds|] == sep && s[|ds| + 1..] == rest
  {
    var s := ds + ([sep] + rest);
    assert s[|ds|..] == [sep] + rest;
  }

  /** A `%d` that stops at the separator. */
  lemma ScanIntThenAt(s: string, sep: char, v: int, k: nat)
    requires ScanInt(s) == Some((v, k)) && k < |s| && s[k] == sep
    ensures ScanIntThen(s, sep) == Some((v, s[k + 1..]))
  {
  }

  /** A field combination the time service can send: each part fits its width. */
  predicate Fits(dt: DateTime)
  {
    0 <= dt.year < 10000 && 0 <= dt.month < 100 && 0 <= dt.day < 100 &&
    0 <= dt.hour < 100 && 0 <= dt.minute < 100 && 0 <= dt.second < 100
  }

  /** YYYY-MM-DDTHH:MM:SS, followed by `rest`. */
  function FormatDateTime(dt: DateTime, rest: string): string
    requires Fits(dt)
  {
    Digits(dt.year, 4) + ("-" + (Digits(dt.month, 2) + ("-" + (Digits(dt.day, 2) + ("T" +
      (Digits(dt.hour, 2) + (":" + (Digits(dt.minute, 2) + (":" + (Digits(dt.second, 2) + rest))))))))))
  }

  /** Six successful conversions with their separators make a successful scan. */
  lemma ScanDateTimeOfSteps(s: string, s1: string, s2: string, s3: string, s4: string, s5: string, dt: DateTime)
    requires ScanIntThen(s, '-') == Some((dt.year, s1))
    requires ScanIntThen(s1, '-') == Some((dt.month, s2))
    requires ScanIntThen(s2, 'T') == Some((dt.day, s3))
    requires ScanIntThen(s3, ':') == Some((dt.hour, s4))
    requires ScanIntThen(s4, ':') == Some((dt.minute, s5))
    requires ScanInt(s5).Some? && ScanInt(s5).value.0 == dt.second
    ensures ScanDateTime(s) == Some(dt)
  {
  }

  /** Scanning a formatted date-time gives back its six fields, whatever non-digit text follows. */
  lemma ScanFormatted(dt: DateTime, rest: string)
    requires Fits(dt)
    requires rest == [] || !IsDigit(rest[0])
    ensures ScanDateTime(FormatDateTime(dt, rest)) == Some(dt)
  {
    var s5 := Digits(dt.second, 2) + rest;
    var s4 := Digits(dt.minute, 2) + ([':'] + s5);
    var s3 := Digits(dt.hour, 2) + ([':'] + s4);
    var s2 := Digits(dt.day, 2) + (['T'] + s3);
    var s1 := Digits(dt.month, 2) + (['-'] + s2);
    var s := Digits(dt.year, 4) + (['-'] + s1);
    assert FormatDateTime(dt, rest) == s;
    assert Pow10(4) == 10000;
    assert Pow10(2) == 100;
    ScanIntThenOfDigits(dt.year, 4, '-', s1);
    ScanIntThenOfDigits(dt.month, 2, '-', s2);
    ScanIntThenOfDigits(dt.day, 2, 'T', s3);
    ScanTimeOfDigits(dt, rest);
    ScanDateTimeOfSteps(s, s1, s2, s3, s4, s5, dt);
  }

  /** The time half of a formatted date-time scans back to its three fields. */
  lemma ScanTimeOfDigits(dt: DateTime, rest: string)
    requires Fits(dt)
    requires rest == [] || !IsDigit(rest[0])
    ensures var s5 := Digits(dt.second, 2) + rest;
            var s4 := Digits(dt.minute, 2) + ([':'] + s5);
            ScanIntThen(Digits(dt.hour, 2) + ([':'] + s4), ':') == Some((dt.hour, s4)) &&
            ScanIntThen(s4, ':') == Some((dt.minute, s5)) &&
            ScanInt(s5) == Some((dt.second, 2))
  {
    var s5 := Digits(dt.second, 2) + rest;
    var s4 := Digits(dt.minute, 2) + ([':'] + s5);
    assert Pow10(2) == 100;
    ScanIntThenOfDigits(dt.hour, 2, ':', s4);
    ScanIntThenOfDigits(dt.minute, 2, ':', s5);
    ScanIntOfDigits(dt.second, 2, rest);
  }

  // ---------------------------------------------------------------------------
  // parse_time_string
  // ---------------------------------------------------------------------------

  const DatetimeKey: string := "\"datetime\":\""

  /** strstr for the key, then past its end: the text of the value onwards. */
  function ValueAfterKey(text: string): (r: Option<string>)
    ensures r.Some? <==> Find(text, DatetimeKey).Some?
    ensures r.Some? ==> |r.value| + |DatetimeKey| <= |text| && text[|text| - |r.value| - |DatetimeKey|..] == DatetimeKey + r.value
    ensures r.Some? ==> forall j | 0 <= j < |text| - |r.value| - |DatetimeKey| :: !OccursAt(text, DatetimeKey, j)
  {
    match Find(text, DatetimeKey)
    case None => None
    case Some(i) => Some(text[i + |DatetimeKey|..])
  }

  /**
   * The extraction inside get_http_time (lines 145-165), on the C string held
   * in the buffer: the value starts right after the first `"datetime":"`.
   */
  function ParseTime(response: string): (r: Option<NtpTime>)
    ensures Find(CStr(response), DatetimeKey).None? ==> r.None?
    ensures r.Some? <==> ValueAfterKey(CStr(response)).Some? &&
                         Fields(ValueAfterKey(CStr(response)).value, DateTimeSeparators).Some?
    ensures r.Some? ==>
              var vs := Fields(ValueAfterKey(CStr(response)).value, DateTimeSeparators).value;
              r.value == Fill(DateTime(vs[0], vs[1], vs[2], vs[3], vs[4], vs[5]))
  {
    match ValueAfterKey(CStr(response))
    case None => None
    case Some(value) =>
      match ScanDateTime(value)
      case None => None
      case Some(dt) =>
        var vs := Components(dt);
        assert DateTime(vs[0], vs[1], vs[2], vs[3], vs[4], vs[5]) == dt;
        Some(Fill(dt))
  }

  /**
   * parse_time_string: 0 and the filled struct on success; -1 with the
   * caller's struct untouched when the key is missing or the value does not scan.
   */
  function ParseTimeString(response: string, prior: NtpTime): (r: (int, NtpTime))
    ensures r.0 == 0 || r.0 == -1
    ensures r.0 == 0 <==> ParseTime(response).Some?
    ensures r.0 == 0 ==> r.1 == ParseTime(response).value
    ensures r.0 == -1 ==> r.1 == prior
  {
    match ParseTime(response)
    case None => (-1, prior)
    case Some(t) => (0, t)
  }

  lemma ParseTimeOfSteps(response: string, value: string, dt: DateTime)
    requires ValueAfterKey(CStr(response)) == Some(value)
    requires ScanDateTime(value) == Some(dt)
    ensures ParseTime(response) == Some(Fill(dt))
  {
  }

  /**
   * A response whose first `"datetime":"` is followed by a well-formed
   * date-time gives day, month and two-digit year in `date` and seconds,
   * minutes and hours in `time`; trailing text such as `.12345Z"` is ignored.
   */
  lemma ParseTimeOfResponse(before: string, dt: DateTime, after: string)
    requires Fits(dt)
    requires forall j | 0 <= j < |before| :: !OccursAt(before + DatetimeKey, DatetimeKey, j)
    requires after == [] || !IsDigit(after[0])
    requires NUL !in before + DatetimeKey + FormatDateTime(dt, after)
    ensures ParseTime(before + DatetimeKey + FormatDateTime(dt, after)) ==
              Some(NtpTime([dt.day, dt.month, dt.year % 100], [dt.second, dt.minute, dt.hour]))
  {
    var value := FormatDateTime(dt, after);
    var resp := before + DatetimeKey + value;
    CStrOfPlain(resp);
    FindAfterPrefix(before, DatetimeKey, value);
    assert resp[|before| + |DatetimeKey|..] == value;
    assert ValueAfterKey(resp) == Some(value);
    ScanFormatted(dt, after);
    ParseTimeOfSteps(resp, value, dt);
  }

  /**
   * The documented ranges hold for valid input: when the service sends a
   * real clock time, the hours, minutes and seconds are in range.
   */
  lemma FieldsInRangeForValidInput(before: string, dt: DateTime, after: string)
    requires Fits(dt) && dt.hour <= 23 && dt.minute <= 59 && dt.second <= 59 && 1 <= dt.month <= 12 && 1 <= dt.day <= 31
    requires forall j | 0 <= j < |before| :: !OccursAt(before + DatetimeKey, DatetimeKey, j)
    requires after == [] || !IsDigit(after[0])
    requires NUL !in before + DatetimeKey + FormatDateTime(dt, after)
    ensures var r := ParseTimeString(before + DatetimeKey + FormatDateTime(dt, after), NtpTime([], []));
            r.0 == 0 && 0 <= r.1.time[0] <= 59 && 0 <= r.1.time[1] <= 59 && 0 <= r.1.time[2] <= 23 &&
            1 <= r.1.date[0] <= 31 && 1 <= r.1.date[1] <= 12 && 0 <= r.1.date[2] <= 99
  {
    ParseTimeOfResponse(before, dt, after);
  }

  /**
   * A value after the key that is not six numbers with `-`, `-`, `T`, `:`
   * and `:` between them makes parse_time_string fail and leaves the
   * caller's struct as it was.
   */
  lemma MalformedValueFails(response: string, prior: NtpTime)
    requires ValueAfterKey(CStr(response)).Some?
    requires Fields(ValueAfterKey(CStr(response)).value, DateTimeSeparators).None?
    ensures ParseTimeString(response, prior) == (-1, prior)
  {
  }

  /** A first number not followed by `-` is such a value, whatever comes after. */
  lemma WrongFirstSeparatorFails(response: string, prior: NtpTime)
    requires ValueAfterKey(CStr(response)).Some?
    requires var value := ValueAfterKey(CStr(response)).value;
             ScanInt(value).Some? && ScanInt(value).value.1 < |value| && value[ScanInt(value).value.1] != '-'
    ensures ParseTimeString(response, prior) == (-1, prior)
  {
    assert DateTimeSeparators[0] == '-';
    MalformedValueFails(response, prior);
  }

  /** Without the key there is nothing to scan, whatever else the response holds. */
  lemma MissingKeyFails(response: string, prior: NtpTime)
    requires forall j | 0 <= j <= |CStr(response)| :: !OccursAt(CStr(response), DatetimeKey, j)
    ensures ParseTimeString(response, prior) == (-1, prior)
  {
  }

  // ---------------------------------------------------------------------------
  // WriteMemoryCallback (lines 63-98)
  // ---------------------------------------------------------------------------

  class MemoryStruct {
    var memory: array<char>
    var size: nat

    /** The allocation holds `size` bytes of data and one more byte behind them. */
    ghost predicate Valid()
      reads this
    {
      memory.Length == size + 1
    }

    function Contents(): seq<char>
      reads this, memory
      requires size <= memory.Length
    {
      memory[..size]
    }

    /** The data is a C string: the byte after it is a NUL. */
    predicate Terminated()
      reads this, memory
    {
      size < memory.Length && memory[size] == NUL
    }

    /** malloc(1) and size 0: the single byte is whatever the allocator left there. */
    constructor (junk: char)
      ensures Valid() && size == 0 && memory[..] == [junk] && fresh(memory)
    {
      memory := new char[1](_ => junk);
      size := 0;
    }

    /**
     * Append `size * nmemb` bytes. When realloc fails nothing changes and 0 is
     * returned; otherwise the buffer grows, the new bytes follow the old ones,
     * a NUL follows them, and the byte count is returned.
     */
    method WriteMemoryCallback(contents: seq<char>, eltSize: nat, nmemb: nat, allocOk: bool) returns (handled: nat)
      requires Valid() && |contents| == eltSize * nmemb
      modifies this
      ensures Valid()
      ensures !allocOk ==> handled == 0 && size == old(size) && memory == old(memory) && memory[..] == old(memory[..])
      ensures allocOk ==> handled == eltSize * nmemb && size == old(size) + handled && fresh(memory)
      ensures allocOk ==> Contents() == old(Contents()) + contents && Terminated()
    {
      var realsize := eltSize * nmemb;
      if !allocOk {
        return 0;
      }
      ghost var oldContents := memory[..size];
      var ptr := Append(memory, size, contents);
      memory := ptr;
      size := size + realsize;
      memory[size] := NUL;
      assert memory[..size] == ptr[..size];
      return realsize;
    }
  }

  /**
   * realloc to `size + |contents| + 1` bytes, which keeps the first `size`,
   * then memcpy of `contents` behind them. The last byte is left for the NUL.
   */
  method Append(memory: array<char>, size: nat, contents: seq<char>) returns (ptr: array<char>)
    requires size < memory.Length
    ensures fresh(ptr) && ptr.Length == size + |contents| + 1
    ensures ptr[..size + |contents|] == memory[..size] + contents
  {
    ptr := new char[size + |contents| + 1];
    forall k | 0 <= k < size {
      ptr[k] := memory[k];
    }
    forall k | 0 <= k < |contents| {
      ptr[size + k] := contents[k];
    }
    assert ptr[..size + |contents|] == memory[..size] + contents by {
      assert forall k | 0 <= k < size :: ptr[k] == memory[k];
      assert forall k | size <= k < size + |contents| :: ptr[k] == contents[k - size];
    }
  }

  // ---------------------------------------------------------------------------
  // get_http_time
  // ---------------------------------------------------------------------------

  /** One chunk curl hands to the callback, and whether the realloc for it succeeds. */
  datatype Chunk = Chunk(bytes: seq<char>, allocOk: bool)

  /**
   * What the transfer does: whether curl_easy_init gives a handle, the chunks
   * delivered, and whether curl_easy_perform reports success once every chunk
   * was accepted.
   */
  datatype Transfer = Transfer(initOk: bool, chunks: seq<Chunk>, transferOk: bool)

  /** curl stops the transfer at the first chunk the callback does not fully accept. */
  predicate AllAccepted(chunks: seq<Chunk>)
  {
    forall i | 0 <= i < |chunks| :: chunks[i].allocOk || chunks[i].bytes == []
  }

  function Body(chunks: seq<Chunk>): (b: seq<char>)
    ensures chunks == [] ==> b == []
  {
    if chunks == [] then [] else Body(chunks[..|chunks| - 1]) + chunks[|chunks| - 1].bytes
  }

  /** Some chunk was stored by a successful realloc, so the callback wrote a NUL behind it. */
  predicate StoresAny(chunks: seq<Chunk>)
  {
    exists k | 0 <= k < |chunks| :: chunks[k].allocOk
  }

  /**
   * get_http_time's result: -1 and the struct untouched unless curl
   * initialises, every chunk is stored and the transfer succeeds; then
   * parse_time_string's result on the received body.
   */
  function HttpTime(tr: Transfer, prior: NtpTime): (r: (int, NtpTime))
    ensures r.0 == 0 || r.0 == -1
    ensures r.0 == -1 ==> r.1 == prior
    ensures r.0 == 0 <==> tr.initOk && AllAccepted(tr.chunks) && tr.transferOk && ParseTime(Body(tr.chunks)).Some?
    ensures r.0 == 0 ==> r.1 == ParseTime(Body(tr.chunks)).value
  {
    if tr.initOk && AllAccepted(tr.chunks) && tr.transferOk then ParseTimeString(Body(tr.chunks), prior)
    else (-1, prior)
  }

  /**
   * get_http_time with the transfer as input, with the buffer's first byte
   * set to NUL after malloc(1) so that an empty body is the empty C string.
   * The source leaves that byte as the allocator returned it; see
   * GetHttpTimeAsWritten.
   */
  method GetHttpTime(tr: Transfer, junk: char, prior: NtpTime) returns (rc: int, t: NtpTime)
    ensures (rc, t) == HttpTime(tr, prior)
  {
    rc, t := -1, prior;
    var chunk := new MemoryStruct(junk);
    chunk.memory[0] := NUL;
    if !tr.initOk {
      return;
    }
    var ok := Deliver(chunk, tr.chunks);
    if !ok || !tr.transferOk {
      return;
    }
    var text := chunk.memory[..];
    assert text == chunk.Contents() + [chunk.memory[chunk.size]];
    TerminatedView(Body(tr.chunks));
    var r := ParseTimeString(text, prior);
    rc, t := r.0, r.1;
  }

  /**
   * get_http_time as written: the byte malloc(1) returns is never cleared, so
   * when no chunk is stored strstr is handed a one-byte allocation that is a
   * C string only if that byte happens to be NUL. `undefined` reports that
   * case, where C leaves the behaviour undefined and the model gives -1;
   * everywhere else the result is get_http_time's.
   */
  method GetHttpTimeAsWritten(tr: Transfer, junk: char, prior: NtpTime) returns (rc: int, t: NtpTime, undefined: bool)
    ensures undefined <==> tr.initOk && AllAccepted(tr.chunks) && tr.transferOk && !StoresAny(tr.chunks) && junk != NUL
    ensures !undefined ==> (rc, t) == HttpTime(tr, prior)
  {
    rc, t, undefined := -1, prior, false;
    var chunk := new MemoryStruct(junk);
    if !tr.initOk {
      return;
    }
    var ok := Deliver(chunk, tr.chunks);
    if !ok || !tr.transferOk {
      return;
    }
    if !chunk.Terminated() {
      undefined := true;
      return;
    }
    var text := chunk.memory[..];
    assert text == chunk.Contents() + [chunk.memory[chunk.size]];
    TerminatedView(Body(tr.chunks));
    var r := ParseTimeString(text, prior);
    rc, t := r.0, r.1;
  }

  /**
   * curl_easy_perform handing the chunks to write_memory_callback in order,
   * stopping at the first one the callback does not fully accept. The buffer
   * ends in a NUL afterwards exactly when it did before or a chunk was stored.
   */
  method Deliver(chunk: MemoryStruct, chunks: seq<Chunk>) returns (ok: bool)
    requires chunk.Valid() && chunk.Contents() == []
    modifies chunk
    ensures chunk.Valid()
    ensures ok <==> AllAccepted(chunks)
    ensures ok ==> chunk.Contents() == Body(chunks)
    ensures ok ==> (chunk.Terminated() <==> old(chunk.Terminated()) || StoresAny(chunks))
  {
    ghost var wasTerminated := chunk.Terminated();
    var i := 0;
    ok := true;
    while i < |chunks| && ok
      invariant 0 <= i <= |chunks|
      invariant chunk.Valid()
      invariant ok ==> chunk.Contents() == Body(chunks[..i])
      invariant ok <==> AllAccepted(chunks[..i])
      invariant chunk.Terminated() <==> wasTerminated || StoresAny(chunks[..i])
    {
      var c := chunks[i];
      var handled := chunk.WriteMemoryCallback(c.bytes, 1, |c.bytes|, c.allocOk);
      ok := handled == |c.bytes|;
      assert chunks[..i + 1][..i] == chunks[..i];
      StoresSnoc(chunks, i);
      i := i + 1;
    }
    RejectedPrefix(chunks, i);
    if ok {
      assert chunks[..i] == chunks;
    }
  }

  lemma StoresSnoc(chunks: seq<Chunk>, i: nat)
    requires i < |chunks|
    ensures StoresAny(chunks[..i + 1]) <==> StoresAny(chunks[..i]) || chunks[i].allocOk
  {
    var p, q := chunks[..i], chunks[..i + 1];
    if StoresAny(p) {
      var k :| 0 <= k < |p| && p[k].allocOk;
      assert q[k] == p[k];
    }
    if chunks[i].allocOk {
      assert q[i] == chunks[i];
    }
    if StoresAny(q) {
      var k :| 0 <= k < |q| && q[k].allocOk;
      if k < i {
        assert p[k] == q[k];
      }
    }
  }

  /** A chunk refused early means the whole transfer is not accepted. */
  lemma RejectedPrefix(chunks: seq<Chunk>, i: nat)
    requires i <= |chunks|
    ensures !AllAccepted(chunks[..i]) ==> !AllAccepted(chunks)
  {
    if !AllAccepted(chunks[..i]) {
      var k :| 0 <= k < i && !chunks[..i][k].allocOk && chunks[..i][k].bytes != [];
      assert chunks[k] == chunks[..i][k];
    }
  }

  /** The terminating NUL appended by the callback hides nothing of the body. */
  lemma TerminatedView(body: seq<char>)
    ensures CStr(body + [NUL]) == CStr(body)
  {
    CStrAppend(body, [NUL]);
    if NUL !in body {
      CStrOfPlain(body);
    }
  }
}
