/** `parse_tz`: the offset named by a time-zone description such as
    "(UTC-05:00) Eastern Time", found by searching for the regular expression
    `UTC([+-])(\d\d):(\d\d)`. Offsets are whole minutes east of UTC. */
module TimeZones {
  import opened Outcomes

  /** Every match of `UTC([+-])(\d\d):(\d\d)` is exactly this many characters long. */
  const MatchLength: nat := 9

  /** `datetime.timezone` accepts only offsets strictly within one day. */
  const MinutesPerDay: int := 24 * 60

  predicate IsDigit(c: char) {
    '0' <= c <= '9'
  }

  function DigitValue(c: char): (v: nat)
    requires IsDigit(c)
    ensures v < 10
  {
    c as int - '0' as int
  }

  predicate AllDigits(t: string) {
    forall k :: 0 <= k < |t| ==> IsDigit(t[k])
  }

  /** The pattern matches the nine characters of `s` starting at index `i`. */
  predicate MatchesAt(s: string, i: nat) {
    i + MatchLength <= |s| &&
    s[i] == 'U' && s[i + 1] == 'T' && s[i + 2] == 'C' &&
    (s[i + 3] == '+' || s[i + 3] == '-') &&
    IsDigit(s[i + 4]) && IsDigit(s[i + 5]) &&
    s[i + 6] == ':' &&
    IsDigit(s[i + 7]) && IsDigit(s[i + 8])
  }

  predicate HasMatch(s: string) {
    exists i: nat :: i < |s| && MatchesAt(s, i)
  }

  /** `k` is where `re.search` reports its match: the leftmost start index. */
  predicate IsLeftmostMatch(s: string, k: nat) {
    MatchesAt(s, k) && forall j: nat :: j < k ==> !MatchesAt(s, j)
  }

  /** The scan `re.search` performs: try every start index from `from` on,
      left to right, and stop at the first that matches. */
  function SearchFrom(s: string, from: nat): (r: Option<nat>)
    decreases |s| - from
    ensures r.Some? ==> from <= r.value && MatchesAt(s, r.value)
    ensures r.Some? ==> forall j: nat :: from <= j < r.value ==> !MatchesAt(s, j)
    ensures r.None? ==> forall j: nat :: from <= j ==> !MatchesAt(s, j)
  {
    if from + MatchLength > |s| then None
    else if MatchesAt(s, from) then Some(from)
    else SearchFrom(s, from + 1)
  }

  /** `re.search`: the leftmost match, or none when the pattern occurs nowhere. */
  function Search(s: string): (r: Option<nat>)
    ensures r.None? <==> !HasMatch(s)
    ensures r.Some? ==> IsLeftmostMatch(s, r.value)
  {
    SearchFrom(s, 0)
  }

  /** `str.lstrip(c)`. */
  function LStrip(s: string, c: char): string {
    if s != [] && s[0] == c then LStrip(s[1..], c) else s
  }

  /** `int(t)` for a non-empty string of decimal digits. */
  function DecimalValue(t: string): nat
    requires 0 < |t| && AllDigits(t)
  {
    if |t| == 1 then DigitValue(t[0])
    else 10 * DecimalValue(t[..|t| - 1]) + DigitValue(t[|t| - 1])
  }

  /** What `lstrip('0')` leaves of a two-digit group, and the value of that. */
  lemma StripTwoDigits(group: string)
    requires |group| == 2 && AllDigits(group)
    ensures var stripped := LStrip(group, '0');
            if stripped == [] then group == "00"
            else 0 < |stripped| && AllDigits(stripped) &&
                 DecimalValue(stripped) == 10 * DigitValue(group[0]) + DigitValue(group[1])
  {
    var tail := group[1..];
    assert tail == [group[1]];
    if group[0] == '0' {
      assert LStrip(group, '0') == LStrip(tail, '0');
      if group[1] == '0' {
        assert tail[1..] == [];
        assert LStrip(tail, '0') == [];
        assert group == [group[0], group[1]] == "00";
      } else {
        assert LStrip(tail, '0') == tail;
        assert DecimalValue(tail) == DigitValue(group[1]);
        assert DigitValue(group[0]) == 0;
      }
    } else {
      assert LStrip(group, '0') == group;
      assert group[..1] == [group[0]];
      assert DecimalValue(group[..1]) == DigitValue(group[0]);
    }
  }

  /** `int(g) if g else 0` after `g = group.lstrip('0')`: the value of one
      two-digit group; stripping the leading zeros never changes it. */
  function GroupValue(group: string): (v: nat)
    requires |group| == 2 && AllDigits(group)
    ensures v == 10 * DigitValue(group[0]) + DigitValue(group[1])
  {
    var stripped := LStrip(group, '0');
    StripTwoDigits(group);
    if stripped == [] then 0 else DecimalValue(stripped)
  }

  /** The signed offset, in minutes, that a match at `k` spells out:
      `timedelta(hours=hh, minutes=mm)`, negated when the sign is '-'. */
  function MatchedOffset(s: string, k: nat): (minutes: int)
    requires MatchesAt(s, k)
    ensures var magnitude := 60 * (10 * DigitValue(s[k + 4]) + DigitValue(s[k + 5]))
                             + 10 * DigitValue(s[k + 7]) + DigitValue(s[k + 8]);
            minutes == if s[k + 3] == '-' then -magnitude else magnitude
  {
    var sign := s[k + 3];
    var hh := s[k + 4..k + 6];
    var mm := s[k + 7..k + 9];
    assert hh == [s[k + 4], s[k + 5]] && mm == [s[k + 7], s[k + 8]];
    var delta := 60 * GroupValue(hh) + GroupValue(mm);
    if sign == '-' then -delta else delta
  }

  /** `datetime.timezone(offset)`: a fixed-offset zone, or ValueError when the
      offset is not strictly between minus one day and one day. */
  function MakeTimezone(minutes: int): (r: Outcome<Option<int>>)
    ensures r.Ok? <==> -MinutesPerDay < minutes < MinutesPerDay
    ensures r.Ok? ==> r.value == Some(minutes)
    ensures r.Raised? ==> r.error == ValueError
  {
    if -MinutesPerDay < minutes < MinutesPerDay then Ok(Some(minutes)) else Raised(ValueError)
  }

  /** `parse_tz(tzstr)`: `Ok(None)` when nothing matches (the function falls off
      its end), the zone of the leftmost match otherwise, or the ValueError
      `datetime.timezone` raises for a match of 24 hours or more. The
      `try`/`except` around `lstrip` can never fire on digit strings, so its
      `return None` has no counterpart here. */
  function ParseTz(s: string): (r: Outcome<Option<int>>)
    ensures r == Ok(None) <==> !HasMatch(s)
    ensures r.Ok? && r.value.Some? ==> -MinutesPerDay < r.value.value < MinutesPerDay
    ensures r.Raised? ==> r.error == ValueError && HasMatch(s)
  {
    match Search(s)
    case None => Ok(None)
    case Some(k) => MakeTimezone(MatchedOffset(s, k))
  }

  lemma SearchIsLeftmost(s: string, k: nat)
    requires IsLeftmostMatch(s, k)
    ensures Search(s) == Some(k)
  {
    assert k < |s|;
  }

  /** The leftmost match decides the result, read digit by digit: the
      magnitude is 60 * HH + MM minutes, negated for '-', and the call raises
      exactly when that reaches a whole day. */
  lemma LeftmostMatchDecides(s: string, k: nat)
    requires IsLeftmostMatch(s, k)
    ensures var magnitude := 60 * (10 * DigitValue(s[k + 4]) + DigitValue(s[k + 5]))
                             + 10 * DigitValue(s[k + 7]) + DigitValue(s[k + 8]);
            ParseTz(s) == MakeTimezone(if s[k + 3] == '-' then -magnitude else magnitude)
  {
    SearchIsLeftmost(s, k);
  }

  /** A window that lies inside `s` reads the same in any extension of `s`. */
  lemma WindowAgrees(s: string, u: string, j: nat)
    requires j + MatchLength <= |s| <= |u| && u[..|s|] == s
    ensures MatchesAt(u, j) == MatchesAt(s, j)
    ensures MatchesAt(s, j) ==> MatchedOffset(u, j) == MatchedOffset(s, j)
  {
    forall p | j <= p < j + MatchLength
      ensures u[p] == s[p]
    {
      assert u[..|s|][p] == u[p];
    }
  }

  /** Text after a match never changes the result: later `UTC±HH:MM`
      occurrences are not consulted. */
  lemma LaterTextIgnored(s: string, t: string)
    requires HasMatch(s)
    ensures ParseTz(s + t) == ParseTz(s)
  {
    var k := Search(s).value;
    var u := s + t;
    assert u[..|s|] == s;
    forall j: nat | j < k
      ensures !MatchesAt(u, j)
    {
      WindowAgrees(s, u, j);
    }
    WindowAgrees(s, u, k);
    SearchIsLeftmost(u, k);
  }

  /** The zone parsed from a description, with its sign turned round. */
  function Negated(r: Outcome<Option<int>>): Outcome<Option<int>> {
    match r
    case Ok(Some(m)) => Ok(Some(-m))
    case _ => r
  }

  /** Replacing '+' by '-' in the leftmost match negates the offset; a match
      out of range raises either way. */
  lemma SignNegates(s: string, k: nat)
    requires IsLeftmostMatch(s, k) && s[k + 3] == '+'
    ensures ParseTz(s[k + 3 := '-']) == Negated(ParseTz(s))
  {
    var u := s[k + 3 := '-'];
    forall j: nat | j < k
      ensures !MatchesAt(u, j)
    {
      // a window starting before k sees position k + 3 only at its offsets
      // 4 to 8, where a digit or ':' is needed and '-' cannot match
      assert !MatchesAt(s, j);
    }
    LeftmostMatchDecides(s, k);
    LeftmostMatchDecides(u, k);
  }

  /** A two-digit decimal rendering of `n < 100`. */
  function TwoDigits(n: nat): (t: string)
    requires n < 100
    ensures |t| == 2 && AllDigits(t)
    ensures 10 * DigitValue(t[0]) + DigitValue(t[1]) == n
  {
    [(('0' as int) + n / 10) as char, (('0' as int) + n % 10) as char]
  }

  /** How a description writes a zone: "UTC+HH:MM" or "UTC-HH:MM". */
  function OffsetText(minutes: int): (t: string)
    requires -MinutesPerDay < minutes < MinutesPerDay
  {
    var magnitude := if minutes < 0 then -minutes else minutes;
    "UTC" + [if minutes < 0 then '-' else '+'] + TwoDigits(magnitude / 60) + ":" + TwoDigits(magnitude % 60)
  }

  /** Every offset `datetime.timezone` accepts is read back from its own
      "UTC±HH:MM" text; in particular "UTC+00:00" gives the zero offset, not
      `None`. */
  lemma OffsetTextRoundTrip(minutes: int)
    requires -MinutesPerDay < minutes < MinutesPerDay
    ensures ParseTz(OffsetText(minutes)) == Ok(Some(minutes))
  {
    var t := OffsetText(minutes);
    assert MatchesAt(t, 0);
    LeftmostMatchDecides(t, 0);
  }

  /** A description holding a negative offset. */
  lemma SampleNegative(s: string)
    requires s == "UTC-05:00 note"
    ensures ParseTz(s) == Ok(Some(-300))
  {
    assert MatchesAt(s, 0);
    LeftmostMatchDecides(s, 0);
  }

  /** An hour group of "00" strips to the empty string and counts as zero. */
  lemma SampleZeroHours(s: string)
    requires s == "UTC+00:30"
    ensures ParseTz(s) == Ok(Some(30))
  {
    assert MatchesAt(s, 0);
    LeftmostMatchDecides(s, 0);
  }

  /** Only the first of two offsets counts. */
  lemma SampleTwoOffsets(s: string)
    requires s == "(UTC+01:00) UTC-08:00"
    ensures ParseTz(s) == Ok(Some(60))
  {
    assert s[0] == '(';
    assert MatchesAt(s, 1);
    LeftmostMatchDecides(s, 1);
  }

  /** A 25-hour offset matches the pattern but `datetime.timezone` rejects it. */
  lemma SampleTooLarge(s: string)
    requires s == "UTC+25:00"
    ensures ParseTz(s) == Raised(ValueError)
  {
    assert MatchesAt(s, 0);
    LeftmostMatchDecides(s, 0);
  }

  /** A single-digit hour does not match, so the result is `None`. */
  lemma SampleNoMatch()
    ensures ParseTz("UTC+5:00") == Ok(None)
  {
    var s := "UTC+5:00";
    assert |s| < MatchLength;
  }

  /** A description with no offset at all gives `None`, not a zero offset. */
  lemma SampleNoOffset(s: string)
    requires s == "no timezone here"
    ensures ParseTz(s) == Ok(None)
  {
    forall i: nat | i < |s|
      ensures !MatchesAt(s, i)
    {
      assert 'U' !in s;
    }
  }
}
