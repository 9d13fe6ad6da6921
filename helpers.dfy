/**
 * internal/utils/helpers.go: first-match lookups by id and the short time-string
 * parser used by the entry form's validation and by the API client.
 */
module Helpers {
  import opened Wrappers
  import opened GoStrings
  import opened Models

  /** The only error the lookups return (`strconv.ErrSyntax`). */
  datatype LookupError = ErrSyntax

  /** The index of the first project with id `id`, if any. */
  function FirstProjectIndex(ps: seq<Project>, id: string): (r: Option<nat>)
    ensures r.Some? ==> r.value < |ps| && ps[r.value].id == id && forall j :: 0 <= j < r.value ==> ps[j].id != id
    ensures r.None? ==> forall j :: 0 <= j < |ps| ==> ps[j].id != id
    decreases |ps|
  {
    if ps == [] then None
    else if ps[0].id == id then Some(0)
    else
      match FirstProjectIndex(ps[1..], id)
      case None => None
      case Some(i) => Some(i + 1)
  }

  /** Any index that holds the id with no earlier match is the first one. */
  lemma {:induction false} FirstProjectIndexAt(ps: seq<Project>, id: string, i: nat)
    requires i < |ps| && ps[i].id == id && forall j :: 0 <= j < i ==> ps[j].id != id
    ensures FirstProjectIndex(ps, id) == Some(i)
    decreases i
  {
    if i > 0 {
      FirstProjectIndexAt(ps[1..], id, i - 1);
    }
  }

  /** `FindProjectById`: the first project whose id matches, or the zero project and an error. */
  method FindProjectById(projects: seq<Project>, id: string) returns (p: Project, err: Option<LookupError>)
    ensures err.None? <==> exists i :: 0 <= i < |projects| && projects[i].id == id
    ensures err.None? ==> exists i :: 0 <= i < |projects| && projects[i] == p && p.id == id &&
                                     forall j :: 0 <= j < i ==> projects[j].id != id
    ensures err.Some? ==> p == ZeroProject && err == Some(ErrSyntax)
    ensures p == ProjectOrZero(projects, id)
  {
    var i := 0;
    assert projects[0..] == projects;
    while i < |projects|
      invariant 0 <= i <= |projects|
      invariant forall j :: 0 <= j < i ==> projects[j].id != id
      invariant ProjectOrZero(projects[i..], id) == ProjectOrZero(projects, id)
    {
      if projects[i].id == id {
        return projects[i], None;
      }
      assert projects[i..][1..] == projects[i + 1..];
      i := i + 1;
    }
    return ZeroProject, Some(ErrSyntax);
  }

  /** The project `FindProjectById` returns, ignoring the error. */
  function ProjectOrZero(projects: seq<Project>, id: string): Project
    decreases |projects|
  {
    if projects == [] then ZeroProject
    else if projects[0].id == id then projects[0]
    else ProjectOrZero(projects[1..], id)
  }

  /** The lookup gives the project at the first matching index, or the zero project when none matches. */
  lemma {:induction false} ProjectOrZeroIsFirst(projects: seq<Project>, id: string)
    ensures FirstProjectIndex(projects, id).Some? ==>
      ProjectOrZero(projects, id) == projects[FirstProjectIndex(projects, id).value]
    ensures FirstProjectIndex(projects, id).None? ==> ProjectOrZero(projects, id) == ZeroProject
    decreases |projects|
  {
    if projects != [] && projects[0].id != id {
      ProjectOrZeroIsFirst(projects[1..], id);
    }
  }

  /** `FindEntryById`: the first entry whose id matches, or the zero entry and an error. */
  method FindEntryById(entries: seq<Entry>, id: string) returns (e: Entry, err: Option<LookupError>)
    ensures err.None? <==> exists i :: 0 <= i < |entries| && entries[i].id == id
    ensures err.None? ==> exists i :: 0 <= i < |entries| && entries[i] == e && e.id == id &&
                                     forall j :: 0 <= j < i ==> entries[j].id != id
    ensures err.Some? ==> e == ZeroEntry && err == Some(ErrSyntax)
  {
    var i := 0;
    while i < |entries|
      invariant 0 <= i <= |entries|
      invariant forall j :: 0 <= j < i ==> entries[j].id != id
    {
      if entries[i].id == id {
        return entries[i], None;
      }
      i := i + 1;
    }
    return ZeroEntry, Some(ErrSyntax);
  }

  // ---------------------------------------------------------------------------
  // fmt.Sscanf with the verb %d
  // ---------------------------------------------------------------------------

  const MinInt64: int := -0x8000_0000_0000_0000
  const MaxInt64: int := 0x7FFF_FFFF_FFFF_FFFF

  /** The scanner's `SkipSpace` for `Sscanf`: blanks are skipped, a newline is an error. */
  function SkipScanSpace(s: string): (r: Option<string>)
    ensures r.Some? ==> |r.value| <= |s|
    ensures r.Some? && r.value != [] ==> !IsSpace(r.value[0])
  {
    if s == [] then Some(s)
    else if s[0] == '\n' then None
    else if IsSpace(s[0]) then SkipScanSpace(s[1..])
    else Some(s)
  }

  /** Length of the run of decimal digits at the front of `s`. */
  function DigitRun(s: string): (k: nat)
    ensures k <= |s|
  {
    if s != [] && IsDigit(s[0]) then 1 + DigitRun(s[1..]) else 0
  }

  /** The value of a decimal digit (meaningless for other characters). */
  function DigitValue(c: char): int {
    c as int - '0' as int
  }

  /** The number written by a run of decimal digits, most significant first. */
  function DecimalValue(ds: string): int {
    if ds == [] then 0 else DecimalValue(ds[..|ds| - 1]) * 10 + DigitValue(ds[|ds| - 1])
  }

  /** What one %d consumed: the number and the unread rest of the input. */
  datatype Scanned = Scanned(value: int, rest: string)

  /**
   * One %d conversion into a Go `int`: optional blanks, an optional sign, at least
   * one decimal digit, and a value that fits in 64 bits. Text after the digits is
   * left unread.
   */
  function ScanInt(s: string): (r: Option<Scanned>)
    ensures r.Some? ==> MinInt64 <= r.value.value <= MaxInt64 && |r.value.rest| < |s|
  {
    match SkipScanSpace(s)
    case None => None
    case Some(t) => ScanSigned(t)
  }

  /** After the blanks: EOF is an error, then an optional sign and the digits. */
  function ScanSigned(t: string): (r: Option<Scanned>)
    ensures r.Some? ==> MinInt64 <= r.value.value <= MaxInt64 && |r.value.rest| < |t|
  {
    if t == [] then None
    else if t[0] == '-' || t[0] == '+' then ScanDigitRun(t[1..], t[0] == '-')
    else ScanDigitRun(t, false)
  }

  /** At least one decimal digit, and a value that fits in an `int64`. */
  function ScanDigitRun(u: string, negative: bool): (r: Option<Scanned>)
    ensures r.Some? ==> MinInt64 <= r.value.value <= MaxInt64 && |r.value.rest| < |u|
  {
    var k := DigitRun(u);
    if k == 0 then None
    else
      var magnitude: int := DecimalValue(u[..k]);
      var v := if negative then -magnitude else magnitude;
      if v < MinInt64 || v > MaxInt64 then None else Some(Scanned(v, u[k..]))
  }

  /** Hour and minute as scanned, before any 12-hour conversion or range check. */
  datatype Clock = Clock(hour: int, minute: int)

  /** `Sscanf(u, "%d:%d")` when `u` contains a colon, else `Sscanf(u, "%d")`; both counts must be met. */
  function ScanClock(u: string): Option<Clock> {
    if Contains(u, ":") then
      match ScanInt(u)
      case None => None
      case Some(a) =>
        if a.rest == [] || a.rest[0] != ':' then None
        else
          match ScanInt(a.rest[1..])
          case None => None
          case Some(b) => Some(Clock(a.value, b.value))
    else
      match ScanInt(u)
      case None => None
      case Some(a) => Some(Clock(a.value, 0))
  }

  // ---------------------------------------------------------------------------
  // ParseTime
  // ---------------------------------------------------------------------------

  /** Lower-case, trim, then delete every space. */
  function Normalize(timeStr: string): string {
    RemoveAll(ToLower(TrimSpace(timeStr)), ' ')
  }

  predicate IsPM(t: string) {
    HasSuffix(t, "p") || HasSuffix(t, "pm")
  }

  /** The exact suffix chain of the source: "p", then "m", then "a", then "m". */
  function StripMarkers(t: string): string {
    TrimSuffix(TrimSuffix(TrimSuffix(TrimSuffix(t, "p"), "m"), "a"), "m")
  }

  /** The text that is scanned, and quoted in the error message. */
  function Stripped(timeStr: string): string {
    StripMarkers(Normalize(timeStr))
  }

  function InvalidFormat(stripped: string): string {
    "Invalid time format: \"" + stripped + "\""
  }

  /** 12-hour to 24-hour conversion; without a PM marker an hour of 12 becomes 0. */
  function To24Hour(hour: int, pm: bool): int {
    if pm && hour != 12 then hour + 12
    else if !pm && hour == 12 then 0
    else hour
  }

  /**
   * `ParseTime(timeStr, date)`. A success carries the minute, counted from the
   * start of day 0, of `date` plus the converted hour and the minute; neither is
   * range-checked, as `time.Date` normalises them. A failure carries the message.
   */
  function ParseTime(timeStr: string, date: int): (r: Result<int, string>)
  {
    var t := Normalize(timeStr);
    var pm := IsPM(t);
    var u := StripMarkers(t);
    match ScanClock(u)
    case None => Failure(InvalidFormat(u))
    case Some(c) => Success(date * MinutesPerDay + To24Hour(c.hour, pm) * 60 + c.minute)
  }

  /** `timeStr` parses, on day `date`, to the minute `minute`. */
  predicate ParsesTo(timeStr: string, date: int, minute: int) {
    var r := ParseTime(timeStr, date);
    r.Success? && r.value == minute
  }

  // ---------------------------------------------------------------------------
  // Properties
  // ---------------------------------------------------------------------------

  /** Text with nothing the scanner could read as a number fails, quoting the stripped text. */
  lemma NoLeadingIntegerFails(timeStr: string, date: int)
    requires var u := Stripped(timeStr);
      u == [] || !(IsDigit(u[0]) || u[0] == '+' || u[0] == '-' || IsSpace(u[0]))
    ensures ParseTime(timeStr, date).Failure? && ParseTime(timeStr, date).error == InvalidFormat(Stripped(timeStr))
  {
    var u := Stripped(timeStr);
    assert ScanInt(u) == None by {
      if u != [] {
        assert SkipScanSpace(u) == Some(u);
        assert DigitRun(u) == 0;
      }
    }
  }

  lemma LowerCharFacts(c: char)
    ensures IsSpace(LowerChar(c)) == IsSpace(c)
    ensures LowerChar(LowerChar(c)) == LowerChar(c)
    ensures (LowerChar(c) == ' ') == (c == ' ')
  {
  }

  lemma {:induction false} ToLowerIdempotent(s: string)
    ensures ToLower(ToLower(s)) == ToLower(s)
  {
    var l := ToLower(s);
    forall i | 0 <= i < |s| ensures ToLower(l)[i] == l[i] {
      LowerCharFacts(s[i]);
    }
  }

  lemma {:induction false} RemoveAllIdempotent(s: string, c: char)
    ensures RemoveAll(RemoveAll(s, c), c) == RemoveAll(s, c)
  {
  }

  lemma {:induction false} RemoveAllEnds(s: string, c: char)
    requires s != [] && s[0] != c && s[|s| - 1] != c
    ensures var r := RemoveAll(s, c); r != [] && r[0] == s[0] && r[|r| - 1] == s[|s| - 1]
    decreases |s|
  {
    if |s| > 1 {
      RemoveAllLast(s[1..], c);
    }
  }

  lemma {:induction false} RemoveAllLast(s: string, c: char)
    requires s != [] && s[|s| - 1] != c
    ensures var r := RemoveAll(s, c); r != [] && r[|r| - 1] == s[|s| - 1]
    decreases |s|
  {
    if |s| > 1 {
      RemoveAllLast(s[1..], c);
      assert s[1..][|s[1..]| - 1] == s[|s| - 1];
    }
  }

  lemma {:induction false} ToLowerKeepsLower(s: string)
    requires ToLower(s) == s
    ensures forall i :: 0 <= i < |RemoveAll(s, ' ')| ==> LowerChar(RemoveAll(s, ' ')[i]) == RemoveAll(s, ' ')[i]
    decreases |s|
  {
    if s != [] {
      assert LowerChar(s[0]) == s[0];
      var tail := s[1..];
      assert ToLower(tail) == tail by {
        forall i | 0 <= i < |tail| ensures ToLower(tail)[i] == tail[i] {
          assert s[i + 1] == LowerChar(s[i + 1]);
        }
      }
      ToLowerKeepsLower(tail);
    }
  }

  /** Normalising twice is normalising once, so parsing depends only on the normalised text. */
  lemma NormalizeIdempotent(timeStr: string)
    ensures Normalize(Normalize(timeStr)) == Normalize(timeStr)
  {
    var t := TrimSpace(timeStr);
    var l := ToLower(t);
    var r := RemoveAll(l, ' ');
    ToLowerIdempotent(t);
    if l != [] {
      LowerCharFacts(t[0]);
      LowerCharFacts(t[|t| - 1]);
      RemoveAllEnds(l, ' ');
    }
    assert TrimSpace(r) == r;
    ToLowerKeepsLower(l);
    assert ToLower(r) == r;
    RemoveAllIdempotent(l, ' ');
  }

  // ---------------------------------------------------------------------------
  // Scanning a run of digits
  // ---------------------------------------------------------------------------

  predicate AllDigits(ds: string) {
    ds == [] || (IsDigit(ds[0]) && AllDigits(ds[1..]))
  }

  lemma {:induction false} AllDigitsAt(ds: string, i: int)
    requires AllDigits(ds) && 0 <= i < |ds|
    ensures IsDigit(ds[i])
    decreases i
  {
    if i > 0 {
      AllDigitsAt(ds[1..], i - 1);
    }
  }

  lemma {:induction false} DigitRunPrefix(ds: string, rest: string)
    requires AllDigits(ds)
    requires rest == [] || !IsDigit(rest[0])
    ensures DigitRun(ds + rest) == |ds|
    decreases |ds|
  {
    if ds == [] {
      assert ds + rest == rest;
    } else {
      assert (ds + rest)[1..] == ds[1..] + rest;
      DigitRunPrefix(ds[1..], rest);
    }
  }

  /** %d reads exactly the digits in front of a non-digit and leaves the rest unread. */
  lemma ScanDigits(ds: string, rest: string)
    requires ds != [] && AllDigits(ds)
    requires rest == [] || !IsDigit(rest[0])
    requires 0 <= DecimalValue(ds) <= MaxInt64
    ensures ScanInt(ds + rest) == Some(Scanned(DecimalValue(ds), rest))
  {
    var s := ds + rest;
    assert s[0] == ds[0];
    assert SkipScanSpace(s) == Some(s);
    DigitRunPrefix(ds, rest);
    assert s[..|ds|] == ds;
    assert s[|ds|..] == rest;
    assert ScanDigitRun(s, false) == Some(Scanned(DecimalValue(ds), rest));
    assert ScanSigned(s) == ScanDigitRun(s, false);
  }

  // ---------------------------------------------------------------------------
  // Normalising text that is already normal
  // ---------------------------------------------------------------------------

  predicate IsLowered(s: string) {
    forall i :: 0 <= i < |s| ==> LowerChar(s[i]) == s[i]
  }

  lemma NormalizeClean(s: string)
    requires s == [] || (!IsSpace(s[0]) && !IsSpace(s[|s| - 1]))
    requires IsLowered(s) && ' ' !in s
    ensures Normalize(s) == s
  {
    assert TrimSpace(s) == s;
    assert ToLower(s) == s;
  }

  lemma {:induction false} ToLowerConcat(a: string, b: string)
    ensures ToLower(a + b) == ToLower(a) + ToLower(b)
  {
    var l := ToLower(a + b);
    var r := ToLower(a) + ToLower(b);
    assert |l| == |r|;
    forall i | 0 <= i < |l| ensures l[i] == r[i] {
      if i < |a| {
        assert (a + b)[i] == a[i];
      } else {
        assert (a + b)[i] == b[i - |a|];
      }
    }
  }

  lemma {:induction false} RemoveAllConcat(a: string, b: string, c: char)
    ensures RemoveAll(a + b, c) == RemoveAll(a, c) + RemoveAll(b, c)
    decreases |a|
  {
    if a == [] {
      assert a + b == b;
    } else {
      assert (a + b)[0] == a[0];
      assert (a + b)[1..] == a[1..] + b;
      RemoveAllConcat(a[1..], b, c);
    }
  }

  // ---------------------------------------------------------------------------
  // What the suffix chain leaves of each marker
  // ---------------------------------------------------------------------------

  lemma TrimSuffixOne(x: string, c: char)
    ensures TrimSuffix(x + [c], [c]) == x
  {
    assert (x + [c])[|x|..] == [c];
    assert (x + [c])[..|x|] == x;
  }

  lemma TrimSuffixNone(x: string, c: char)
    requires x == [] || x[|x| - 1] != c
    ensures TrimSuffix(x, [c]) == x
  {
    if |x| >= 1 {
      assert x[|x| - 1..] != [c] by {
        assert x[|x| - 1..][0] == x[|x| - 1];
      }
    }
  }

  predicate NoMarkerEnd(body: string) {
    body == [] || body[|body| - 1] !in "apm"
  }

  lemma StripBare(body: string)
    requires NoMarkerEnd(body)
    ensures StripMarkers(body) == body && !IsPM(body)
  {
    TrimSuffixNone(body, 'p');
    TrimSuffixNone(body, 'm');
    TrimSuffixNone(body, 'a');
    if |body| >= 2 {
      assert body[|body| - 2..][1] == body[|body| - 1];
    }
  }

  lemma StripA(body: string)
    requires NoMarkerEnd(body)
    ensures StripMarkers(body + "a") == body && !IsPM(body + "a")
  {
    var e := body + "a";
    TrimSuffixNone(e, 'p');
    TrimSuffixNone(e, 'm');
    TrimSuffixOne(body, 'a');
    TrimSuffixNone(body, 'm');
    if |e| >= 2 {
      assert e[|e| - 2..][1] == 'a';
    }
  }

  lemma StripP(body: string)
    requires NoMarkerEnd(body)
    ensures StripMarkers(body + "p") == body && IsPM(body + "p")
  {
    var e := body + "p";
    TrimSuffixOne(body, 'p');
    TrimSuffixNone(body, 'm');
    TrimSuffixNone(body, 'a');
    assert e[|e| - 1..] == "p";
  }

  lemma StripAM(body: string)
    requires NoMarkerEnd(body)
    ensures StripMarkers(body + "am") == body && !IsPM(body + "am")
  {
    var e := body + "am";
    assert e == (body + "a") + "m";
    TrimSuffixNone(e, 'p');
    TrimSuffixOne(body + "a", 'm');
    TrimSuffixOne(body, 'a');
    TrimSuffixNone(body, 'm');
    assert e[|e| - 1..][0] == 'm';
    assert e[|e| - 2..][0] == 'a';
  }

  /** "pm" loses only its "m": the "p" stays in front of the scanner, which ignores it. */
  lemma StripPM(body: string)
    requires NoMarkerEnd(body)
    ensures StripMarkers(body + "pm") == body + "p" && IsPM(body + "pm")
  {
    var e := body + "pm";
    assert e == (body + "p") + "m";
    TrimSuffixNone(e, 'p');
    TrimSuffixOne(body + "p", 'm');
    TrimSuffixNone(body + "p", 'a');
    TrimSuffixNone(body + "p", 'm');
    assert e[|e| - 2..] == "pm";
  }

  // ---------------------------------------------------------------------------
  // The "3:04 PM" layout the entry form prefills its time fields with
  // ---------------------------------------------------------------------------

  function DigitChar(d: int): (c: char)
    requires 0 <= d < 10
    ensures IsDigit(c) && DigitValue(c) == d
  {
    ('0' as int + d) as char
  }

  lemma DecimalOne(a: char)
    requires IsDigit(a)
    ensures DecimalValue([a]) == DigitValue(a) && AllDigits([a])
  {
    assert [a][..0] == [];
    assert [a][1..] == [];
  }

  lemma DecimalTwo(a: char, b: char)
    requires IsDigit(a) && IsDigit(b)
    ensures DecimalValue([a, b]) == DigitValue(a) * 10 + DigitValue(b) && AllDigits([a, b])
  {
    assert [a, b][..1] == [a];
    assert [a, b][1..] == [b];
    DecimalOne(a);
    DecimalOne(b);
  }

  /** An hour of the 12-hour clock without a leading zero. */
  function HourText(h12: int): (r: string)
    requires 1 <= h12 <= 12
    ensures r != [] && AllDigits(r) && DecimalValue(r) == h12
  {
    if h12 < 10 then
      DecimalOne(DigitChar(h12));
      [DigitChar(h12)]
    else
      DecimalTwo('1', DigitChar(h12 - 10));
      ['1', DigitChar(h12 - 10)]
  }

  /** A minute as two digits. */
  function MinuteText(m: int): (r: string)
    requires 0 <= m < 60
    ensures |r| == 2 && AllDigits(r) && DecimalValue(r) == m
  {
    DecimalTwo(DigitChar(m / 10), DigitChar(m % 10));
    [DigitChar(m / 10), DigitChar(m % 10)]
  }

  function Hour12(t: MinuteOfDay): int {
    if (t / 60) % 12 == 0 then 12 else (t / 60) % 12
  }

  /** `time.Kitchen` ("3:04 PM") applied to a clock reading. */
  function Kitchen(t: MinuteOfDay): string {
    HourText(Hour12(t)) + ":" + MinuteText(t % 60) + (if t / 60 < 12 then " AM" else " PM")
  }

  /** Digits and colons: unchanged by lower-casing, and free of blanks. */
  predicate IsClockText(x: string) {
    forall i :: 0 <= i < |x| ==> IsDigit(x[i]) || x[i] == ':'
  }

  /** The digits of an "H:MM" reading, as the layout writes them. */
  predicate IsClockParts(hh: string, mm: string) {
    hh != [] && AllDigits(hh) && |mm| == 2 && AllDigits(mm)
  }

  lemma ClockBodyIsClockText(hh: string, mm: string)
    requires IsClockParts(hh, mm)
    ensures IsClockText(hh + ":" + mm) && IsDigit((hh + ":" + mm)[0])
  {
    var body := hh + ":" + mm;
    forall i | 0 <= i < |body| ensures IsDigit(body[i]) || body[i] == ':' {
      if i < |hh| {
        assert body[i] == hh[i];
        AllDigitsAt(hh, i);
      } else if i > |hh| {
        assert body[i] == mm[i - |hh| - 1];
        AllDigitsAt(mm, i - |hh| - 1);
      }
    }
    assert body[0] == hh[0];
    AllDigitsAt(hh, 0);
  }

  lemma DigitsAreClockText(ds: string)
    requires ds != [] && AllDigits(ds)
    ensures IsClockText(ds) && IsDigit(ds[0])
  {
    forall i | 0 <= i < |ds| ensures IsDigit(ds[i]) {
      AllDigitsAt(ds, i);
    }
  }

  lemma ClockTextLowered(x: string)
    requires IsClockText(x)
    ensures ToLower(x) == x && ' ' !in x
  {
    assert forall i :: 0 <= i < |x| ==> ToLower(x)[i] == x[i];
  }

  /** The markers the parser recognises once the text is lower-cased and blanks are gone. */
  predicate IsMarker(m: string) {
    m == "" || m == "a" || m == "am" || m == "p" || m == "pm"
  }

  predicate IsPMMarker(m: string) {
    m == "p" || m == "pm"
  }

  /** What the scanner is left with once the suffix chain has removed a marker. */
  function MarkerRest(m: string): string {
    if m == "pm" then "p" else ""
  }

  lemma StripMarker(body: string, m: string)
    requires NoMarkerEnd(body) && IsMarker(m)
    ensures StripMarkers(body + m) == body + MarkerRest(m)
    ensures IsPM(body + m) == IsPMMarker(m)
  {
    if m == "" {
      assert body + m == body + MarkerRest(m) == body;
      StripBare(body);
    } else if m == "a" {
      StripA(body);
      assert body + MarkerRest(m) == body;
    } else if m == "am" {
      StripAM(body);
      assert body + MarkerRest(m) == body;
    } else if m == "p" {
      StripP(body);
      assert body + MarkerRest(m) == body;
    } else {
      StripPM(body);
    }
  }

  lemma ClockTextEnd(body: string)
    requires body != [] && IsClockText(body)
    ensures NoMarkerEnd(body) && !IsSpace(body[|body| - 1])
  {
    assert IsDigit(body[|body| - 1]) || body[|body| - 1] == ':';
  }

  /** Clock text followed directly by a marker is already normal. */
  lemma MarkedNormalized(body: string, m: string)
    requires body != [] && IsClockText(body) && IsDigit(body[0]) && IsMarker(m)
    ensures Normalize(body + m) == body + m
  {
    var k := body + m;
    ClockTextEnd(body);
    forall i | 0 <= i < |k| ensures LowerChar(k[i]) == k[i] && k[i] != ' ' {
      if i < |body| {
        assert k[i] == body[i];
      } else {
        assert k[i] == m[i - |body|];
      }
    }
    assert k[|k| - 1] == if m == "" then body[|body| - 1] else m[|m| - 1];
    NormalizeClean(k);
  }

  /** Clock text followed by a blank and an upper-case marker normalises to the text and the lower-case marker. */
  lemma SpacedNormalized(body: string, pm: bool)
    requires body != [] && IsClockText(body) && IsDigit(body[0])
    ensures Normalize(body + (if pm then " PM" else " AM")) == body + (if pm then "pm" else "am")
  {
    var marker := if pm then " PM" else " AM";
    var low := if pm then " pm" else " am";
    var k := body + marker;
    assert TrimSpace(k) == k by {
      assert k[0] == body[0] && k[|k| - 1] == 'M';
    }
    assert ToLower(k) == body + low by {
      SpacedMarker(pm);
      ToLowerConcat(body, marker);
      ClockTextLowered(body);
    }
    assert RemoveAll(body + low, ' ') == body + low[1..] by {
      SpacedMarker(pm);
      ClockTextLowered(body);
      RemoveAllConcat(body, low, ' ');
    }
  }

  /** " PM" and " AM" lower-case to " pm" and " am", which lose their blank to `RemoveAll`. */
  lemma SpacedMarker(pm: bool)
    ensures ToLower(if pm then " PM" else " AM") == (if pm then " pm" else " am")
    ensures RemoveAll(if pm then " pm" else " am", ' ') == (if pm then "pm" else "am")
  {
    var low := if pm then " pm" else " am";
    assert low[0] == ' ' && ' ' !in low[1..];
    assert RemoveAll(low, ' ') == RemoveAll(low[1..], ' ') == low[1..];
  }

  // ---------------------------------------------------------------------------
  // Scanning "H", "H:MM" and what may follow them
  // ---------------------------------------------------------------------------

  lemma {:induction false} ContainsSuffix(s: string, k: nat, sub: string)
    requires k <= |s| && Contains(s[k..], sub)
    ensures Contains(s, sub)
    decreases k
  {
    if k > 0 {
      assert s[1..][k - 1..] == s[k..];
      ContainsSuffix(s[1..], k - 1, sub);
    }
  }

  lemma {:induction false} NotContainsChar(s: string, c: char)
    requires c !in s
    ensures !Contains(s, [c])
    decreases |s|
  {
    if s != [] {
      assert s[..1] != [c] by {
        assert s[..1][0] == s[0];
      }
      assert c !in s[1..] by {
        forall i | 0 <= i < |s[1..]| ensures s[1..][i] != c {
          assert s[1..][i] == s[i + 1];
        }
      }
      NotContainsChar(s[1..], c);
    }
  }

  lemma ColonAfterDigits(hs: string, ms: string, rest: string)
    ensures Contains(hs + ":" + ms + rest, ":")
  {
    var u := hs + ":" + ms + rest;
    var after := ":" + ms + rest;
    assert u == hs + after;
    assert after[..1] == ":";
    assert Contains(after, ":");
    assert u[|hs|..] == after;
    ContainsSuffix(u, |hs|, ":");
  }

  /** With a colon present, both numbers must be read and the colon must follow the first at once. */
  lemma ScanClockColon(u: string, a: Scanned, b: Scanned)
    requires Contains(u, ":")
    requires ScanInt(u) == Some(a) && a.rest != [] && a.rest[0] == ':'
    requires ScanInt(a.rest[1..]) == Some(b)
    ensures ScanClock(u) == Some(Clock(a.value, b.value))
  {
  }

  lemma ScanColonParts(hs: string, ms: string, rest: string, a: Scanned, b: Scanned)
    requires Contains(hs + ":" + ms + rest, ":")
    requires ScanInt(hs + ":" + ms + rest) == Some(a) && a.rest == ":" + ms + rest
    requires ScanInt(ms + rest) == Some(b)
    ensures ScanClock(hs + ":" + ms + rest) == Some(Clock(a.value, b.value))
  {
    assert a.rest[1..] == ms + rest;
    ScanClockColon(hs + ":" + ms + rest, a, b);
  }

  lemma ScanColon(hs: string, ms: string, rest: string)
    requires hs != [] && AllDigits(hs) && 0 <= DecimalValue(hs) <= MaxInt64
    requires ms != [] && AllDigits(ms) && 0 <= DecimalValue(ms) <= MaxInt64
    requires rest == [] || !IsDigit(rest[0])
    ensures ScanClock(hs + ":" + ms + rest) == Some(Clock(DecimalValue(hs), DecimalValue(ms)))
  {
    var a := Scanned(DecimalValue(hs), ":" + ms + rest);
    var b := Scanned(DecimalValue(ms), rest);
    assert Contains(hs + ":" + ms + rest, ":") by {
      ColonAfterDigits(hs, ms, rest);
    }
    assert ScanInt(hs + ":" + ms + rest) == Some(a) by {
      assert hs + ":" + ms + rest == hs + (":" + ms + rest);
      ScanDigits(hs, ":" + ms + rest);
    }
    assert ScanInt(ms + rest) == Some(b) by {
      ScanDigits(ms, rest);
    }
    ScanColonParts(hs, ms, rest, a, b);
  }

  lemma ScanBare(ds: string, rest: string)
    requires ds != [] && AllDigits(ds) && 0 <= DecimalValue(ds) <= MaxInt64
    requires rest == [] || !IsDigit(rest[0])
    requires ':' !in ds + rest
    ensures ScanClock(ds + rest) == Some(Clock(DecimalValue(ds), 0))
  {
    NotContainsChar(ds + rest, ':');
    assert ScanInt(ds + rest) == Some(Scanned(DecimalValue(ds), rest)) by {
      ScanDigits(ds, rest);
    }
  }

  /** Reading a parse in its three stages: the normalised text, what is scanned, and the marker. */
  lemma ParseStaged(timeStr: string, normalized: string, stripped: string, date: int, c: Clock, minute: int)
    requires Normalize(timeStr) == normalized && StripMarkers(normalized) == stripped
    requires ScanClock(stripped) == Some(c)
    requires minute == date * MinutesPerDay + To24Hour(c.hour, IsPM(normalized)) * 60 + c.minute
    ensures ParsesTo(timeStr, date, minute)
  {
  }

  lemma ParseMarked(body: string, m: string, c: Clock, date: int)
    requires body != [] && IsClockText(body) && IsDigit(body[0]) && IsMarker(m)
    requires ScanClock(body + MarkerRest(m)) == Some(c)
    ensures ParsesTo(body + m, date, date * MinutesPerDay + To24Hour(c.hour, IsPMMarker(m)) * 60 + c.minute)
  {
    MarkedNormalized(body, m);
    ClockTextEnd(body);
    StripMarker(body, m);
    ParseStaged(body + m, body + m, body + MarkerRest(m), date, c,
                date * MinutesPerDay + To24Hour(c.hour, IsPMMarker(m)) * 60 + c.minute);
  }

  lemma ParseSpaced(body: string, pm: bool, c: Clock, date: int)
    requires body != [] && IsClockText(body) && IsDigit(body[0])
    requires ScanClock(body + (if pm then "p" else "")) == Some(c)
    ensures ParsesTo(body + (if pm then " PM" else " AM"), date, date * MinutesPerDay + To24Hour(c.hour, pm) * 60 + c.minute)
  {
    var m := if pm then "pm" else "am";
    SpacedNormalized(body, pm);
    ClockTextEnd(body);
    StripMarker(body, m);
    ParseStaged(body + (if pm then " PM" else " AM"), body + m, body + MarkerRest(m), date, c,
                date * MinutesPerDay + To24Hour(c.hour, pm) * 60 + c.minute);
  }

  lemma ScanHour(ds: string, m: string)
    requires ds != [] && AllDigits(ds) && 0 <= DecimalValue(ds) <= MaxInt64 && IsMarker(m)
    ensures ScanClock(ds + MarkerRest(m)) == Some(Clock(DecimalValue(ds), 0))
  {
    DigitsAreClockText(ds);
    assert ':' !in ds + MarkerRest(m) by {
      forall i | 0 <= i < |ds + MarkerRest(m)| ensures (ds + MarkerRest(m))[i] != ':' {
        if i < |ds| {
          assert (ds + MarkerRest(m))[i] == ds[i];
          AllDigitsAt(ds, i);
        } else {
          assert (ds + MarkerRest(m))[i] == MarkerRest(m)[i - |ds|];
        }
      }
    }
    ScanBare(ds, MarkerRest(m));
  }

  /** A bare hour, with or without a marker, is that hour on the hour ("9a", "12pm", "7"). */
  lemma ParseHour(ds: string, m: string, date: int)
    requires ds != [] && AllDigits(ds) && 0 <= DecimalValue(ds) <= MaxInt64 && IsMarker(m)
    ensures ParsesTo(ds + m, date, date * MinutesPerDay + To24Hour(DecimalValue(ds), IsPMMarker(m)) * 60)
  {
    DigitsAreClockText(ds);
    ScanHour(ds, m);
    ParseMarked(ds, m, Clock(DecimalValue(ds), 0), date);
  }

  /** "H:MM" with or without a marker names that hour and minute ("3:30p", "11:15"). */
  lemma ParseHourMinute(hh: string, mm: string, m: string, date: int)
    requires IsClockParts(hh, mm) && IsMarker(m)
    requires 0 <= DecimalValue(hh) <= MaxInt64 && 0 <= DecimalValue(mm) <= MaxInt64
    ensures ParsesTo(hh + ":" + mm + m, date,
                     date * MinutesPerDay + To24Hour(DecimalValue(hh), IsPMMarker(m)) * 60 + DecimalValue(mm))
  {
    ClockBodyIsClockText(hh, mm);
    ScanColon(hh, mm, MarkerRest(m));
    ParseMarked(hh + ":" + mm, m, Clock(DecimalValue(hh), DecimalValue(mm)), date);
  }

  /** A bare hour followed by " AM" or " PM" ("4 PM"). */
  lemma ParseHourSpaced(ds: string, pm: bool, date: int)
    requires ds != [] && AllDigits(ds) && 0 <= DecimalValue(ds) <= MaxInt64
    ensures ParsesTo(ds + (if pm then " PM" else " AM"), date, date * MinutesPerDay + To24Hour(DecimalValue(ds), pm) * 60)
  {
    DigitsAreClockText(ds);
    ScanHour(ds, if pm then "pm" else "");
    ParseSpaced(ds, pm, Clock(DecimalValue(ds), 0), date);
  }

  /** Any "H:MM AM" or "H:MM PM" text parses to the hour on the 24-hour clock and the minute it names. */
  lemma ParseClockText(hh: string, mm: string, pm: bool, date: int)
    requires IsClockParts(hh, mm) && 0 <= DecimalValue(hh) <= MaxInt64 && 0 <= DecimalValue(mm) <= MaxInt64
    ensures ParsesTo(hh + ":" + mm + (if pm then " PM" else " AM"), date,
                     date * MinutesPerDay + To24Hour(DecimalValue(hh), pm) * 60 + DecimalValue(mm))
  {
    ClockBodyIsClockText(hh, mm);
    ScanColon(hh, mm, if pm then "p" else "");
    ParseSpaced(hh + ":" + mm, pm, Clock(DecimalValue(hh), DecimalValue(mm)), date);
  }

  /** A time the form writes into a field in the "3:04 PM" layout parses back to the same minute. */
  lemma ParseKitchen(t: MinuteOfDay, date: int)
    ensures ParsesTo(Kitchen(t), date, date * MinutesPerDay + t)
  {
    var hh := HourText(Hour12(t));
    var mm := MinuteText(t % 60);
    var pm := t / 60 >= 12;
    assert To24Hour(Hour12(t), pm) * 60 + t % 60 == t;
    ParseClockText(hh, mm, pm, date);
  }

  // ---------------------------------------------------------------------------
  // Examples
  // ---------------------------------------------------------------------------

  lemma Example9a(date: int)
    ensures ParsesTo("9a", date, date * MinutesPerDay + 9 * 60)
  {
    assert "9" + "a" == "9a";
    DecimalOne('9');
    ParseHour("9", "a", date);
  }

  lemma Example330p(date: int)
    ensures ParsesTo("3:30p", date, date * MinutesPerDay + 15 * 60 + 30)
  {
    assert "3" + ":" + "30" + "p" == "3:30p";
    DecimalOne('3');
    DecimalTwo('3', '0');
    ParseHourMinute("3", "30", "p", date);
  }

  lemma Example12pm(date: int)
    ensures ParsesTo("12pm", date, date * MinutesPerDay + 12 * 60)
  {
    assert "12" + "pm" == "12pm";
    DecimalTwo('1', '2');
    ParseHour("12", "pm", date);
  }

  lemma Example12am(date: int)
    ensures ParsesTo("12am", date, date * MinutesPerDay)
  {
    assert "12" + "am" == "12am";
    DecimalTwo('1', '2');
    ParseHour("12", "am", date);
  }

  lemma Example7(date: int)
    ensures ParsesTo("7", date, date * MinutesPerDay + 7 * 60)
  {
    assert "7" + "" == "7";
    DecimalOne('7');
    ParseHour("7", "", date);
  }

  lemma Example1115(date: int)
    ensures ParsesTo("11:15", date, date * MinutesPerDay + 11 * 60 + 15)
  {
    assert "11" + ":" + "15" + "" == "11:15";
    DecimalTwo('1', '1');
    DecimalTwo('1', '5');
    ParseHourMinute("11", "15", "", date);
  }

  lemma Example4PM(date: int)
    ensures ParsesTo("4 PM", date, date * MinutesPerDay + 16 * 60)
  {
    assert "4" + " PM" == "4 PM";
    DecimalOne('4');
    ParseHourSpaced("4", true, date);
  }

  lemma Example13p(date: int)
    ensures ParsesTo("13p", date, date * MinutesPerDay + 25 * 60)
  {
    assert "13" + "p" == "13p";
    DecimalTwo('1', '3');
    ParseHour("13", "p", date);
  }

  lemma Example12(date: int)
    ensures ParsesTo("12", date, date * MinutesPerDay)
  {
    assert "12" + "" == "12";
    DecimalTwo('1', '2');
    ParseHour("12", "", date);
  }

  lemma Example1230(date: int)
    ensures ParsesTo("12:30", date, date * MinutesPerDay + 30)
  {
    assert "12" + ":" + "30" + "" == "12:30";
    DecimalTwo('1', '2');
    DecimalTwo('3', '0');
    ParseHourMinute("12", "30", "", date);
  }

  /** Text that starts with a letter is rejected, quoting what was scanned. */
  lemma ExampleAbc(date: int)
    ensures ParseTime("abc", date).Failure? && ParseTime("abc", date).error == InvalidFormat("abc")
  {
    var s := "abc";
    assert Normalize(s) == s by {
      NormalizeClean(s);
    }
    assert StripMarkers(s) == s by {
      StripBare(s);
    }
    NoLeadingIntegerFails(s, date);
  }

  /** The empty string is rejected too: it never reads as midnight. */
  lemma ExampleEmpty(date: int)
    ensures ParseTime("", date).Failure? && ParseTime("", date).error == InvalidFormat("")
  {
    assert Normalize("") == "";
    assert StripMarkers("") == "";
    NoLeadingIntegerFails("", date);
  }
}
