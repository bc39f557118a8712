/**
 * The video-duration formatter of the search view (src/render.rs): it scans an
 * ISO 8601 duration such as `PT1H2M3S` character by character, honouring only the
 * hour, minute and second designators, and prints `H:MM:SS` or `M:SS`.
 */
module Duration {
  import opened Wrappers
  import opened Strings

  /** The scanner's variables: the three `i32` fields and the pending digit run `num`. */
  datatype Scanner = Scanner(hours: nat, minutes: nat, seconds: nat, num: string)

  const Start: Scanner := Scanner(0, 0, 0, "")

  /** `if let Ok(n) = num.parse() { field = n; }` for an `i32` field. */
  function Assign(field: nat, num: string): nat {
    match ParseUnsigned(num, I32_MAX)
    case Some(n) => n
    case None => field
  }

  /** One iteration of the scanning loop. */
  function Feed(st: Scanner, c: char): Scanner {
    if c == 'P' || c == 'T' then st
    else if IsAsciiDigit(c) then st.(num := st.num + [c])
    else if c == 'H' then st.(hours := Assign(st.hours, st.num), num := "")
    else if c == 'M' then st.(minutes := Assign(st.minutes, st.num), num := "")
    else if c == 'S' then st.(seconds := Assign(st.seconds, st.num), num := "")
    else st
  }

  /** The scanner after reading all of `s`, left to right. */
  function Scan(st: Scanner, s: string): Scanner
    decreases |s|
  {
    if s == [] then st else Scan(Feed(st, s[0]), s[1..])
  }

  /** The final `format!`: `H:MM:SS` when there are hours, otherwise `M:SS`. */
  function FormatDuration(hours: nat, minutes: nat, seconds: nat): string {
    if hours > 0 then Decimal(hours) + ":" + Pad2(minutes) + ":" + Pad2(seconds)
    else Decimal(minutes) + ":" + Pad2(seconds)
  }

  /** `parse_iso8601_duration`. */
  method ParseIso8601Duration(duration: string) returns (r: string)
    ensures var st := Scan(Start, duration); r == FormatDuration(st.hours, st.minutes, st.seconds)
  {
    var hours: nat, minutes: nat, seconds: nat := 0, 0, 0;
    var num := "";
    var i := 0;
    while i < |duration|
      invariant 0 <= i <= |duration|
      invariant Scan(Scanner(hours, minutes, seconds, num), duration[i..]) == Scan(Start, duration)
    {
      var c := duration[i];
      assert duration[i..][1..] == duration[i + 1..];
      i := i + 1;
      if c == 'P' || c == 'T' {
        continue;
      }
      if IsAsciiDigit(c) {
        num := num + [c];
      } else if c == 'H' {
        var n := ParseUnsigned(num, I32_MAX);
        if n.Some? {
          hours := n.value;
        }
        num := "";
      } else if c == 'M' {
        var n := ParseUnsigned(num, I32_MAX);
        if n.Some? {
          minutes := n.value;
        }
        num := "";
      } else if c == 'S' {
        var n := ParseUnsigned(num, I32_MAX);
        if n.Some? {
          seconds := n.value;
        }
        num := "";
      }
    }
    if hours > 0 {
      r := Decimal(hours) + ":" + Pad2(minutes) + ":" + Pad2(seconds);
    } else {
      r := Decimal(minutes) + ":" + Pad2(seconds);
    }
  }

  lemma {:induction false} ScanAppend(st: Scanner, a: string, b: string)
    ensures Scan(st, a + b) == Scan(Scan(st, a), b)
    decreases |a|
  {
    if a != [] {
      assert (a + b)[1..] == a[1..] + b;
      ScanAppend(Feed(st, a[0]), a[1..], b);
    } else {
      assert a + b == b;
    }
  }

  /** `P` and `T` are skipped wherever they occur. */
  lemma SkipsDateTimeMarkers(st: Scanner, a: string, c: char, b: string)
    requires c == 'P' || c == 'T'
    ensures Scan(st, a + [c] + b) == Scan(st, a + b)
  {
    ScanAppend(st, a + [c], b);
    ScanAppend(st, a, [c]);
    ScanAppend(st, a, b);
  }

  /** A character that is neither a digit nor a designator (`D`, `W`, `Y`, a space, …). */
  predicate Ignored(c: char) {
    !IsAsciiDigit(c) && c !in "PTHMS"
  }

  lemma {:induction false} ScanIgnored(st: Scanner, junk: string)
    requires forall i :: 0 <= i < |junk| ==> Ignored(junk[i])
    ensures Scan(st, junk) == st
  {
    if junk != [] {
      assert Ignored(junk[0]);
      ScanIgnored(st, junk[1..]);
    }
  }

  /** Other characters change nothing, not even the digit run, so digits on both sides join up. */
  lemma IgnoresOtherCharacters(st: Scanner, a: string, junk: string, b: string)
    requires forall i :: 0 <= i < |junk| ==> Ignored(junk[i])
    ensures Scan(st, a + junk + b) == Scan(st, a + b)
  {
    ScanAppend(st, a + junk, b);
    ScanAppend(st, a, junk);
    ScanIgnored(Scan(st, a), junk);
    ScanAppend(st, a, b);
  }

  /** A run of digits is collected into `num` and touches nothing else. */
  lemma {:induction false} ScanDigits(st: Scanner, d: string)
    requires AllDigits(d)
    ensures Scan(st, d) == st.(num := st.num + d)
    decreases |d|
  {
    if d == [] {
      assert st.num + d == st.num;
    } else {
      assert IsAsciiDigit(d[0]);
      ScanDigits(Feed(st, d[0]), d[1..]);
      assert st.num + [d[0]] + d[1..] == st.num + d;
    }
  }

  /**
   * A designator stores the pending run, parsed as `i32`, into its field, replacing
   * whatever was there, and empties the run; an empty or overflowing run leaves the
   * field as it was but is still dropped.
   */
  lemma DesignatorAssigns(st: Scanner, d: string, c: char)
    requires AllDigits(st.num) && AllDigits(d) && c in "HMS"
    ensures var run := st.num + d;
      var value := if run != [] && AllDigits(run) && DigitsValue(run) <= I32_MAX then Some(DigitsValue(run)) else None;
      var next := Scan(st, d + [c]);
      && next.num == ""
      && next.hours == (if c == 'H' && value.Some? then value.value else st.hours)
      && next.minutes == (if c == 'M' && value.Some? then value.value else st.minutes)
      && next.seconds == (if c == 'S' && value.Some? then value.value else st.seconds)
  {
    ScanAppend(st, d, [c]);
    ScanDigits(st, d);
    var run := st.num + d;
    assert AllDigits(run);
    if run != [] {
      assert IsAsciiDigit(run[0]);
    }
  }

  /** Digits left over after the last designator do not affect the fields. */
  lemma TrailingDigitsDiscarded(s: string, d: string)
    requires AllDigits(d)
    ensures var a, b := Scan(Start, s), Scan(Start, s + d);
      a.hours == b.hours && a.minutes == b.minutes && a.seconds == b.seconds
  {
    ScanAppend(Start, s, d);
    ScanDigits(Scan(Start, s), d);
  }

  predicate InRange(st: Scanner) {
    st.hours <= I32_MAX && st.minutes <= I32_MAX && st.seconds <= I32_MAX
  }

  /** Every field stays a value an `i32` can hold. */
  lemma {:induction false} ScanInRange(st: Scanner, s: string)
    requires InRange(st)
    ensures InRange(Scan(st, s))
    decreases |s|
  {
    if s != [] {
      ScanInRange(Feed(st, s[0]), s[1..]);
    }
  }

  /** The duration `PT<h>H<m>M<s>S`, each number written in decimal. */
  function IsoDuration(hours: nat, minutes: nat, seconds: nat): string {
    "PT" + (Decimal(hours) + "H") + (Decimal(minutes) + "M") + (Decimal(seconds) + "S")
  }

  /** A valid digit run followed by its designator, read from a state with no pending run. */
  lemma Designate(st: Scanner, d: string, c: char)
    requires st.num == "" && d != [] && AllDigits(d) && DigitsValue(d) <= I32_MAX && c in "HMS"
    ensures var next := Scan(st, d + [c]);
      && next.num == ""
      && next.hours == (if c == 'H' then DigitsValue(d) else st.hours)
      && next.minutes == (if c == 'M' then DigitsValue(d) else st.minutes)
      && next.seconds == (if c == 'S' then DigitsValue(d) else st.seconds)
  {
    DesignatorAssigns(st, d, c);
    assert st.num + d == d;
  }

  lemma ScanPrefixPT(st: Scanner, rest: string)
    ensures Scan(st, "PT" + rest) == Scan(st, rest)
  {
    assert ("PT" + rest)[1..] == "T" + rest;
    assert ("T" + rest)[1..] == rest;
  }

  lemma ScanThree(st: Scanner, a: string, b: string, c: string)
    ensures Scan(st, a + b + c) == Scan(Scan(Scan(st, a), b), c)
  {
    ScanAppend(st, a + b, c);
    ScanAppend(st, a, b);
  }

  predicate ValidRun(d: string) {
    d != [] && AllDigits(d) && DigitsValue(d) <= I32_MAX
  }

  /** The three designated runs, scanned one after the other from the start. */
  lemma ScanDesignated(dh: string, dm: string, ds: string) returns (s3: Scanner)
    requires ValidRun(dh) && ValidRun(dm) && ValidRun(ds)
    ensures s3 == Scan(Scan(Scan(Start, dh + "H"), dm + "M"), ds + "S")
    ensures s3 == Scanner(DigitsValue(dh), DigitsValue(dm), DigitsValue(ds), "")
  {
    var s1 := Scan(Start, dh + "H");
    assert s1 == Scanner(DigitsValue(dh), 0, 0, "") by { Designate(Start, dh, 'H'); }
    var s2 := Scan(s1, dm + "M");
    assert s2 == Scanner(DigitsValue(dh), DigitsValue(dm), 0, "") by { Designate(s1, dm, 'M'); }
    s3 := Scan(s2, ds + "S");
    Designate(s2, ds, 'S');
  }

  lemma ScanIsoDigits(dh: string, dm: string, ds: string)
    requires ValidRun(dh) && ValidRun(dm) && ValidRun(ds)
    ensures Scan(Start, "PT" + (dh + "H") + (dm + "M") + (ds + "S"))
      == Scanner(DigitsValue(dh), DigitsValue(dm), DigitsValue(ds), "")
  {
    var h, m, s := dh + "H", dm + "M", ds + "S";
    var s3 := ScanDesignated(dh, dm, ds);
    calc {
      Scan(Start, "PT" + h + m + s);
      { assert "PT" + h + m + s == "PT" + (h + m + s); ScanPrefixPT(Start, h + m + s); }
      Scan(Start, h + m + s);
      { ScanThree(Start, h, m, s); }
      s3;
    }
  }

  /** Scanning a duration written out in full recovers its three numbers. */
  lemma ScanIsoDuration(hours: nat, minutes: nat, seconds: nat)
    requires hours <= I32_MAX && minutes <= I32_MAX && seconds <= I32_MAX
    ensures Scan(Start, IsoDuration(hours, minutes, seconds)) == Scanner(hours, minutes, seconds, "")
  {
    ScanIsoDigits(Decimal(hours), Decimal(minutes), Decimal(seconds));
  }

  /** Missing components default to zero: both "" and "PT" come out as `0:00`. */
  lemma EmptyDuration()
    ensures Scan(Start, "") == Start && Scan(Start, "PT") == Start
    ensures FormatDuration(0, 0, 0) == "0:00"
  {
    ScanPrefixPT(Start, "");
    assert "PT" + "" == "PT";
    assert Decimal(0) == "0";
    assert Pad2(0) == "00";
  }

  lemma FormatWithHours(hours: nat, minutes: nat, seconds: nat)
    requires hours > 0
    ensures Split(FormatDuration(hours, minutes, seconds), ':') == [Decimal(hours), Pad2(minutes), Pad2(seconds)]
  {
    var h, m, s := Decimal(hours), Pad2(minutes), Pad2(seconds);
    Pad2Digits(minutes);
    Pad2Digits(seconds);
    NoColonInDigits(h);
    NoColonInDigits(m);
    NoColonInDigits(s);
    SplitThree(h, m, s, ':');
  }

  lemma FormatWithoutHours(minutes: nat, seconds: nat)
    ensures Split(FormatDuration(0, minutes, seconds), ':') == [Decimal(minutes), Pad2(seconds)]
  {
    var m, s := Decimal(minutes), Pad2(seconds);
    Pad2Digits(seconds);
    NoColonInDigits(m);
    NoColonInDigits(s);
    SplitTwo(m, s, ':');
  }

  /** `split(':')` of the formatted text gives back the numbers, the last one or two padded to two digits. */
  lemma FormatDurationFields(hours: nat, minutes: nat, seconds: nat)
    ensures var parts := Split(FormatDuration(hours, minutes, seconds), ':');
      && (forall i :: 0 <= i < |parts| ==> AllDigits(parts[i]))
      && (hours > 0 ==>
           && |parts| == 3 && parts[0] == Decimal(hours)
           && DigitsValue(parts[1]) == minutes && DigitsValue(parts[2]) == seconds
           && |parts[1]| >= 2 && |parts[2]| >= 2)
      && (hours == 0 ==>
           && |parts| == 2 && parts[0] == Decimal(minutes)
           && DigitsValue(parts[1]) == seconds && |parts[1]| >= 2)
  {
    if hours > 0 {
      FieldsWithHours(hours, minutes, seconds);
    } else {
      FieldsWithoutHours(minutes, seconds);
    }
  }

  lemma FieldsWithHours(hours: nat, minutes: nat, seconds: nat)
    requires hours > 0
    ensures var parts := Split(FormatDuration(hours, minutes, seconds), ':');
      && |parts| == 3 && (forall i :: 0 <= i < |parts| ==> AllDigits(parts[i]))
      && parts[0] == Decimal(hours)
      && DigitsValue(parts[1]) == minutes && DigitsValue(parts[2]) == seconds
      && |parts[1]| >= 2 && |parts[2]| >= 2
  {
    Pad2Digits(minutes);
    Pad2Digits(seconds);
    FormatWithHours(hours, minutes, seconds);
  }

  lemma FieldsWithoutHours(minutes: nat, seconds: nat)
    ensures var parts := Split(FormatDuration(0, minutes, seconds), ':');
      && |parts| == 2 && (forall i :: 0 <= i < |parts| ==> AllDigits(parts[i]))
      && parts[0] == Decimal(minutes)
      && DigitsValue(parts[1]) == seconds && |parts[1]| >= 2
  {
    Pad2Digits(seconds);
    FormatWithoutHours(minutes, seconds);
  }

  lemma NoColonInDigits(d: string)
    requires AllDigits(d)
    ensures ':' !in d
  {
  }

  lemma SmallValues()
    ensures ValidRun("1") && DigitsValue("1") == 1
    ensures ValidRun("2") && DigitsValue("2") == 2
    ensures ValidRun("3") && DigitsValue("3") == 3
    ensures ValidRun("4") && DigitsValue("4") == 4
    ensures ValidRun("13") && DigitsValue("13") == 13
  {
    assert "13"[..1] == "1";
  }

  /** `PT4M13S` comes out as `4:13`. */
  lemma ExampleMinutes()
    ensures var st := Scan(Start, "PT4M13S"); FormatDuration(st.hours, st.minutes, st.seconds) == "4:13"
  {
    SmallValues();
    var m, s := "4" + "M", "13" + "S";
    var s1 := Scan(Start, m);
    assert s1 == Scanner(0, 4, 0, "") by { Designate(Start, "4", 'M'); }
    var s2 := Scan(s1, s);
    assert s2 == Scanner(0, 4, 13, "") by { Designate(s1, "13", 'S'); }
    assert Scan(Start, "PT4M13S") == s2 by {
      assert "PT4M13S" == "PT" + (m + s);
      ScanPrefixPT(Start, m + s);
      ScanAppend(Start, m, s);
    }
    FormatExampleMinutes();
  }

  lemma FormatExampleMinutes()
    ensures FormatDuration(0, 4, 13) == "4:13"
  {
    assert Decimal(4) == "4";
    assert Decimal(13) == "13" by { assert Decimal(1) == "1"; assert Decimal(13) == Decimal(1) + "3"; }
    assert Pad2(13) == "13";
  }

  lemma ScanExampleHours()
    ensures Scan(Start, "PT1H2M3S") == Scanner(1, 2, 3, "")
  {
    SmallValues();
    assert "PT1H2M3S" == "PT" + ("1" + "H") + ("2" + "M") + ("3" + "S");
    ScanIsoDigits("1", "2", "3");
  }

  lemma FormatExampleHours()
    ensures FormatDuration(1, 2, 3) == "1:02:03"
  {
    assert Decimal(1) == "1";
    assert Pad2(2) == "02" by { assert Decimal(2) == "2"; }
    assert Pad2(3) == "03" by { assert Decimal(3) == "3"; }
  }

  /** `PT1H2M3S` comes out as `1:02:03`. */
  lemma ExampleHours()
    ensures var st := Scan(Start, "PT1H2M3S"); FormatDuration(st.hours, st.minutes, st.seconds) == "1:02:03"
  {
    ScanExampleHours();
    FormatExampleHours();
  }
}
